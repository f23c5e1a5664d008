// The game-flow state machine of the desktop engine: the states a game runs
// through, the handlers the UI and the network call, the transition taken
// after each state's work, and one pass of the processing loop. Calls into
// the game manager (move validation, promotion detection, turn and end-game
// checks, initialisation) are inputs.

module GameStateMachine {
  import opened ChessTypes

  datatype GameState =
    | Undefined | Init | InitSucceeded | WaitingForInput | MoveInitiated | WaitingForTarget
    | ValidatingMove | ExecutingMove | PawnPromotion | WaitingForRemoteMove | WaitingForCPUMove | GameOver

  datatype EndGameState = OnGoing | Checkmate | StaleMate | Reset

  datatype Option<T> = None | Some(value: T)

  /** The answers of the game manager that one pass of the processing loop needs. */
  datatype Answers = Answers(
    initResult: bool,
    movesCalculated: bool,
    validMove: bool,
    isPawnPromotion: bool,
    localTurn: bool,
    endgame: EndGameState)

  /**
   * The transitions of the game flow: set-up, the two square selections,
   * validation, the promotion choice, execution, the remote move and the end.
   */
  predicate CanFollow(from: GameState, to: GameState)
  {
    match from
    case Undefined => to == Init
    case Init => to == InitSucceeded
    case InitSucceeded => to == WaitingForInput || to == WaitingForRemoteMove
    case WaitingForInput => to == MoveInitiated
    case MoveInitiated => to == WaitingForTarget
    case WaitingForTarget => to == ValidatingMove
    case ValidatingMove => to == GameState.PawnPromotion || to == ExecutingMove || to == WaitingForInput
    case PawnPromotion => to == ExecutingMove
    case ExecutingMove => to == WaitingForInput || to == WaitingForRemoteMove || to == GameOver
    case WaitingForRemoteMove => to == ExecutingMove
    case WaitingForCPUMove => false
    case GameOver => false
  }

  /** A handler's outcome is the state it announces through `gameStateChanged`, if any. */
  function Announce(target: Option<GameState>): seq<GameState>
  {
    if target.Some? then [target.value] else []
  }

  function After(state: GameState, target: Option<GameState>): GameState
  {
    if target.Some? then target.value else state
  }

  /** Each announced state follows the one before it, starting from `from`. */
  predicate FollowsFlow(from: GameState, path: seq<GameState>)
  {
    (|path| > 0 ==> CanFollow(from, path[0]))
    && forall i :: 0 < i < |path| ==> CanFollow(path[i - 1], path[i])
  }

  /** An announcement follows the flow when it is empty or a single transition of it. */
  lemma AnnounceFollows(from: GameState, target: Option<GameState>)
    ensures FollowsFlow(from, Announce(target)) <==> target.None? || CanFollow(from, target.value)
  {
  }

  /** `resetCurrentPossibleMove`: both squares back to (0, 0) and the type to Normal; the promotion piece stays. */
  function ResetMove(move: PossibleMove): PossibleMove
  {
    move.(start := Position(0, 0), end := Position(0, 0), mtype := {Normal})
  }

  /** `onGameStarted`: only an Undefined machine starts, into Init. */
  function StartTarget(state: GameState): Option<GameState>
  {
    if state == Undefined then Some(Init) else None
  }

  /** `onSquareSelected`: the first square while waiting for input, the second while waiting for the target. */
  function SquareTarget(state: GameState): Option<GameState>
  {
    if state == WaitingForInput then Some(MoveInitiated)
    else if state == WaitingForTarget then Some(ValidatingMove)
    else None
  }

  /** `onPawnPromotionChosen` as written: the move is executed whatever the state. */
  function PromotionTargetAsWritten(state: GameState): Option<GameState>
  {
    Some(ExecutingMove)
  }

  /** `onPawnPromotionChosen` acting only while a promotion is awaited. */
  function PromotionTarget(state: GameState): Option<GameState>
  {
    if state == GameState.PawnPromotion then Some(ExecutingMove) else None
  }

  /**
   * `switchToNextState`. `isPawnPromotion`, `localTurn` and `endgame` are the
   * game manager's answers, asked only in the states that ask for them.
   */
  function SwitchTarget(state: GameState, initialized: bool, multiplayer: bool, validMove: bool,
                        isPawnPromotion: bool, localTurn: bool, endgame: EndGameState): Option<GameState>
  {
    match state
    case Undefined => Some(Init)
    case Init => if initialized then Some(InitSucceeded) else None
    case InitSucceeded => if multiplayer && !localTurn then Some(WaitingForRemoteMove) else Some(WaitingForInput)
    case MoveInitiated => Some(WaitingForTarget)
    case ValidatingMove =>
      if !validMove then Some(WaitingForInput)
      else if isPawnPromotion then Some(GameState.PawnPromotion)
      else Some(ExecutingMove)
    case ExecutingMove =>
      if endgame != OnGoing then Some(GameOver)
      else if multiplayer && !localTurn then Some(WaitingForRemoteMove)
      else Some(WaitingForInput)
    case _ => None
  }

  /** Whether the switch resets the move: after an invalid move, and after a move that leaves the game going. */
  predicate SwitchResetsMove(state: GameState, validMove: bool, endgame: EndGameState)
  {
    (state == ValidatingMove && !validMove) || (state == ExecutingMove && endgame == OnGoing)
  }

  /** `onRemoteMoveReceived` queues the move's execution while waiting for the remote, unless a promotion lacks its piece. */
  predicate RemoteQueues(state: GameState, isPawnPromotion: bool, remoteMove: PossibleMove)
  {
    state == WaitingForRemoteMove && !(isPawnPromotion && remoteMove.promotionPiece == DefaultType)
  }

  /** The states whose pass of the loop ends with `switchToNextState`. */
  predicate SwitchesAfterWork(s: GameState)
  {
    s in {Undefined, Init, InitSucceeded, MoveInitiated, ValidatingMove, ExecutingMove}
  }

  /** The Init state's work: initialise once. */
  function InitAfterWork(state: GameState, initialized: bool, initResult: bool): bool
  {
    if state == Init && !initialized then initResult else initialized
  }

  /** The validating state's work: ask whether the move is valid. */
  function ValidAfterWork(state: GameState, validMove: bool, answer: bool): bool
  {
    if state == ValidatingMove then answer else validMove
  }

  /** The state a pass of `run` announces after the work of `state`, if any. */
  function StepTarget(state: GameState, initialized: bool, multiplayer: bool, validMove: bool, a: Answers): Option<GameState>
  {
    if SwitchesAfterWork(state)
    then SwitchTarget(state, InitAfterWork(state, initialized, a.initResult), multiplayer,
                      ValidAfterWork(state, validMove, a.validMove), a.isPawnPromotion, a.localTurn, a.endgame)
    else None
  }

  /**
   * The states one pass of `run` announces: a queued state first, then the
   * switch that follows the work of the state reached.
   */
  function PassAnnouncements(state: GameState, pending: Option<GameState>, initialized: bool, multiplayer: bool,
                             validMove: bool, a: Answers): seq<GameState>
  {
    Announce(pending) + Announce(StepTarget(After(state, pending), initialized, multiplayer, validMove, a))
  }

  /** The state a pass of `run` ends in. */
  function PassState(state: GameState, pending: Option<GameState>, initialized: bool, multiplayer: bool,
                     validMove: bool, a: Answers): GameState
  {
    var s1 := After(state, pending);
    After(s1, StepTarget(s1, initialized, multiplayer, validMove, a))
  }

  // ---------------------------------------------------------------
  // Properties of the transitions
  // ---------------------------------------------------------------

  /** A game starts only from Undefined, into Init. */
  lemma StartRules(state: GameState)
    ensures StartTarget(state).Some? <==> state == Undefined
    ensures StartTarget(state).Some? ==> StartTarget(state).value == Init
  {
  }

  /**
   * Selecting a square initiates the move while waiting for input, starts
   * validation while waiting for the target, and is ignored otherwise.
   */
  lemma SquareRules(state: GameState)
    ensures SquareTarget(state).Some? <==> state == WaitingForInput || state == WaitingForTarget
    ensures state == WaitingForInput ==> SquareTarget(state) == Some(MoveInitiated)
    ensures state == WaitingForTarget ==> SquareTarget(state) == Some(ValidatingMove)
  {
  }

  /**
   * After validation a valid move goes to the promotion choice or straight to
   * execution, an invalid one back to waiting for input, with the move reset.
   */
  lemma ValidationRules(initialized: bool, multiplayer: bool, validMove: bool, isPawnPromotion: bool, localTurn: bool, endgame: EndGameState)
    ensures var t := SwitchTarget(ValidatingMove, initialized, multiplayer, validMove, isPawnPromotion, localTurn, endgame);
            (validMove && isPawnPromotion <==> t == Some(GameState.PawnPromotion))
            && (validMove && !isPawnPromotion <==> t == Some(ExecutingMove))
            && (!validMove <==> t == Some(WaitingForInput))
    ensures SwitchResetsMove(ValidatingMove, validMove, endgame) <==> !validMove
  {
  }

  /**
   * After execution the game is over unless it is still going; a going game
   * waits for the remote in a multiplayer game on the remote's turn and for
   * local input otherwise.
   */
  lemma ExecutionRules(initialized: bool, multiplayer: bool, validMove: bool, isPawnPromotion: bool, localTurn: bool, endgame: EndGameState)
    ensures var t := SwitchTarget(ExecutingMove, initialized, multiplayer, validMove, isPawnPromotion, localTurn, endgame);
            (t == Some(GameOver) <==> endgame != OnGoing)
            && (t == Some(WaitingForRemoteMove) <==> endgame == OnGoing && multiplayer && !localTurn)
            && (t == Some(WaitingForInput) <==> endgame == OnGoing && !(multiplayer && !localTurn))
    ensures SwitchResetsMove(ExecutingMove, validMove, endgame) <==> endgame == OnGoing
  {
  }

  /** Init moves on, to InitSucceeded, exactly when initialised. */
  lemma InitRules(initialized: bool, multiplayer: bool, validMove: bool, isPawnPromotion: bool, localTurn: bool, endgame: EndGameState)
    ensures SwitchTarget(Init, initialized, multiplayer, validMove, isPawnPromotion, localTurn, endgame).Some? <==> initialized
    ensures initialized ==> SwitchTarget(Init, initialized, multiplayer, validMove, isPawnPromotion, localTurn, endgame) == Some(InitSucceeded)
  {
  }

  /**
   * The switch, a square selection, the start of a game and the corrected
   * promotion choice either stay put or take a transition of the game flow;
   * the waiting, promotion and end states have no switch of their own.
   */
  lemma TransitionsFollowFlow(state: GameState, initialized: bool, multiplayer: bool, validMove: bool,
                              isPawnPromotion: bool, localTurn: bool, endgame: EndGameState)
    ensures FollowsFlow(state, Announce(SwitchTarget(state, initialized, multiplayer, validMove, isPawnPromotion, localTurn, endgame)))
    ensures FollowsFlow(state, Announce(SquareTarget(state)))
    ensures FollowsFlow(state, Announce(StartTarget(state)))
    ensures FollowsFlow(state, Announce(PromotionTarget(state)))
    ensures state in {WaitingForInput, WaitingForTarget, GameState.PawnPromotion, WaitingForRemoteMove, WaitingForCPUMove, GameOver} ==>
              SwitchTarget(state, initialized, multiplayer, validMove, isPawnPromotion, localTurn, endgame) == None
  {
    AnnounceFollows(state, SwitchTarget(state, initialized, multiplayer, validMove, isPawnPromotion, localTurn, endgame));
    AnnounceFollows(state, SquareTarget(state));
    AnnounceFollows(state, StartTarget(state));
    AnnounceFollows(state, PromotionTarget(state));
  }

  /**
   * As written, choosing a promotion piece while waiting for input sends the
   * machine straight to execution, skipping selection and validation.
   */
  lemma PromotionAsWrittenSkipsValidation()
    ensures After(WaitingForInput, PromotionTargetAsWritten(WaitingForInput)) == ExecutingMove
    ensures !FollowsFlow(WaitingForInput, Announce(PromotionTargetAsWritten(WaitingForInput)))
  {
    AnnounceFollows(WaitingForInput, PromotionTargetAsWritten(WaitingForInput));
  }

  /** Both versions agree while a promotion is awaited, and only then. */
  lemma PromotionChoicesAgree(state: GameState)
    ensures PromotionTarget(state) == PromotionTargetAsWritten(state) <==> state == GameState.PawnPromotion
  {
  }

  /** A remote promotion without a piece is held back; any other remote move is queued while waiting for the remote. */
  lemma RemoteRules(state: GameState, isPawnPromotion: bool, remoteMove: PossibleMove)
    ensures RemoteQueues(state, isPawnPromotion, remoteMove) ==> CanFollow(state, ExecutingMove)
    ensures state == WaitingForRemoteMove && !isPawnPromotion ==> RemoteQueues(state, isPawnPromotion, remoteMove)
    ensures isPawnPromotion && remoteMove.promotionPiece == DefaultType ==> !RemoteQueues(state, isPawnPromotion, remoteMove)
  {
  }

  /**
   * A pass of the loop follows the game flow, provided any queued state is
   * the execution a remote move queues.
   */
  lemma {:induction false} PassFollowsFlow(state: GameState, pending: Option<GameState>, initialized: bool, multiplayer: bool,
                                           validMove: bool, a: Answers)
    requires pending.Some? ==> state == WaitingForRemoteMove && pending.value == ExecutingMove
    ensures var path := PassAnnouncements(state, pending, initialized, multiplayer, validMove, a);
            FollowsFlow(state, path) && |path| <= 2
            && (|path| > 0 ==> path[|path| - 1] == PassState(state, pending, initialized, multiplayer, validMove, a))
            && (|path| == 0 ==> PassState(state, pending, initialized, multiplayer, validMove, a) == state)
  {
    var s1 := After(state, pending);
    var i1 := InitAfterWork(s1, initialized, a.initResult);
    var v1 := ValidAfterWork(s1, validMove, a.validMove);
    var t := StepTarget(s1, initialized, multiplayer, validMove, a);
    TransitionsFollowFlow(s1, i1, multiplayer, v1, a.isPawnPromotion, a.localTurn, a.endgame);
    AnnounceFollows(s1, SwitchTarget(s1, i1, multiplayer, v1, a.isPawnPromotion, a.localTurn, a.endgame));
    assert t.Some? ==> CanFollow(s1, t.value);
    var path := Announce(pending) + Announce(t);
    assert path == PassAnnouncements(state, pending, initialized, multiplayer, validMove, a);
    if pending.Some? {
      assert path[0] == ExecutingMove;
      assert |path| > 1 ==> path[1] == t.value;
    } else {
      assert path == Announce(t) && s1 == state;
    }
  }

  /** A single-player game whose initialisation succeeds goes Init, InitSucceeded, WaitingForInput over two passes. */
  lemma SinglePlayerSetUp(a: Answers)
    requires a.initResult
    ensures StartTarget(Undefined) == Some(Init)
    ensures PassAnnouncements(Init, None, false, false, false, a) == [InitSucceeded]
    ensures PassAnnouncements(InitSucceeded, None, true, false, false, a) == [WaitingForInput]
    ensures PassAnnouncements(WaitingForInput, None, true, false, false, a) == []
  {
  }

  // ---------------------------------------------------------------
  // The machine itself
  // ---------------------------------------------------------------

  class StateMachine {
    var currentState: GameState
    var currentPossibleMove: PossibleMove
    var initialized: bool
    var isMultiplayerGame: bool
    var isValidMove: bool
    var awaitingPromotion: bool
    var waitingForTargetStart: bool
    var waitingForTargetEnd: bool
    var movesCalculated: bool
    var receivedMoveFromRemote: bool
    var endgameState: EndGameState
    var hasPendingStateChange: bool
    var pendingState: GameState
    /** Whether the processing thread has been started. */
    var running: bool
    /** The states announced to the observers so far. */
    var announced: seq<GameState>

    /** The state change a handler made: the target, if any, is now current and has been announced. */
    twostate predicate Took(target: Option<GameState>)
      reads this
    {
      currentState == After(old(currentState), target) && announced == old(announced) + Announce(target)
    }

    function Pending(): Option<GameState>
      reads this
    {
      if hasPendingStateChange then Some(pendingState) else None
    }

    constructor()
      ensures currentState == Undefined && currentPossibleMove == EmptyPossibleMove && announced == []
      ensures !initialized && !isMultiplayerGame && !isValidMove && !awaitingPromotion && !running
      ensures !waitingForTargetStart && !waitingForTargetEnd && !movesCalculated && !receivedMoveFromRemote
      ensures endgameState == OnGoing && Pending() == None
    {
      currentState := Undefined;
      currentPossibleMove := EmptyPossibleMove;
      initialized := false;
      isMultiplayerGame := false;
      isValidMove := false;
      awaitingPromotion := false;
      waitingForTargetStart := false;
      waitingForTargetEnd := false;
      movesCalculated := false;
      receivedMoveFromRemote := false;
      endgameState := OnGoing;
      hasPendingStateChange := false;
      pendingState := Undefined;
      running := false;
      announced := [];
    }

    /** `gameStateChanged`: the state is set and announced to the observers. */
    method GameStateChanged(state: GameState)
      modifies this`currentState, this`announced
      ensures Took(Some(state))
    {
      currentState := state;
      announced := announced + [state];
    }

    method ResetCurrentPossibleMove()
      modifies this`currentPossibleMove
      ensures currentPossibleMove == ResetMove(old(currentPossibleMove))
    {
      currentPossibleMove := currentPossibleMove.(start := Position(0, 0), end := Position(0, 0), mtype := {Normal});
    }

    method OnGameStarted()
      modifies this`currentState, this`announced, this`running
      ensures Took(StartTarget(old(currentState)))
      ensures running == (old(running) || old(currentState) == Undefined)
    {
      if currentState == Undefined {
        GameStateChanged(Init);
        running := true;
      }
    }

    method OnMultiplayerGameStarted()
      modifies this`isMultiplayerGame, this`currentState, this`announced, this`running
      ensures isMultiplayerGame && Took(StartTarget(old(currentState)))
      ensures running == (old(running) || old(currentState) == Undefined)
    {
      isMultiplayerGame := true;
      OnGameStarted();
    }

    method OnSquareSelected(pos: Position)
      modifies this`currentPossibleMove, this`currentState, this`announced
      ensures Took(SquareTarget(old(currentState)))
      ensures currentPossibleMove == (if old(currentState) == WaitingForInput then old(currentPossibleMove).(start := pos)
                                      else if old(currentState) == WaitingForTarget then old(currentPossibleMove).(end := pos)
                                      else old(currentPossibleMove))
    {
      if currentState == WaitingForInput {
        currentPossibleMove := currentPossibleMove.(start := pos);
        GameStateChanged(MoveInitiated);
      } else if currentState == WaitingForTarget {
        currentPossibleMove := currentPossibleMove.(end := pos);
        GameStateChanged(ValidatingMove);
      }
    }

    method OnPawnPromotionChosenAsWritten(promotion: PieceType)
      modifies this`currentPossibleMove, this`awaitingPromotion, this`currentState, this`announced
      ensures Took(PromotionTargetAsWritten(old(currentState)))
      ensures old(currentState) == GameState.PawnPromotion ==> currentPossibleMove == old(currentPossibleMove).(promotionPiece := promotion) && !awaitingPromotion
      ensures old(currentState) != GameState.PawnPromotion ==> currentPossibleMove == old(currentPossibleMove) && awaitingPromotion == old(awaitingPromotion)
    {
      if currentState == GameState.PawnPromotion {
        currentPossibleMove := currentPossibleMove.(promotionPiece := promotion);
        awaitingPromotion := false;
      }
      GameStateChanged(ExecutingMove);
    }

    method OnPawnPromotionChosen(promotion: PieceType)
      modifies this`currentPossibleMove, this`awaitingPromotion, this`currentState, this`announced
      ensures Took(PromotionTarget(old(currentState)))
      ensures old(currentState) == GameState.PawnPromotion ==> currentPossibleMove == old(currentPossibleMove).(promotionPiece := promotion) && !awaitingPromotion
      ensures old(currentState) != GameState.PawnPromotion ==> currentPossibleMove == old(currentPossibleMove) && awaitingPromotion == old(awaitingPromotion)
    {
      if currentState == GameState.PawnPromotion {
        currentPossibleMove := currentPossibleMove.(promotionPiece := promotion);
        awaitingPromotion := false;
        GameStateChanged(ExecutingMove);
      }
    }

    /**
     * `switchToNextState`; a going game also clears the per-turn flags after
     * execution (the turn switch itself is the game manager's).
     */
    method SwitchToNextState(isPawnPromotion: bool, localTurn: bool, endgame: EndGameState)
      modifies this`currentState, this`announced, this`currentPossibleMove, this`waitingForTargetEnd,
               this`endgameState, this`movesCalculated, this`waitingForTargetStart
      ensures Took(SwitchTarget(old(currentState), initialized, isMultiplayerGame, isValidMove, isPawnPromotion, localTurn, endgame))
      ensures currentPossibleMove == if SwitchResetsMove(old(currentState), isValidMove, endgame)
                                     then ResetMove(old(currentPossibleMove)) else old(currentPossibleMove)
      ensures waitingForTargetEnd == (old(waitingForTargetEnd) && !SwitchResetsMove(old(currentState), isValidMove, endgame))
      ensures old(currentState) == ExecutingMove ==> endgameState == endgame
      ensures old(currentState) != ExecutingMove ==> endgameState == old(endgameState)
      ensures old(currentState) == ExecutingMove && endgame == OnGoing ==> !movesCalculated && !waitingForTargetStart
      ensures !(old(currentState) == ExecutingMove && endgame == OnGoing) ==>
                movesCalculated == old(movesCalculated) && waitingForTargetStart == old(waitingForTargetStart)
    {
      if currentState == ValidatingMove {
        SwitchFromValidating(isPawnPromotion);
      } else if currentState == ExecutingMove {
        SwitchFromExecuting(localTurn, endgame);
      } else {
        SwitchPlain(localTurn);
      }
    }

    /** The switch from the states that only change state. */
    method SwitchPlain(localTurn: bool)
      requires currentState != ValidatingMove && currentState != ExecutingMove
      modifies this`currentState, this`announced
      ensures Took(SwitchTarget(old(currentState), initialized, isMultiplayerGame, false, false, localTurn, OnGoing))
    {
      match currentState {
        case Undefined =>
          GameStateChanged(Init);
        case Init =>
          if initialized {
            GameStateChanged(InitSucceeded);
          }
        case InitSucceeded =>
          if isMultiplayerGame && !localTurn {
            GameStateChanged(WaitingForRemoteMove);
          } else {
            GameStateChanged(WaitingForInput);
          }
        case MoveInitiated =>
          GameStateChanged(WaitingForTarget);
        case _ =>
      }
    }

    /** The switch after validation. */
    method SwitchFromValidating(isPawnPromotion: bool)
      requires currentState == ValidatingMove
      modifies this`currentState, this`announced, this`currentPossibleMove, this`waitingForTargetEnd
      ensures Took(SwitchTarget(ValidatingMove, initialized, isMultiplayerGame, isValidMove, isPawnPromotion, false, OnGoing))
      ensures currentPossibleMove == if isValidMove then old(currentPossibleMove) else ResetMove(old(currentPossibleMove))
      ensures waitingForTargetEnd == (old(waitingForTargetEnd) && isValidMove)
    {
      if isValidMove {
        if isPawnPromotion {
          GameStateChanged(GameState.PawnPromotion);
        } else {
          GameStateChanged(ExecutingMove);
        }
      } else {
        ResetCurrentPossibleMove();
        waitingForTargetEnd := false;
        GameStateChanged(WaitingForInput);
      }
    }

    /** The switch after execution: the end-game check, and for a going game the per-turn reset. */
    method SwitchFromExecuting(localTurn: bool, endgame: EndGameState)
      requires currentState == ExecutingMove
      modifies this`currentState, this`announced, this`currentPossibleMove, this`waitingForTargetEnd,
               this`endgameState, this`movesCalculated, this`waitingForTargetStart
      ensures Took(SwitchTarget(ExecutingMove, initialized, isMultiplayerGame, isValidMove, false, localTurn, endgame))
      ensures endgameState == endgame
      ensures endgame == OnGoing ==> currentPossibleMove == ResetMove(old(currentPossibleMove))
                                     && !movesCalculated && !waitingForTargetStart && !waitingForTargetEnd
      ensures endgame != OnGoing ==> currentPossibleMove == old(currentPossibleMove) && movesCalculated == old(movesCalculated)
                                     && waitingForTargetStart == old(waitingForTargetStart) && waitingForTargetEnd == old(waitingForTargetEnd)
    {
      endgameState := endgame;
      if endgameState == OnGoing {
        ResetCurrentPossibleMove();
        movesCalculated := false;
        waitingForTargetStart := false;
        waitingForTargetEnd := false;
        if isMultiplayerGame && !localTurn {
          GameStateChanged(WaitingForRemoteMove);
        } else {
          GameStateChanged(WaitingForInput);
        }
      } else {
        GameStateChanged(GameOver);
      }
    }

    method OnRemoteMoveReceived(remoteMove: PossibleMove, isPawnPromotion: bool)
      modifies this`currentPossibleMove, this`receivedMoveFromRemote, this`hasPendingStateChange, this`pendingState
      ensures old(currentState) == WaitingForRemoteMove ==> currentPossibleMove == remoteMove && receivedMoveFromRemote
      ensures old(currentState) != WaitingForRemoteMove ==>
                currentPossibleMove == old(currentPossibleMove) && receivedMoveFromRemote == old(receivedMoveFromRemote)
      ensures Pending() == if RemoteQueues(old(currentState), isPawnPromotion, remoteMove) then Some(ExecutingMove) else old(Pending())
    {
      if currentState == WaitingForRemoteMove {
        currentPossibleMove := remoteMove;
        receivedMoveFromRemote := true;
        if isPawnPromotion && currentPossibleMove.promotionPiece == DefaultType {
          return;
        }
        hasPendingStateChange := true;
        pendingState := ExecutingMove;
      }
    }

    /** `reactToUndoMove`: back to waiting for input (the board's undo is the game manager's). */
    method ReactToUndoMove()
      modifies this`waitingForTargetStart, this`currentState, this`announced
      ensures Took(Some(WaitingForInput)) && !waitingForTargetStart
    {
      waitingForTargetStart := false;
      GameStateChanged(WaitingForInput);
    }

    /** `resetGame`: target flags cleared, move reset, and the state set to Undefined without an announcement. */
    method ResetGame()
      modifies this`waitingForTargetStart, this`waitingForTargetEnd, this`currentPossibleMove, this`currentState, this`initialized
      ensures currentState == Undefined && !initialized && !waitingForTargetStart && !waitingForTargetEnd
      ensures currentPossibleMove == ResetMove(old(currentPossibleMove))
    {
      waitingForTargetStart := false;
      waitingForTargetEnd := false;
      ResetCurrentPossibleMove();
      currentState := Undefined;
      initialized := false;
    }

    /** `handleWaitingForInputState`: the move is reset and the game manager's move calculation recorded. */
    method HandleWaitingForInputState(calculated: bool) returns (result: bool)
      modifies this`currentPossibleMove, this`movesCalculated
      ensures result == calculated && movesCalculated == calculated
      ensures currentPossibleMove == ResetMove(old(currentPossibleMove))
    {
      ResetCurrentPossibleMove();
      movesCalculated := calculated;
      return movesCalculated;
    }

    /** The current state's work in a pass of the loop. */
    method HandleState(a: Answers)
      modifies this`initialized, this`waitingForTargetStart, this`currentPossibleMove, this`movesCalculated,
               this`waitingForTargetEnd, this`isValidMove, this`receivedMoveFromRemote, this`awaitingPromotion
      ensures initialized == InitAfterWork(currentState, old(initialized), a.initResult)
      ensures isValidMove == ValidAfterWork(currentState, old(isValidMove), a.validMove)
      ensures currentState == WaitingForInput && !old(waitingForTargetStart) ==>
                currentPossibleMove == ResetMove(old(currentPossibleMove)) && waitingForTargetStart == a.movesCalculated
      ensures !(currentState == WaitingForInput && !old(waitingForTargetStart)) ==>
                currentPossibleMove == old(currentPossibleMove) && waitingForTargetStart == old(waitingForTargetStart)
      ensures waitingForTargetEnd == (old(waitingForTargetEnd) || currentState == WaitingForTarget)
      ensures currentState == ExecutingMove ==> !receivedMoveFromRemote
      ensures currentState == GameState.PawnPromotion ==> awaitingPromotion
    {
      match currentState {
        case Init =>
          if !initialized {
            initialized := a.initResult;
          }
        case WaitingForInput =>
          if !waitingForTargetStart {
            var calculated := HandleWaitingForInputState(a.movesCalculated);
            waitingForTargetStart := calculated;
          }
        case WaitingForTarget =>
          if !waitingForTargetEnd {
            waitingForTargetEnd := true;
          }
        case ValidatingMove =>
          isValidMove := a.validMove;
        case ExecutingMove =>
          receivedMoveFromRemote := false;
        case PawnPromotion =>
          awaitingPromotion := true;
        case _ =>
      }
    }

    /** The start of a pass of `run`: a queued state change is announced. */
    method AnnouncePending()
      modifies this`hasPendingStateChange, this`currentState, this`announced
      ensures Took(old(Pending())) && Pending() == None
    {
      if hasPendingStateChange {
        var s := pendingState;
        hasPendingStateChange := false;
        GameStateChanged(s);
      }
    }

    /** The rest of a pass of `run`: the current state's work, then the switch for the states that switch. */
    method RunState(a: Answers)
      modifies this`currentState, this`announced, this`initialized, this`waitingForTargetStart, this`currentPossibleMove,
               this`movesCalculated, this`waitingForTargetEnd, this`isValidMove, this`receivedMoveFromRemote,
               this`awaitingPromotion, this`endgameState
      ensures Took(StepTarget(old(currentState), old(initialized), isMultiplayerGame, old(isValidMove), a))
    {
      HandleState(a);
      if SwitchesAfterWork(currentState) {
        SwitchToNextState(a.isPawnPromotion, a.localTurn, a.endgame);
      }
    }

    /** One pass of `run`, after the wake-up. */
    method ProcessEvent(a: Answers)
      modifies this`hasPendingStateChange, this`currentState, this`announced, this`initialized,
               this`waitingForTargetStart, this`currentPossibleMove, this`movesCalculated, this`waitingForTargetEnd,
               this`isValidMove, this`receivedMoveFromRemote, this`awaitingPromotion, this`endgameState
      ensures announced == old(announced) + PassAnnouncements(old(currentState), old(Pending()), old(initialized),
                                                              isMultiplayerGame, old(isValidMove), a)
      ensures currentState == PassState(old(currentState), old(Pending()), old(initialized), isMultiplayerGame, old(isValidMove), a)
      ensures Pending() == None
    {
      AnnouncePending();
      RunState(a);
    }
  }
}
