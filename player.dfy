// A human or CPU player of the logic layer: its colour, the pieces it has
// captured (a stack, most recent last), the score computed from them, and
// the observers it notifies of each change.

module PlayerStats {
  import opened ChessTypes

  const PAWN_VALUE: int := 1
  const KNIGHT_VALUE: int := 3
  const BISHOP_VALUE: int := 3
  const ROOK_VALUE: int := 5
  const QUEEN_VALUE: int := 9
  /** The king is never captured, so it is worth nothing. */
  const KING_VALUE: int := 0

  /** `getPieceValue`: the score a captured piece is worth. */
  function PieceValue(piece: PieceType): int
  {
    match piece
    case Pawn => PAWN_VALUE
    case Knight => KNIGHT_VALUE
    case Bishop => BISHOP_VALUE
    case Rook => ROOK_VALUE
    case Queen => QUEEN_VALUE
    case King => KING_VALUE
    case DefaultType => 0
  }

  /** Values run pawn < knight = bishop < rook < queen, all within 0..9; only the king and "no piece" are worth 0. */
  lemma PieceValueOrder(piece: PieceType)
    ensures 0 <= PieceValue(piece) <= QUEEN_VALUE
    ensures PieceValue(piece) == 0 <==> piece == King || piece == DefaultType
    ensures PieceValue(Pawn) < PieceValue(Knight) == PieceValue(Bishop) < PieceValue(Rook) < PieceValue(Queen)
  {
  }

  /** The score of a list of captured pieces: the sum of their values. */
  function CaptureScore(pieces: seq<PieceType>): int
  {
    if pieces == [] then 0 else CaptureScore(pieces[..|pieces| - 1]) + PieceValue(pieces[|pieces| - 1])
  }

  /** The score lies between 0 and nine points per captured piece and grows by the value of each new capture. */
  lemma {:induction false} CaptureScoreBounds(pieces: seq<PieceType>, piece: PieceType)
    ensures 0 <= CaptureScore(pieces) <= QUEEN_VALUE * |pieces|
    ensures CaptureScore(pieces + [piece]) == CaptureScore(pieces) + PieceValue(piece)
  {
    assert (pieces + [piece])[..|pieces|] == pieces;
    if pieces != [] {
      CaptureScoreBounds(pieces[..|pieces| - 1], piece);
      PieceValueOrder(pieces[|pieces| - 1]);
    }
  }

  /** Captures worth the same score, whatever their order: the sum does not depend on the order of the pieces. */
  lemma {:induction false} CaptureScoreOrderFree(a: seq<PieceType>, b: seq<PieceType>)
    requires multiset(a) == multiset(b)
    ensures CaptureScore(a) == CaptureScore(b)
    decreases |a|
  {
    if a != [] {
      var last := a[|a| - 1];
      var init := a[..|a| - 1];
      assert a == init + [last];
      assert multiset(a) == multiset(init) + multiset{last};
      assert last in multiset(b);
      var j :| 0 <= j < |b| && b[j] == last;
      var rest := b[..j] + b[j + 1..];
      assert b == b[..j] + [last] + b[j + 1..];
      assert multiset(b) == multiset(b[..j]) + multiset{last} + multiset(b[j + 1..]);
      assert multiset(rest) == multiset(b[..j]) + multiset(b[j + 1..]);
      assert multiset(init) == multiset(a) - multiset{last};
      assert multiset(rest) == multiset(b) - multiset{last};
      CaptureScoreOrderFree(a[..|a| - 1], rest);
      CaptureScoreMoveToEnd(b[..j], last, b[j + 1..]);
      assert rest + [last] == b[..j] + b[j + 1..] + [last];
    }
  }

  /** Moving one piece to the end of the list keeps the score. */
  lemma {:induction false} CaptureScoreMoveToEnd(front: seq<PieceType>, piece: PieceType, back: seq<PieceType>)
    ensures CaptureScore(front + [piece] + back) == CaptureScore(front + back + [piece])
    decreases |back|
  {
    if back == [] {
      assert front + [piece] + back == front + back + [piece];
    } else {
      var init := back[..|back| - 1];
      var last := back[|back| - 1];
      assert front + [piece] + back == (front + [piece] + init) + [last];
      assert front + back + [piece] == (front + init + [last]) + [piece];
      CaptureScoreBounds(front + [piece] + init, last);
      CaptureScoreMoveToEnd(front, piece, init);
      CaptureScoreBounds(front + init + [piece], last);
      assert (front + init + [piece]) + [last] == front + init + [piece] + [last];
      CaptureScoreSwapLast(front + init, piece, last);
    }
  }

  /** Swapping the last two pieces keeps the score. */
  lemma CaptureScoreSwapLast(s: seq<PieceType>, p: PieceType, q: PieceType)
    ensures CaptureScore(s + [p] + [q]) == CaptureScore(s + [q] + [p])
  {
    CaptureScoreBounds(s, p);
    CaptureScoreBounds(s, q);
    CaptureScoreBounds(s + [p], q);
    CaptureScoreBounds(s + [q], p);
  }

  /** The score a player holds, tagged with the player's colour. */
  datatype Score = Score(player: PlayerColor, value: int)

  /** The calls a player makes on its observers. */
  datatype Notification =
    | ScoreUpdated(score: Score)
    | CapturedPieceAdded(player: PlayerColor, piece: PieceType)
    | LastCapturedPieceRemoved(player: PlayerColor, piece: PieceType)

  /** An observer is an identifier; NO_OBSERVER stands for a null pointer in the list. */
  type ObserverId = nat
  const NO_OBSERVER: ObserverId := 0

  /** One call made on one observer. */
  datatype Delivery = Delivery(observer: ObserverId, event: Notification)

  /** The calls a notification loop makes: one per non-null observer, in list order. */
  function Broadcast(observers: seq<ObserverId>, event: Notification): seq<Delivery>
  {
    if observers == [] then []
    else
      var rest := Broadcast(observers[..|observers| - 1], event);
      if observers[|observers| - 1] == NO_OBSERVER then rest
      else rest + [Delivery(observers[|observers| - 1], event)]
  }

  /** The calls one observer received, in order. */
  function ReceivedBy(log: seq<Delivery>, o: ObserverId): seq<Notification>
  {
    if log == [] then []
    else
      var rest := ReceivedBy(log[..|log| - 1], o);
      if log[|log| - 1].observer == o then rest + [log[|log| - 1].event] else rest
  }

  /** How often `o` is attached. */
  function Occurrences(observers: seq<ObserverId>, o: ObserverId): nat
  {
    if observers == [] then 0
    else Occurrences(observers[..|observers| - 1], o) + (if observers[|observers| - 1] == o then 1 else 0)
  }

  function Repeat(event: Notification, n: nat): (r: seq<Notification>)
    ensures |r| == n && forall i :: 0 <= i < n ==> r[i] == event
  {
    if n == 0 then [] else Repeat(event, n - 1) + [event]
  }

  lemma {:induction false} ReceivedByAppend(a: seq<Delivery>, b: seq<Delivery>, o: ObserverId)
    ensures ReceivedBy(a + b, o) == ReceivedBy(a, o) + ReceivedBy(b, o)
    decreases |b|
  {
    if b == [] {
      assert a + b == a;
    } else {
      assert (a + b)[..|a + b| - 1] == a + b[..|b| - 1];
      ReceivedByAppend(a, b[..|b| - 1], o);
    }
  }

  /**
   * A broadcast reaches every attached (non-null) observer once per
   * attachment, with the same event, and no one else.
   */
  lemma {:induction false} BroadcastReaches(observers: seq<ObserverId>, event: Notification, o: ObserverId)
    requires o != NO_OBSERVER
    ensures ReceivedBy(Broadcast(observers, event), o) == Repeat(event, Occurrences(observers, o))
    ensures ReceivedBy(Broadcast(observers, event), NO_OBSERVER) == []
  {
    if observers != [] {
      var init := observers[..|observers| - 1];
      var last := observers[|observers| - 1];
      BroadcastReaches(init, event, o);
      if last != NO_OBSERVER {
        ReceivedByAppend(Broadcast(init, event), [Delivery(last, event)], o);
        ReceivedByAppend(Broadcast(init, event), [Delivery(last, event)], NO_OBSERVER);
        assert [Delivery(last, event)][..0] == [];
      }
    }
  }

  /**
   * The captured pieces an observer keeps in step with the calls it
   * receives: an add pushes the piece, a removal drops the last one.
   */
  function Mirror(events: seq<Notification>): seq<PieceType>
  {
    if events == [] then []
    else
      var kept := Mirror(events[..|events| - 1]);
      match events[|events| - 1]
      case CapturedPieceAdded(_, piece) => kept + [piece]
      case LastCapturedPieceRemoved(_, _) => if kept == [] then [] else kept[..|kept| - 1]
      case ScoreUpdated(_) => kept
  }

  /** The call `addCapturedPiece` makes on its observers, as written: the removal call. */
  function AddEventAsWritten(player: PlayerColor, piece: PieceType): Notification
  {
    LastCapturedPieceRemoved(player, piece)
  }

  /** The call the observer interface provides for an added capture. */
  function AddEvent(player: PlayerColor, piece: PieceType): Notification
  {
    CapturedPieceAdded(player, piece)
  }

  /**
   * As written, an observer that mirrors the captures loses a piece on every
   * capture instead of gaining one: its list never grows, and after a first
   * capture it shows none.
   */
  lemma AddAsWrittenDesynchronizes(events: seq<Notification>, player: PlayerColor, piece: PieceType)
    ensures |Mirror(events + [AddEventAsWritten(player, piece)])| <= |Mirror(events)|
    ensures Mirror(events + [AddEventAsWritten(player, piece)]) != Mirror(events) + [piece]
    ensures Mirror([AddEventAsWritten(player, piece)]) == []
  {
    assert (events + [AddEventAsWritten(player, piece)])[..|events|] == events;
  }

  /**
   * With the add call, the mirror follows the stack exactly: an add pushes
   * the piece, a removal pops it again, and score updates change nothing.
   */
  lemma MirrorFollowsStack(events: seq<Notification>, player: PlayerColor, piece: PieceType, s: Score)
    ensures Mirror(events + [AddEvent(player, piece)]) == Mirror(events) + [piece]
    ensures Mirror(events + [AddEvent(player, piece)] + [LastCapturedPieceRemoved(player, piece)]) == Mirror(events)
    ensures Mirror(events + [ScoreUpdated(s)]) == Mirror(events)
  {
    var e1 := events + [AddEvent(player, piece)];
    assert e1[..|events|] == events;
    assert (e1 + [LastCapturedPieceRemoved(player, piece)])[..|e1|] == e1;
    assert (events + [ScoreUpdated(s)])[..|events|] == events;
    assert (Mirror(events) + [piece])[..|Mirror(events)|] == Mirror(events);
  }

  class Player {
    var playerColor: PlayerColor
    var score: Score
    var capturedPieces: seq<PieceType>
    var observers: seq<ObserverId>
    /** Every observer call made so far, in order. */
    var deliveries: seq<Delivery>

    constructor(color: PlayerColor)
      ensures playerColor == color && score == Score(color, 0)
      ensures capturedPieces == [] && observers == [] && deliveries == []
    {
      playerColor := color;
      score := Score(color, 0);
      capturedPieces := [];
      observers := [];
      deliveries := [];
    }

    /** `setScore`: the score becomes `value`, tagged with the player's colour; observers are not told. */
    method SetScore(value: int)
      modifies this
      ensures score == Score(playerColor, value)
      ensures playerColor == old(playerColor) && capturedPieces == old(capturedPieces)
      ensures observers == old(observers) && deliveries == old(deliveries)
    {
      var newScore := Score(playerColor, value);
      if score != newScore {
        score := newScore;
      }
    }

    method SetPlayerColor(value: PlayerColor)
      modifies this
      ensures playerColor == value
      ensures score == old(score) && capturedPieces == old(capturedPieces)
      ensures observers == old(observers) && deliveries == old(deliveries)
    {
      if playerColor != value {
        playerColor := value;
      }
    }

    method AttachObserver(o: ObserverId)
      modifies this
      ensures observers == old(observers) + [o]
      ensures playerColor == old(playerColor) && score == old(score)
      ensures capturedPieces == old(capturedPieces) && deliveries == old(deliveries)
    {
      observers := observers + [o];
    }

    /** `detachObserver`: every attachment of `o` goes, the others keep their order. */
    method DetachObserver(o: ObserverId)
      modifies this
      ensures observers == Without(old(observers), o)
      ensures playerColor == old(playerColor) && score == old(score)
      ensures capturedPieces == old(capturedPieces) && deliveries == old(deliveries)
    {
      var kept: seq<ObserverId> := [];
      var i := 0;
      while i < |observers|
        invariant 0 <= i <= |observers|
        invariant kept == Without(observers[..i], o)
      {
        assert observers[..i + 1][..i] == observers[..i];
        if observers[i] != o {
          kept := kept + [observers[i]];
        }
        i := i + 1;
      }
      assert observers[..|observers|] == observers;
      observers := kept;
    }

    /** The loop over the observers: each non-null one receives `event`. */
    method Notify(event: Notification)
      modifies this
      ensures deliveries == old(deliveries) + Broadcast(observers, event)
      ensures playerColor == old(playerColor) && score == old(score)
      ensures capturedPieces == old(capturedPieces) && observers == old(observers)
    {
      var i := 0;
      while i < |observers|
        invariant 0 <= i <= |observers|
        invariant deliveries == old(deliveries) + Broadcast(observers[..i], event)
        invariant playerColor == old(playerColor) && score == old(score)
        invariant capturedPieces == old(capturedPieces) && observers == old(observers)
      {
        assert observers[..i + 1][..i] == observers[..i];
        if observers[i] != NO_OBSERVER {
          deliveries := deliveries + [Delivery(observers[i], event)];
        }
        i := i + 1;
      }
      assert observers[..|observers|] == observers;
    }

    /** `addCapturedPiece` as written: pushes the piece and sends the removal call. */
    method AddCapturedPieceAsWritten(piece: PieceType)
      modifies this
      ensures capturedPieces == old(capturedPieces) + [piece]
      ensures deliveries == old(deliveries) + Broadcast(observers, AddEventAsWritten(playerColor, piece))
      ensures playerColor == old(playerColor) && score == old(score) && observers == old(observers)
    {
      capturedPieces := capturedPieces + [piece];
      Notify(AddEventAsWritten(playerColor, piece));
    }

    /** `addCapturedPiece` sending the add call; the score is left for `updateScore`. */
    method AddCapturedPiece(piece: PieceType)
      modifies this
      ensures capturedPieces == old(capturedPieces) + [piece]
      ensures deliveries == old(deliveries) + Broadcast(observers, AddEvent(playerColor, piece))
      ensures playerColor == old(playerColor) && score == old(score) && observers == old(observers)
    {
      capturedPieces := capturedPieces + [piece];
      Notify(AddEvent(playerColor, piece));
    }

    /** `updateScore`: the score becomes the sum of the captured pieces' values, and observers are told. */
    method UpdateScore()
      modifies this
      ensures score == Score(playerColor, CaptureScore(capturedPieces))
      ensures deliveries == old(deliveries) + Broadcast(observers, ScoreUpdated(score))
      ensures playerColor == old(playerColor) && capturedPieces == old(capturedPieces) && observers == old(observers)
    {
      var total := 0;
      var i := 0;
      while i < |capturedPieces|
        invariant 0 <= i <= |capturedPieces|
        invariant total == CaptureScore(capturedPieces[..i])
      {
        assert capturedPieces[..i + 1][..i] == capturedPieces[..i];
        total := total + PieceValue(capturedPieces[i]);
        i := i + 1;
      }
      assert capturedPieces[..|capturedPieces|] == capturedPieces;
      SetScore(total);
      Notify(ScoreUpdated(score));
    }

    /**
     * `removeLastCapturedPiece`: with no captures nothing happens; otherwise
     * the most recent capture is popped, the score recomputed and observers
     * told of the score and then of the removed piece.
     */
    method RemoveLastCapturedPiece()
      modifies this
      ensures old(capturedPieces) == [] ==>
                capturedPieces == [] && score == old(score) && deliveries == old(deliveries)
      ensures old(capturedPieces) != [] ==>
                capturedPieces == old(capturedPieces)[..|old(capturedPieces)| - 1]
                && score == Score(playerColor, CaptureScore(capturedPieces))
                && deliveries == old(deliveries) + Broadcast(observers, ScoreUpdated(score))
                   + Broadcast(observers, LastCapturedPieceRemoved(playerColor, old(capturedPieces)[|old(capturedPieces)| - 1]))
      ensures playerColor == old(playerColor) && observers == old(observers)
    {
      if capturedPieces == [] {
        return;
      }
      var lastCapture := capturedPieces[|capturedPieces| - 1];
      capturedPieces := capturedPieces[..|capturedPieces| - 1];
      UpdateScore();
      Notify(LastCapturedPieceRemoved(playerColor, lastCapture));
    }

    /** `reset`: score 0 and no captures; the colour and the observers stay, and no one is told. */
    method Reset()
      modifies this
      ensures score == Score(playerColor, 0) && capturedPieces == []
      ensures playerColor == old(playerColor) && observers == old(observers) && deliveries == old(deliveries)
    {
      SetScore(0);
      capturedPieces := [];
    }
  }

  /** `observers` without any attachment of `o`. */
  function Without(observers: seq<ObserverId>, o: ObserverId): seq<ObserverId>
  {
    if observers == [] then []
    else
      var rest := Without(observers[..|observers| - 1], o);
      if observers[|observers| - 1] == o then rest else rest + [observers[|observers| - 1]]
  }

  /** After detaching, `o` is no longer attached and every other observer is attached as often as before. */
  lemma {:induction false} WithoutRemoves(observers: seq<ObserverId>, o: ObserverId, other: ObserverId)
    ensures Occurrences(Without(observers, o), o) == 0
    ensures other != o ==> Occurrences(Without(observers, o), other) == Occurrences(observers, other)
  {
    if observers != [] {
      var init := observers[..|observers| - 1];
      WithoutRemoves(init, o, other);
      var w := Without(init, o);
      if observers[|observers| - 1] != o {
        assert (w + [observers[|observers| - 1]])[..|w|] == w;
      }
    }
  }
}
