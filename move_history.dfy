// The history of executed moves kept by the move executor, and the squares
// the king and rook use when castling.

module MoveHistory {
  import opened ChessTypes

  datatype Option<T> = None | Some(value: T)

  /** The calls made on the history's observers. */
  datatype HistoryEvent = AddedToHistory(move: Move) | HistoryCleared

  /**
   * The squares of a castling move whose king starts on `move.start`: the
   * king's target, the rook's start and the rook's target. Kingside is checked
   * first; a move of neither kind leaves all three at (0, 0).
   */
  datatype CastlingSquares = CastlingSquares(kingEnd: Position, rookStart: Position, rookEnd: Position)

  /** `executeCastlingMove`'s geometry. */
  function CastlingGeometry(move: PossibleMove): CastlingSquares
  {
    var k := move.start;
    if CastlingKingside in move.mtype then
      CastlingSquares(Position(k.x + 2, k.y), Position(k.x + 3, k.y), Position(k.x + 1, k.y))
    else if CastlingQueenside in move.mtype then
      CastlingSquares(Position(k.x - 2, k.y), Position(k.x - 4, k.y), Position(k.x - 1, k.y))
    else
      CastlingSquares(Position(0, 0), Position(0, 0), Position(0, 0))
  }

  /**
   * Both castlings keep the king and rook on the king's row, move the king two
   * files towards the rook, and put the rook on the square the king crossed;
   * from the e-file the rooks come from the corners a and h and land on d and f.
   */
  lemma CastlingGeometryRules(move: PossibleMove)
    ensures var c := CastlingGeometry(move);
            IsCastling(move.mtype) ==>
              c.kingEnd.y == c.rookStart.y == c.rookEnd.y == move.start.y
              && Abs(c.kingEnd.x - move.start.x) == 2
              && c.rookEnd.x == (move.start.x + c.kingEnd.x) / 2
              && (c.rookStart.x - move.start.x) * (c.kingEnd.x - move.start.x) > 0
    ensures var c := CastlingGeometry(move);
            IsCastling(move.mtype) && move.start.x == 4 ==>
              (CastlingKingside in move.mtype ==> c.kingEnd.x == 6 && c.rookStart.x == 7 && c.rookEnd.x == 5)
              && (CastlingKingside !in move.mtype ==> c.kingEnd.x == 2 && c.rookStart.x == 0 && c.rookEnd.x == 3)
    ensures !IsCastling(move.mtype) ==>
              CastlingGeometry(move) == CastlingSquares(Position(0, 0), Position(0, 0), Position(0, 0))
  {
  }

  /**
   * The executor's history: an ordered set of moves compared by number alone,
   * held as the map from a move's number to the move.
   */
  class MoveExecution {
    var history: map<int, Move>
    /** The observer calls made so far (each is made on every live observer). */
    var events: seq<HistoryEvent>

    /** The numbers in the history are exactly 1 .. its size, and each move carries its own number. */
    ghost predicate Valid()
      reads this
    {
      (forall k :: k in history <==> 1 <= k <= |history|)
      && (forall k :: k in history ==> history[k].number == k)
    }

    constructor()
      ensures Valid() && history == map[] && events == []
    {
      history := map[];
      events := [];
    }

    /**
     * `getLastMove`: no move for an empty history, otherwise the move with the
     * highest number.
     */
    function GetLastMove(): (r: Option<Move>)
      requires Valid()
      reads this
      ensures r.None? <==> history == map[]
      ensures r.Some? ==> r.value.number in history && history[r.value.number] == r.value
                          && forall k :: k in history ==> k <= r.value.number
    {
      if |history| == 0 then None else Some(history[|history|])
    }

    /**
     * `addMoveToHistory`: the move is numbered one past the history's size and
     * inserted (a set insert, which would leave an existing number alone), then
     * observers are told.
     */
    method AddMoveToHistory(move: Move) returns (numbered: Move)
      requires Valid()
      modifies this
      ensures numbered == move.(number := |old(history)| + 1)
      ensures Valid() && history == old(history)[numbered.number := numbered]
      ensures |history| == |old(history)| + 1 && GetLastMove() == Some(numbered)
      ensures events == old(events) + [AddedToHistory(numbered)]
    {
      numbered := move.(number := |history| + 1);
      if numbered.number !in history {
        MapGrows(history, numbered.number, numbered);
        history := history[numbered.number := numbered];
      } else {
        assert false;
      }
      events := events + [AddedToHistory(numbered)];
    }

    /** `clearMoveHistory`: the history is empty and observers are told. */
    method ClearMoveHistory()
      modifies this
      ensures Valid() && history == map[] && GetLastMove() == None
      ensures events == old(events) + [HistoryCleared]
    {
      history := map[];
      events := events + [HistoryCleared];
    }

    /** `removeLastMove`: nothing happens on an empty history, otherwise the highest-numbered move goes. */
    method RemoveLastMove()
      requires Valid()
      modifies this
      ensures Valid() && events == old(events)
      ensures old(history) == map[] ==> history == map[]
      ensures old(history) != map[] ==> history == old(history) - {|old(history)|} && |history| == |old(history)| - 1
    {
      if |history| != 0 {
        var last := |history|;
        MapShrinks(history, last);
        history := history - {last};
      }
    }
  }

  lemma MapGrows(m: map<int, Move>, k: int, v: Move)
    requires k !in m
    ensures |m[k := v]| == |m| + 1
  {
    assert m[k := v].Keys == m.Keys + {k};
  }

  lemma MapShrinks(m: map<int, Move>, k: int)
    requires k in m
    ensures |m - {k}| == |m| - 1
  {
    assert (m - {k}).Keys == m.Keys - {k};
  }

  /** Adding a move and removing the last one gives back the history before, on any history. */
  lemma AddThenRemove(history: map<int, Move>, move: Move)
    requires forall k :: k in history <==> 1 <= k <= |history|
    ensures var n := |history| + 1;
            n !in history && history[n := move.(number := n)] - {n} == history
  {
    var n := |history| + 1;
    assert n !in history;
  }
}
