/**
 * The per-game move log the remote decision engine keeps: one entry per applied
 * move, append-only within a game, with flags derived from the move's notation.
 */
module GameMemory {
  import opened Text

  datatype MoveMemory = MoveMemory(
    moveNumber: int,
    fen: string,
    uci: string,
    san: string,
    reasoning: string,
    isCapture: bool,
    isCheck: bool,
    isPromotion: bool,
    isCastle: bool,
    timestamp: int)

  /**
   * The entry recorded for one move. `flags` is the rules engine's flag string
   * ('c' capture, 'e' en passant, 'p' promotion, 'k'/'q' castling, 'n'/'b' quiet
   * and double pawn push); `timestamp` stands for the clock reading.
   */
  function MakeEntry(moveNumber: int, fen: string, uci: string, san: string, reasoning: string,
                     flags: string, timestamp: int): (m: MoveMemory)
    ensures m.moveNumber == moveNumber && m.fen == fen && m.uci == uci && m.san == san
    ensures m.reasoning == reasoning && m.timestamp == timestamp
    ensures m.isCapture <==> (HasChar(flags, 'c') || HasChar(flags, 'e'))
    ensures m.isCheck <==> (HasChar(san, '+') || HasChar(san, '#'))
    ensures m.isPromotion <==> HasChar(flags, 'p')
    ensures m.isCastle <==> (flags == "k" || flags == "q")
  {
    MoveMemory(moveNumber, fen, uci, san, reasoning,
      HasChar(flags, 'c') || HasChar(flags, 'e'),
      HasChar(san, '+') || HasChar(san, '#'),
      HasChar(flags, 'p'),
      flags == "k" || flags == "q",
      timestamp)
  }

  /** A castling entry is never also a capture or a promotion: the flag string is exactly "k" or "q". */
  lemma CastleExcludesCaptureAndPromotion(moveNumber: int, fen: string, uci: string, san: string,
                                          reasoning: string, flags: string, timestamp: int)
    ensures var m := MakeEntry(moveNumber, fen, uci, san, reasoning, flags, timestamp);
      m.isCastle ==> !m.isCapture && !m.isPromotion
  {
    var m := MakeEntry(moveNumber, fen, uci, san, reasoning, flags, timestamp);
    if m.isCastle {
      assert flags == ['k'] || flags == ['q'];
    }
  }

  predicate IsKeyMoment(m: MoveMemory)
  {
    m.isCapture || m.isCheck || m.isPromotion || m.isCastle
  }

  class GameMemory {
    var moves: seq<MoveMemory>

    constructor ()
      ensures moves == []
    {
      moves := [];
    }

    /** Appends exactly one entry; earlier entries are untouched. */
    method RecordMove(moveNumber: int, fen: string, uci: string, san: string, reasoning: string,
                      flags: string, timestamp: int)
      modifies this
      ensures moves == old(moves) + [MakeEntry(moveNumber, fen, uci, san, reasoning, flags, timestamp)]
      ensures |moves| == |old(moves)| + 1 && moves[..|old(moves)|] == old(moves)
    {
      moves := moves + [MakeEntry(moveNumber, fen, uci, san, reasoning, flags, timestamp)];
    }

    /** A copy of the log. */
    method GetMoves() returns (r: seq<MoveMemory>)
      ensures r == moves
    {
      r := moves;
    }

    /**
     * `moves.slice(-count)`: the last `count` entries when 0 < count <= length,
     * and, because `-0` is `0`, the whole log for count == 0 as for count >= length.
     */
    method GetLastMoves(count: int) returns (r: seq<MoveMemory>)
      ensures 0 < count <= |moves| ==> r == moves[|moves| - count..]
      ensures (count == 0 || count >= |moves|) ==> r == moves
      ensures count < 0 ==> r == moves[if -count <= |moves| then -count else |moves|..]
    {
      r := LastN(moves, count);
    }

    /** The entries with any of the four flags, in log order. */
    method GetKeyMoments() returns (r: seq<MoveMemory>)
      ensures r == Filter(moves, IsKeyMoment)
      ensures forall k :: 0 <= k < |r| ==> IsKeyMoment(r[k])
      ensures forall m :: m in moves && IsKeyMoment(m) ==> m in r
    {
      r := Filter(moves, IsKeyMoment);
      forall m | m in moves && IsKeyMoment(m) ensures m in r {
        FilterKeeps(moves, IsKeyMoment, m);
      }
    }

    method GetMoveCount() returns (n: nat)
      ensures n == |moves|
    {
      n := |moves|;
    }

    method Clear()
      modifies this
      ensures moves == []
    {
      moves := [];
    }
  }

  /** Recording a move extends the key moments by that entry exactly when it is one. */
  lemma KeyMomentsAfterRecord(log: seq<MoveMemory>, entry: MoveMemory)
    ensures Filter(log + [entry], IsKeyMoment)
         == Filter(log, IsKeyMoment) + (if IsKeyMoment(entry) then [entry] else [])
  {
    assert (log + [entry])[..|log + [entry]| - 1] == log;
  }
}
