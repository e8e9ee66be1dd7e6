/**
 * Compresses the move log into a short text for the prompt: the last three
 * rationales verbatim, older moves as opening/middlegame descriptions and a list
 * of at most ten key events, hard-truncated to the token allotment.
 */
module MemorySummarizer {
  import opened Text
  import opened GameMemory
  import TokenEstimator

  function Min(a: int, b: int): int { if a <= b then a else b }

  datatype Phases = Phases(opening: seq<MoveMemory>, middlegame: seq<MoveMemory>, endgame: seq<MoveMemory>)

  /** Opening is moves 1-10, middlegame 11-30, the rest endgame; together they are the whole log. */
  function GamePhases(moves: seq<MoveMemory>): (p: Phases)
    ensures p.opening + p.middlegame + p.endgame == moves
    ensures p.opening + p.middlegame == moves[..Min(30, |moves|)]
    ensures |p.opening| == Min(10, |moves|)
    ensures |p.middlegame| == if |moves| > 10 then Min(30, |moves|) - 10 else 0
  {
    var p := Phases(Slice(moves, 0, Min(10, |moves|)), Slice(moves, 10, Min(30, |moves|)), Slice(moves, 30, |moves|));
    assert p.opening + p.middlegame == moves[..Min(30, |moves|)];
    assert moves == moves[..Min(30, |moves|)] + p.endgame;
    p
  }

  function Sans(moves: seq<MoveMemory>): (r: seq<string>)
    ensures |r| == |moves| && forall k :: 0 <= k < |r| ==> r[k] == moves[k].san
  {
    seq(|moves|, k requires 0 <= k < |moves| => moves[k].san)
  }

  predicate IsCaptureEntry(m: MoveMemory) { m.isCapture }
  predicate IsCheckEntry(m: MoveMemory) { m.isCheck }

  /** The pieces of a phase description: the moves, then the capture and check counts when positive. */
  function PhaseParts(moves: seq<MoveMemory>): (parts: seq<string>)
    ensures var captures := Count(moves, IsCaptureEntry); var checks := Count(moves, IsCheckEntry);
      && |parts| == 1 + (if captures > 0 then 1 else 0) + (if checks > 0 then 1 else 0)
      && parts[0] == Join(Sans(moves), " ")
      && (captures > 0 ==> parts[1] == NatToString(captures) + " captures")
      && (checks > 0 ==> parts[|parts| - 1] == NatToString(checks) + " checks")
  {
    var captures := Count(moves, IsCaptureEntry);
    var checks := Count(moves, IsCheckEntry);
    [Join(Sans(moves), " ")]
      + (if captures > 0 then [NatToString(captures) + " captures"] else [])
      + (if checks > 0 then [NatToString(checks) + " checks"] else [])
  }

  function DescribePhase(moves: seq<MoveMemory>): string
  {
    Join(PhaseParts(moves), ", ")
  }

  /** A phase without captures or checks is described by its moves alone. */
  lemma QuietPhaseIsJustMoves(moves: seq<MoveMemory>)
    requires Count(moves, IsCaptureEntry) == 0 && Count(moves, IsCheckEntry) == 0
    ensures DescribePhase(moves) == Join(Sans(moves), " ")
  {
  }

  function EventLine(m: MoveMemory, kind: string): string
  {
    "Move " + IntToString(m.moveNumber) + ": " + m.san + " (" + kind + ")"
  }

  /** The events one move contributes, in the order capture, check, castle. */
  function EventsOf(m: MoveMemory): (r: seq<string>)
    ensures |r| == (if m.isCapture then 1 else 0) + (if m.isCheck then 1 else 0) + (if Contains(m.san, "O-O") then 1 else 0)
    ensures m.isCapture ==> r[0] == EventLine(m, "capture")
    ensures m.isCheck ==> r[if m.isCapture then 1 else 0] == EventLine(m, "check")
    ensures Contains(m.san, "O-O") ==> r[|r| - 1] == EventLine(m, "castle")
  {
    (if m.isCapture then [EventLine(m, "capture")] else [])
    + (if m.isCheck then [EventLine(m, "check")] else [])
    + (if Contains(m.san, "O-O") then [EventLine(m, "castle")] else [])
  }

  /** All key events of a log, oldest first. */
  function AllKeyEvents(moves: seq<MoveMemory>): seq<string>
  {
    if moves == [] then [] else AllKeyEvents(moves[..|moves| - 1]) + EventsOf(moves[|moves| - 1])
  }

  /** Key events of consecutive logs concatenate. */
  lemma {:induction false} AllKeyEventsAppend(a: seq<MoveMemory>, b: seq<MoveMemory>)
    ensures AllKeyEvents(a + b) == AllKeyEvents(a) + AllKeyEvents(b)
  {
    if b == [] {
      assert a + b == a;
    } else {
      assert (a + b)[..|a + b| - 1] == a + b[..|b| - 1];
      AllKeyEventsAppend(a, b[..|b| - 1]);
    }
  }

  /** The key-event list of the summary: the most recent ten. */
  function KeyEvents(moves: seq<MoveMemory>): seq<string>
  {
    LastN(AllKeyEvents(moves), 10)
  }

  /** The event loop: push per move in the order capture, check, castle, then keep the last ten. */
  method ExtractKeyEvents(moves: seq<MoveMemory>) returns (events: seq<string>)
    ensures events == KeyEvents(moves)
    ensures |events| <= 10
    ensures |AllKeyEvents(moves)| >= 10 ==> events == AllKeyEvents(moves)[|AllKeyEvents(moves)| - 10..]
  {
    var all: seq<string> := [];
    for i := 0 to |moves|
      invariant all == AllKeyEvents(moves[..i])
    {
      var pushed := PushEvents(all, moves[i]);
      assert moves[..i + 1][..i] == moves[..i];
      all := pushed;
    }
    assert moves[..|moves|] == moves;
    LastNShape(all, 10);
    events := LastN(all, 10);
  }

  /** One pass of the event loop's body: the pushes for a single move. */
  method PushEvents(before: seq<string>, m: MoveMemory) returns (after: seq<string>)
    ensures after == before + EventsOf(m)
  {
    after := before;
    if m.isCapture {
      after := after + [EventLine(m, "capture")];
    }
    if m.isCheck {
      after := after + [EventLine(m, "check")];
    }
    if Contains(m.san, "O-O") {
      after := after + [EventLine(m, "castle")];
    }
  }

  function PhaseHeader(first: nat, last: int, name: string): string
  {
    name + " (moves " + NatToString(first) + "-" + IntToString(last) + "): "
  }

  /** The move numbers the middlegame label shows: it starts right after the opening. */
  function MiddlegameRange(p: Phases): (nat, int)
  {
    var start := |p.opening| + 1;
    (start, start + |p.middlegame| - 1)
  }

  lemma MiddlegameRangeOfLog(moves: seq<MoveMemory>)
    requires |moves| > 10
    ensures MiddlegameRange(GamePhases(moves)) == (11, Min(30, |moves|))
  {
  }

  function SummaryParts(moves: seq<MoveMemory>): seq<string>
  {
    var p := GamePhases(moves);
    var events := KeyEvents(moves);
    var range := MiddlegameRange(p);
    (if |p.opening| > 0 then [PhaseHeader(1, |p.opening|, "Opening") + DescribePhase(p.opening)] else [])
    + (if |p.middlegame| > 0 then [PhaseHeader(range.0, range.1, "Middlegame") + DescribePhase(p.middlegame)] else [])
    + (if |events| > 0 then ["Key events: " + Join(events, "; ")] else [])
  }

  /** `summarizeMoves`: empty exactly for an empty log. */
  function SummarizeMoves(moves: seq<MoveMemory>): (r: string)
    ensures r == "" <==> moves == []
  {
    if |moves| == 0 then ""
    else
      var parts := SummaryParts(moves);
      var p := GamePhases(moves);
      assert |p.opening| > 0;
      var first := PhaseHeader(1, |p.opening|, "Opening") + DescribePhase(p.opening);
      assert parts[0] == first && |first| > 0;
      JoinHeadNonEmpty(parts, ". ");
      Join(parts, ". ")
  }

  lemma {:induction false} JoinHeadNonEmpty(parts: seq<string>, sep: string)
    requires |parts| > 0 && |parts[0]| > 0
    ensures |Join(parts, sep)| >= |parts[0]| > 0
  {
  }

  predicate HasReasoning(m: MoveMemory) { m.reasoning != "" }

  function RecentLine(m: MoveMemory): string
  {
    "Move " + IntToString(m.moveNumber) + " (" + m.san + "): " + m.reasoning
  }

  /** The entries whose rationale is quoted: those of the last three moves that have one. */
  function QuotedEntries(moves: seq<MoveMemory>): seq<MoveMemory>
  {
    Filter(LastN(moves, 3), HasReasoning)
  }

  function RecentText(moves: seq<MoveMemory>): string
  {
    var quoted := QuotedEntries(moves);
    Join(seq(|quoted|, k requires 0 <= k < |quoted| => RecentLine(quoted[k])), "\n")
  }

  /** Rationales are quoted only from the last three moves, and never an empty one. */
  lemma QuotesOnlyLastThree(moves: seq<MoveMemory>)
    ensures |QuotedEntries(moves)| <= 3
    ensures forall m :: m in QuotedEntries(moves) ==> m in moves[|moves| - Min(3, |moves|)..] && m.reasoning != ""
  {
    var last := LastN(moves, 3);
    assert last == moves[|moves| - Min(3, |moves|)..];
    forall m | m in QuotedEntries(moves)
      ensures m in last && m.reasoning != ""
    {
      assert multiset(QuotedEntries(moves))[m] > 0;
      var k :| 0 <= k < |QuotedEntries(moves)| && QuotedEntries(moves)[k] == m;
      assert HasReasoning(QuotedEntries(moves)[k]);
    }
  }

  /** Older moves' summary followed by the recent analysis, or the recent analysis alone. */
  function Combined(moves: seq<MoveMemory>): string
  {
    var olderSummary := SummarizeMoves(Slice(moves, 0, -3));
    if olderSummary != "" then olderSummary + "\n\nRecent analysis:\n" + RecentText(moves) else RecentText(moves)
  }

  /**
   * `compressReasonings`: the result is a prefix of the recent analysis or of the
   * combined text, is never longer than four characters per allotted token, and is
   * the untruncated combined text whenever that fits.
   */
  function CompressReasonings(moves: seq<MoveMemory>, maxTokenBudget: int): (r: string)
    ensures maxTokenBudget >= 0 ==> |r| <= 4 * maxTokenBudget
    ensures StartsWith(RecentText(moves), r) || StartsWith(Combined(moves), r)
    ensures (TokenEstimator.Estimate(RecentText(moves)) < maxTokenBudget
             && TokenEstimator.Estimate(Combined(moves)) <= maxTokenBudget) ==> r == Combined(moves)
    ensures maxTokenBudget >= 0 && TokenEstimator.Estimate(RecentText(moves)) >= maxTokenBudget
            ==> r == RecentText(moves)[..Min(4 * maxTokenBudget, |RecentText(moves)|)]
    ensures maxTokenBudget >= 0 && TokenEstimator.Estimate(RecentText(moves)) < maxTokenBudget
            && TokenEstimator.Estimate(Combined(moves)) > maxTokenBudget
            ==> r == Combined(moves)[..Min(4 * maxTokenBudget, |Combined(moves)|)]
  {
    Compress(RecentText(moves), Combined(moves), maxTokenBudget)
  }

  /** The budget decision of `compressReasonings`, over the two candidate texts. */
  function Compress(recentText: string, combined: string, maxTokenBudget: int): (r: string)
    ensures maxTokenBudget >= 0 ==> |r| <= 4 * maxTokenBudget
    ensures StartsWith(recentText, r) || StartsWith(combined, r)
    ensures (TokenEstimator.Estimate(recentText) < maxTokenBudget
             && TokenEstimator.Estimate(combined) <= maxTokenBudget) ==> r == combined
    ensures maxTokenBudget >= 0 && TokenEstimator.Estimate(recentText) >= maxTokenBudget
            ==> r == recentText[..Min(4 * maxTokenBudget, |recentText|)]
    ensures maxTokenBudget >= 0 && TokenEstimator.Estimate(recentText) < maxTokenBudget
            && TokenEstimator.Estimate(combined) > maxTokenBudget
            ==> r == combined[..Min(4 * maxTokenBudget, |combined|)]
  {
    if TokenEstimator.Estimate(recentText) >= maxTokenBudget then
      TruncatedPrefix(recentText, maxTokenBudget);
      Slice(recentText, 0, maxTokenBudget * 4)
    else if TokenEstimator.Estimate(combined) > maxTokenBudget then
      TruncatedPrefix(combined, maxTokenBudget);
      Slice(combined, 0, maxTokenBudget * 4)
    else
      assert StartsWith(combined, combined) by { assert combined[..|combined|] == combined; }
      combined
  }

  /** Cutting a text to four characters per token keeps a prefix of it within that length. */
  lemma TruncatedPrefix(s: string, budget: int)
    ensures StartsWith(s, Slice(s, 0, budget * 4))
    ensures budget >= 0 ==> |Slice(s, 0, budget * 4)| <= 4 * budget
    ensures budget >= 0 ==> Slice(s, 0, budget * 4) == s[..Min(4 * budget, |s|)]
  {
  }
}
