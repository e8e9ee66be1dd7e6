/**
 * The move-quality evaluator: every legal move of the position before the
 * player's move is scored by a heuristic, and the player's move is classified by
 * how far it falls behind the best one; two checks on the position after the
 * move (a hanging piece, an abandoned piece) can then only worsen the verdict.
 *
 * Scores are kept in tenths of the source's points, so that the bonuses 0.5 and
 * 1.5 and the penalty 0.8 x value are whole numbers; a mate scores 1000 (100 points).
 * The rules engine is a parameter: loading a FEN, the legal moves, check, mate and
 * the position after a move.
 */
module InsightEngine {
  import opened Text
  import opened BoardGeometry

  datatype Quality = Brilliant | Good | Inaccuracy | MissedWin | Blunder

  /** A legal move as the rules engine lists it in verbose form. */
  datatype Move = Move(color: Color, from: Square, to: Square, piece: Kind, captured: Option<Kind>, flags: string, san: string)

  /** What the evaluator reads of a position. */
  datatype Position = Position(board: Board, turn: Color, moves: seq<Move>, inCheck: bool, inCheckmate: bool)

  /** The rules engine: loading a FEN (None when it throws) and the position after a legal move. */
  datatype Rules = Rules(load: string -> Option<Position>, play: (Position, Move) -> Position)

  datatype MoveInsight = MoveInsight(playerMove: string, betterMove: Option<string>, explanation: string, quality: Quality)

  const CenterSquares: seq<string> := ["d4", "d5", "e4", "e5"]
  const ExtendedCenter: seq<string> := ["c3", "c4", "c5", "c6", "d3", "d6", "e3", "e6", "f3", "f4", "f5", "f6"]

  const MateScore: int := 1000

  /** The em dash of the explanations. */
  const Dash: string := "\U{2014}"

  // ---------------------------------------------------------------------------
  // Scoring a move
  // ---------------------------------------------------------------------------

  /** `isSquareDefended` on the position after a move: some reply captures on the square. */
  predicate Defended(moves: seq<Move>, s: Square)
  {
    exists k :: 0 <= k < |moves| && moves[k].to == s && moves[k].captured.Some?
  }

  /** `isSquareAttacked`: some move of the side to move lands on the square. */
  predicate Attacked(moves: seq<Move>, s: Square)
  {
    exists k :: 0 <= k < |moves| && moves[k].to == s
  }

  /** The capture term: a good trade, a defended bad trade, or an undefended capture. */
  function CaptureTerm(m: Move, after: Position): int
  {
    match m.captured
    case None => 0
    case Some(c) =>
      var capturedValue := Value(c);
      var attackerValue := Value(m.piece);
      if capturedValue >= attackerValue then 10 * (capturedValue * 2 + 1)
      else if Defended(after.moves, m.to) then 10 * (capturedValue - attackerValue)
      else 10 * (capturedValue * 2)
  }

  /** The destination squares of the capturing moves, each once (`countThreats`' set). */
  function ThreatSquares(moves: seq<Move>): set<Square>
  {
    if moves == [] then {}
    else
      var m := moves[|moves| - 1];
      ThreatSquares(moves[..|moves| - 1]) + (if m.captured.Some? then {m.to} else {})
  }

  lemma {:induction false} ThreatSquaresMeaning(moves: seq<Move>, s: Square)
    ensures s in ThreatSquares(moves) <==> exists k :: 0 <= k < |moves| && moves[k].to == s && moves[k].captured.Some?
  {
    if moves != [] {
      var init := moves[..|moves| - 1];
      ThreatSquaresMeaning(init, s);
      if s in ThreatSquares(init) {
        var k :| 0 <= k < |init| && init[k].to == s && init[k].captured.Some?;
        assert moves[k] == init[k];
      }
      if exists k :: 0 <= k < |moves| && moves[k].to == s && moves[k].captured.Some? {
        var k :| 0 <= k < |moves| && moves[k].to == s && moves[k].captured.Some?;
        if k < |init| {
          assert init[k] == moves[k];
        }
      }
    }
  }

  /** There are never more threats than moves. */
  lemma {:induction false} ThreatCountBound(moves: seq<Move>)
    ensures |ThreatSquares(moves)| <= |moves|
  {
    if moves != [] {
      ThreatCountBound(moves[..|moves| - 1]);
    }
  }

  function CentreBonus(m: Move): int
  {
    if m.piece == Knight || m.piece == Bishop then
      if SquareName(m.to) in CenterSquares then 15
      else if SquareName(m.to) in ExtendedCenter then 5
      else 0
    else 0
  }

  /** How far a pawn's destination rank is, counted from its own side (1 to 8). */
  function AdvanceRank(m: Move): int
  {
    var rank := m.to.rank + 1;
    if m.color == White then rank else 9 - rank
  }

  function PawnBonus(m: Move): int
  {
    if m.piece == Pawn then (if AdvanceRank(m) >= 6 then 20 else 0) + (if AdvanceRank(m) == 7 then 40 else 0)
    else 0
  }

  function CastleBonus(m: Move): int
  {
    if 'k' in m.flags || 'q' in m.flags then 30 else 0
  }

  /** A piece other than a pawn or the king leaving its back rank. */
  function DevelopmentBonus(m: Move): int
  {
    if m.piece != Pawn && m.piece != King && ((m.color == White && m.from.rank == 0) || (m.color == Black && m.from.rank == 7))
    then 5 else 0
  }

  /** The safety penalty: the destination is attacked and no reply there captures. */
  function SafetyPenalty(m: Move, after: Position): int
  {
    if Attacked(after.moves, m.to) && !Defended(after.moves, m.to) then 8 * Value(m.piece) else 0
  }

  /** `scoreMove`, in tenths. */
  function ScoreOf(pos: Position, m: Move, rules: Rules): int
  {
    var after := rules.play(pos, m);
    if after.inCheckmate then MateScore
    else
      CaptureTerm(m, after)
      + (if after.inCheck then 30 else 0)
      + 15 * |ThreatSquares(after.moves)|
      + ForkBonus(after.board, AttackedSquares(after.board, m.to, m.piece, m.color), m.color)
      + (if PinOrSkewer(after.board, m.to, m.piece, m.color) then 30 else 0)
      + CentreBonus(m) + PawnBonus(m) + CastleBonus(m) + DevelopmentBonus(m)
      - SafetyPenalty(m, after)
  }

  /** A mating move scores exactly the mate score, whatever it captures. */
  lemma MateScoresTop(pos: Position, m: Move, rules: Rules)
    requires rules.play(pos, m).inCheckmate
    ensures ScoreOf(pos, m, rules) == MateScore
  {
  }

  /** The three cases of the capture term, in points times ten. */
  lemma CaptureTermCases(m: Move, after: Position)
    requires m.captured.Some?
    ensures var cv, av := Value(m.captured.value), Value(m.piece);
      && (cv >= av ==> CaptureTerm(m, after) == 20 * cv + 10)
      && (cv < av && Defended(after.moves, m.to) ==> CaptureTerm(m, after) == 10 * (cv - av) < 0)
      && (cv < av && !Defended(after.moves, m.to) ==> CaptureTerm(m, after) == 20 * cv >= 0)
  {
  }

  /**
   * The safety penalty applies only when some move of the reply lands on the
   * destination without capturing; when the moved piece stands there every such
   * move captures it, so the penalty never applies.
   */
  lemma SafetyPenaltyNeedsQuietReply(m: Move, after: Position)
    requires forall k :: 0 <= k < |after.moves| && after.moves[k].to == m.to ==> after.moves[k].captured.Some?
    ensures SafetyPenalty(m, after) == 0
  {
    if Attacked(after.moves, m.to) {
      var k :| 0 <= k < |after.moves| && after.moves[k].to == m.to;
      assert Defended(after.moves, m.to);
    }
  }

  /** `countThreats`: the loop with its `seen` set. */
  method CountThreats(moves: seq<Move>) returns (threats: nat)
    ensures threats == |ThreatSquares(moves)|
  {
    threats := 0;
    var seen: set<Square> := {};
    for i := 0 to |moves|
      invariant seen == ThreatSquares(moves[..i]) && threats == |seen|
    {
      assert moves[..i + 1][..i] == moves[..i];
      var m := moves[i];
      if m.captured.Some? && m.to !in seen {
        seen := seen + {m.to};
        threats := threats + 1;
      }
    }
    assert moves[..|moves|] == moves;
  }

  /** `scoreMove`: the score built term by term, with the early return on mate. */
  method ScoreMove(pos: Position, m: Move, rules: Rules) returns (score: int)
    ensures score == ScoreOf(pos, m, rules)
  {
    score := 0;
    var after := rules.play(pos, m);
    score := score + CaptureTerm(m, after);
    if after.inCheckmate {
      return MateScore;
    }
    if after.inCheck {
      score := score + 30;
    }
    var threats := CountThreats(after.moves);
    score := score + 15 * threats;
    var attacked := AttackedSquaresFrom(after.board, m.to, m.piece, m.color);
    var fork := DetectFork(after.board, attacked, m.color);
    score := score + fork;
    var pin := CreatesPinOrSkewer(after.board, m.to, m.piece, m.color);
    if pin {
      score := score + 30;
    }
    score := score + CentreBonus(m);
    score := score + PawnBonus(m);
    score := score + CastleBonus(m);
    score := score + DevelopmentBonus(m);
    score := score - SafetyPenalty(m, after);
  }

  // ---------------------------------------------------------------------------
  // The ladder
  // ---------------------------------------------------------------------------

  /** The classification of the player's score against the best score. */
  function Classify(playerScore: int, bestScore: int): Quality
  {
    if playerScore >= bestScore then (if playerScore >= 80 then Brilliant else Good)
    else if bestScore - playerScore <= 20 then Good
    else if bestScore - playerScore <= 50 then Inaccuracy
    else if bestScore >= 80 && bestScore - playerScore > 50 then MissedWin
    else Blunder
  }

  /** Each verdict of the ladder, as a condition on the two scores. */
  lemma ClassifyLadder(playerScore: int, bestScore: int)
    ensures var q := Classify(playerScore, bestScore); var diff := bestScore - playerScore;
      && (q == Brilliant <==> diff <= 0 && playerScore >= 80)
      && (q == Good <==> (diff <= 0 && playerScore < 80) || (0 < diff <= 20))
      && (q == Inaccuracy <==> 20 < diff <= 50)
      && (q == MissedWin <==> diff > 50 && bestScore >= 80)
      && (q == Blunder <==> diff > 50 && bestScore < 80)
  {
  }

  /** A better score never gets a worse verdict. */
  lemma ClassifyMonotone(p1: int, p2: int, bestScore: int)
    requires p1 <= p2
    ensures Badness(Classify(p2, bestScore)) <= Badness(Classify(p1, bestScore))
  {
  }

  /** The order in which the verdicts are worse. */
  function Badness(q: Quality): nat
  {
    match q
    case Brilliant => 0
    case Good => 1
    case Inaccuracy => 2
    case MissedWin => 3
    case Blunder => 4
  }

  // ---------------------------------------------------------------------------
  // Explanations
  // ---------------------------------------------------------------------------

  /** `buildExplanation`: a tactical reason for the better move. */
  function BuildExplanation(pos: Position, m: Move, rules: Rules): string
  {
    var after := rules.play(pos, m);
    ExplanationText(m, after,
      ForkBonus(after.board, AttackedSquares(after.board, m.to, m.piece, m.color), m.color) > 0,
      PinOrSkewer(after.board, m.to, m.piece, m.color))
  }

  /**
   * The explanation's text, given whether the move forks and whether it pins or
   * skewers: every text but the one for a capture that does not win material
   * starts with the move.
   */
  function ExplanationText(m: Move, after: Position, fork: bool, pin: bool): string
  {
    if !after.inCheckmate && !after.inCheck && m.captured.Some? && Value(m.captured.value) <= Value(m.piece) then
      "Capturing with " + m.san + (" wins the " + Name(m.captured.value) + ".")
    else m.san + Reason(m, after, fork, pin)
  }

  /** What follows the move in the texts that start with it. */
  function Reason(m: Move, after: Position, fork: bool, pin: bool): string
  {
    if after.inCheckmate then " leads to checkmate!"
    else if after.inCheck then
      if m.captured.Some? then " captures the " + Name(m.captured.value) + " with check " + Dash + " a powerful double threat."
      else " delivers check, forcing your opponent to respond."
    else if m.captured.Some? then
      var capturedValue := Value(m.captured.value);
      var attackerValue := Value(m.piece);
      " wins material " + Dash + " capturing a " + Name(m.captured.value) + " (" + IntToString(capturedValue)
        + ") with your " + Name(m.piece) + " (" + IntToString(attackerValue) + ")."
    else if fork then " creates a fork, attacking multiple pieces at once!"
    else if pin then " creates a pin or skewer along the line, trapping an opponent piece."
    else if m.piece == Pawn && AdvanceRank(m) >= 6 then " pushes the pawn closer to promotion " + Dash + " a dangerous threat."
    else " was a stronger move in this position."
  }

  /** Every explanation names the move it explains. */
  lemma ExplanationNamesMove(pos: Position, m: Move, rules: Rules)
    ensures Contains(BuildExplanation(pos, m, rules), m.san)
  {
    var after := rules.play(pos, m);
    var fork := ForkBonus(after.board, AttackedSquares(after.board, m.to, m.piece, m.color), m.color) > 0;
    var pin := PinOrSkewer(after.board, m.to, m.piece, m.color);
    if !after.inCheckmate && !after.inCheck && m.captured.Some? && Value(m.captured.value) <= Value(m.piece) {
      ContainsInfix("Capturing with ", m.san, " wins the " + Name(m.captured.value) + ".");
    } else {
      LeadsWith(m.san, Reason(m, after, fork, pin));
    }
  }

  lemma LeadsWith(san: string, rest: string)
    ensures Contains(san + rest, san)
  {
    ContainsInfix("", san, rest);
    assert "" + san + rest == san + rest;
  }

  // ---------------------------------------------------------------------------
  // The two overrides
  // ---------------------------------------------------------------------------

  datatype Override = Override(severity: Quality, explanation: string)

  /** `PIECE_VALUES[piece] || 99`: the king's value 0 is falsy and ranks as 99. */
  function CaptureRank(k: Kind): nat
  {
    if Value(k) == 0 then 99 else Value(k)
  }

  /** The `reduce` picking the cheapest capturer: the first of the lowest rank. */
  function Cheapest(capturers: seq<Move>): (c: Move)
    requires |capturers| >= 1
    ensures c in capturers
    ensures forall k :: 0 <= k < |capturers| ==> CaptureRank(c.piece) <= CaptureRank(capturers[k].piece)
  {
    if |capturers| == 1 then capturers[0]
    else
      var init := capturers[..|capturers| - 1];
      var best := Cheapest(init);
      var last := capturers[|capturers| - 1];
      assert forall k :: 0 <= k < |init| ==> capturers[k] == init[k];
      if CaptureRank(last.piece) < CaptureRank(best.piece) then last else best
  }

  /** No capturer before the chosen one has the same rank: ties keep the earliest. */
  lemma {:induction false} CheapestIsFirst(capturers: seq<Move>, k: nat)
    requires |capturers| >= 1 && k < |capturers|
    requires CaptureRank(capturers[k].piece) == CaptureRank(Cheapest(capturers).piece)
    ensures exists j :: 0 <= j <= k && capturers[j] == Cheapest(capturers)
  {
    if |capturers| > 1 {
      var init := capturers[..|capturers| - 1];
      var last := capturers[|capturers| - 1];
      if k < |init| {
        assert init[k] == capturers[k];
        if CaptureRank(last.piece) < CaptureRank(Cheapest(init).piece) {
          assert false;
        } else {
          CheapestIsFirst(init, k);
          var j :| 0 <= j <= k && init[j] == Cheapest(init);
          assert capturers[j] == init[j];
        }
      } else if CaptureRank(last.piece) < CaptureRank(Cheapest(init).piece) {
      } else {
        assert Cheapest(capturers) == Cheapest(init);
        assert Cheapest(init) in init;
        var j :| 0 <= j < |init| && init[j] == Cheapest(init);
        assert capturers[j] == init[j];
      }
    }
  }

  /** The replies that capture on the moved piece's square. */
  function Capturers(m: Move, after: Position): seq<Move>
  {
    Filter(after.moves, (x: Move) => x.to == m.to && x.captured.Some?)
  }

  /**
   * `checkHanging`: the moved piece can be captured by a cheaper piece. The verdict
   * is a blunder for a piece worth 5 or more, otherwise an inaccuracy.
   */
  function Hanging(pos: Position, m: Move, rules: Rules): (o: Option<Override>)
    ensures o.Some? ==> o.value.severity == Inaccuracy || o.value.severity == Blunder
    ensures o.Some? ==> |Capturers(m, rules.play(pos, m))| > 0
    ensures o.Some? ==> (o.value.severity == Blunder <==> Value(m.piece) >= 5)
  {
    var after := rules.play(pos, m);
    var capturers := Capturers(m, after);
    if |capturers| == 0 then None
    else
      var cheapest := Cheapest(capturers);
      var movedValue := Value(m.piece);
      var attackerValue := Value(cheapest.piece);
      if attackerValue < movedValue then
        Some(Override(if movedValue >= 5 then Blunder else Inaccuracy,
          "Your " + Name(m.piece) + " on " + SquareName(m.to) + " can be captured by their " + Name(cheapest.piece) + ", losing material."))
      else None
  }

  /** `wasDefending`: the piece of this colour on `from`, before the move, attacked `target`. */
  predicate WasDefending(board: Board, from: Square, target: Square, color: Color)
  {
    from in board && board[from].color == color && target in AttackedSquares(board, from, board[from].kind, color)
  }

  /**
   * A reply that would win a rook or queen of the mover more cheaply, where the
   * moved piece came from that square or was defending it.
   */
  predicate Abandons(pos: Position, m: Move, after: Position, om: Move)
  {
    && om.captured.Some?
    && om.to in after.board && after.board[om.to].color == pos.turn
    && Value(after.board[om.to].kind) >= 5 && Value(om.piece) < Value(after.board[om.to].kind)
    && (m.from == om.to || WasDefending(pos.board, m.from, om.to, pos.turn))
  }

  function AbandonedFrom(pos: Position, m: Move, after: Position, i: nat): Option<Override>
    decreases |after.moves| - i
  {
    if i >= |after.moves| then None
    else if Abandons(pos, m, after, after.moves[i]) then
      var om := after.moves[i];
      Some(Override(Blunder, "Moving away left your " + Name(after.board[om.to].kind) + " on " + SquareName(om.to) + " undefended!"))
    else AbandonedFrom(pos, m, after, i + 1)
  }

  /** `checkAbandonedPiece`: the first abandoning reply, as a blunder. */
  function Abandoned(pos: Position, m: Move, rules: Rules): Option<Override>
  {
    AbandonedFrom(pos, m, rules.play(pos, m), 0)
  }

  lemma {:induction false} AbandonedFromMeaning(pos: Position, m: Move, after: Position, i: nat)
    ensures AbandonedFrom(pos, m, after, i).Some? <==> exists k :: i <= k < |after.moves| && Abandons(pos, m, after, after.moves[k])
    ensures AbandonedFrom(pos, m, after, i).Some? ==> AbandonedFrom(pos, m, after, i).value.severity == Blunder
    decreases |after.moves| - i
  {
    if i < |after.moves| && !Abandons(pos, m, after, after.moves[i]) {
      AbandonedFromMeaning(pos, m, after, i + 1);
    }
  }

  /** An abandoned piece is reported exactly when some reply abandons, and always as a blunder. */
  lemma AbandonedMeaning(pos: Position, m: Move, rules: Rules)
    ensures var after := rules.play(pos, m);
      && (Abandoned(pos, m, rules).Some? <==> exists k :: 0 <= k < |after.moves| && Abandons(pos, m, after, after.moves[k]))
      && (Abandoned(pos, m, rules).Some? ==> Abandoned(pos, m, rules).value.severity == Blunder)
  {
    AbandonedFromMeaning(pos, m, rules.play(pos, m), 0);
  }

  /** An override replaces the verdict and the explanation, and names the best move when it is another move. */
  function WithOverride(insight: MoveInsight, o: Option<Override>, bestSan: string): MoveInsight
  {
    if o.None? then insight
    else insight.(quality := o.value.severity, explanation := o.value.explanation,
                  betterMove := if bestSan != insight.playerMove then Some(bestSan) else insight.betterMove)
  }

  /** The hanging check on good and inaccurate moves, then the abandoned check on moves still good. */
  function Overridden(ladder: MoveInsight, hanging: Option<Override>, abandoned: Option<Override>, bestSan: string): MoveInsight
  {
    var afterHanging :=
      if ladder.quality == Good || ladder.quality == Inaccuracy then WithOverride(ladder, hanging, bestSan) else ladder;
    if afterHanging.quality == Good then WithOverride(afterHanging, abandoned, bestSan) else afterHanging
  }

  /**
   * The overrides only worsen the verdict: brilliant moves, missed wins and
   * blunders keep the ladder's verdict, and a changed verdict is an inaccuracy or
   * a blunder.
   */
  lemma OverridesOnlyWorsen(ladder: MoveInsight, hanging: Option<Override>, abandoned: Option<Override>, bestSan: string)
    requires hanging.Some? ==> hanging.value.severity == Inaccuracy || hanging.value.severity == Blunder
    requires abandoned.Some? ==> abandoned.value.severity == Blunder
    ensures var r := Overridden(ladder, hanging, abandoned, bestSan);
      && Badness(r.quality) >= Badness(ladder.quality)
      && (r.quality != ladder.quality ==> r.quality == Inaccuracy || r.quality == Blunder)
      && (ladder.quality in {Brilliant, MissedWin, Blunder} ==> r == ladder)
      && r.playerMove == ladder.playerMove
      && ((ladder.betterMove.Some? ==> ladder.betterMove.value == bestSan) ==> (r.betterMove.Some? ==> r.betterMove.value == bestSan))
      && ((ladder.quality in {Brilliant, Good} ==> ladder.betterMove.None?) ==> (r.quality in {Brilliant, Good} ==> r.betterMove.None?))
  {
  }

  // ---------------------------------------------------------------------------
  // analyzePlayerMove
  // ---------------------------------------------------------------------------

  /** The index of the first move with the given SAN (`legalMoves.find`). */
  function FindSan(moves: seq<Move>, san: string, i: nat): (r: Option<nat>)
    ensures r.Some? ==> i <= r.value < |moves| && moves[r.value].san == san
    ensures r.None? <==> forall k :: i <= k < |moves| ==> moves[k].san != san
    decreases |moves| - i
  {
    if i >= |moves| then None else if moves[i].san == san then Some(i) else FindSan(moves, san, i + 1)
  }

  function Scores(pos: Position, rules: Rules): (scores: seq<int>)
    ensures |scores| == |pos.moves|
    ensures forall k :: 0 <= k < |scores| ==> scores[k] == ScoreOf(pos, pos.moves[k], rules)
  {
    seq(|pos.moves|, k requires 0 <= k < |pos.moves| => ScoreOf(pos, pos.moves[k], rules))
  }

  /** The head of the descending stable sort: the first move with the highest score. */
  function BestIndex(scores: seq<int>): (b: nat)
    requires |scores| > 0
    ensures b < |scores|
    ensures forall k :: 0 <= k < |scores| ==> scores[k] <= scores[b]
    ensures forall k :: 0 <= k < b ==> scores[k] < scores[b]
  {
    if |scores| == 1 then 0
    else
      var b := BestIndex(scores[..|scores| - 1]);
      assert forall k :: 0 <= k < |scores| - 1 ==> scores[..|scores| - 1][k] == scores[k];
      if scores[|scores| - 1] > scores[b] then |scores| - 1 else b
  }

  /**
   * The score `scored.find` returns after the sort: the highest score among the
   * moves with the player's SAN.
   */
  function SanScore(moves: seq<Move>, scores: seq<int>, san: string): (r: Option<int>)
    requires |scores| == |moves|
    ensures r.Some? <==> exists k :: 0 <= k < |moves| && moves[k].san == san
    ensures r.Some? ==> exists k :: 0 <= k < |moves| && moves[k].san == san && scores[k] == r.value
    ensures r.Some? ==> forall k :: 0 <= k < |moves| && moves[k].san == san ==> scores[k] <= r.value
  {
    if moves == [] then None
    else
      var n := |moves| - 1;
      var prev := SanScore(moves[..n], scores[..n], san);
      assert forall k :: 0 <= k < n ==> moves[..n][k] == moves[k] && scores[..n][k] == scores[k];
      if moves[n].san != san then prev
      else if prev.Some? && prev.value >= scores[n] then prev
      else Some(scores[n])
  }

  /** The ladder's verdict, with the best move and its explanation for the three bad verdicts. */
  function LadderInsight(pos: Position, san: string, rules: Rules, playerScore: int, b: nat): MoveInsight
    requires b < |pos.moves|
  {
    var bestScore := ScoreOf(pos, pos.moves[b], rules);
    var q := Classify(playerScore, bestScore);
    if q == Brilliant || q == Good then MoveInsight(san, None, "", q)
    else MoveInsight(san, Some(pos.moves[b].san), BuildExplanation(pos, pos.moves[b], rules), q)
  }

  /** The ladder's insight carries the ladder's verdict, and names the best move exactly when the verdict is below good. */
  lemma LadderInsightShape(pos: Position, san: string, rules: Rules, playerScore: int, b: nat)
    requires b < |pos.moves|
    ensures var r := LadderInsight(pos, san, rules, playerScore, b);
      && r.quality == Classify(playerScore, ScoreOf(pos, pos.moves[b], rules))
      && r.playerMove == san
      && (r.betterMove.Some? <==> r.quality !in {Brilliant, Good})
      && (r.betterMove.Some? ==> r.betterMove.value == pos.moves[b].san)
  {
  }

  /** The verdict on the player's move `p` against the best move `b`: the ladder, then the overrides. */
  function Judgement(pos: Position, san: string, rules: Rules, p: nat, b: nat, playerScore: int): MoveInsight
    requires p < |pos.moves| && b < |pos.moves|
  {
    Overridden(LadderInsight(pos, san, rules, playerScore, b),
               Hanging(pos, pos.moves[p], rules), Abandoned(pos, pos.moves[p], rules), pos.moves[b].san)
  }

  /** `analyzePlayerMove`. */
  function Analysis(fenBefore: string, san: string, rules: Rules): MoveInsight
  {
    match rules.load(fenBefore)
    case None => MoveInsight(san, None, "", Good)
    case Some(pos) =>
      match FindSan(pos.moves, san, 0)
      case None => MoveInsight(san, None, "", Good)
      case Some(p) =>
        var scores := Scores(pos, rules);
        Judgement(pos, san, rules, p, BestIndex(scores), SanScore(pos.moves, scores, san).value)
  }

  /** A move that is not among the legal moves, or a FEN that does not load, is judged good without comment. */
  lemma UnknownMoveIsGood(fenBefore: string, san: string, rules: Rules)
    requires rules.load(fenBefore).None? || forall k :: 0 <= k < |rules.load(fenBefore).value.moves| ==> rules.load(fenBefore).value.moves[k].san != san
    ensures Analysis(fenBefore, san, rules) == MoveInsight(san, None, "", Good)
  {
    if rules.load(fenBefore).Some? {
      var r := FindSan(rules.load(fenBefore).value.moves, san, 0);
    }
  }

  /**
   * The verdict on a legal move: the ladder on the player's and the best score,
   * worsened only by the two overrides; the best move is named only with a
   * verdict worse than good.
   */
  lemma JudgementVerdict(pos: Position, san: string, rules: Rules, p: nat, b: nat, playerScore: int)
    requires p < |pos.moves| && b < |pos.moves|
    ensures var q0 := Classify(playerScore, ScoreOf(pos, pos.moves[b], rules));
      var r := Judgement(pos, san, rules, p, b, playerScore);
      && r.playerMove == san
      && Badness(r.quality) >= Badness(q0)
      && (q0 in {Brilliant, MissedWin, Blunder} ==> r.quality == q0)
      && (r.quality != q0 ==> r.quality == Inaccuracy || r.quality == Blunder)
      && (r.betterMove.Some? ==> r.betterMove.value == pos.moves[b].san)
      && (r.quality in {Brilliant, Good} ==> r.betterMove.None?)
  {
    var ladder := LadderInsight(pos, san, rules, playerScore, b);
    var hanging, abandoned := Hanging(pos, pos.moves[p], rules), Abandoned(pos, pos.moves[p], rules);
    LadderInsightShape(pos, san, rules, playerScore, b);
    AbandonedMeaning(pos, pos.moves[p], rules);
    VerdictAfterOverrides(ladder, hanging, abandoned, pos.moves[b].san);
  }

  /** What `JudgementVerdict` states, for any ladder insight of the shape `LadderInsightShape` gives. */
  lemma VerdictAfterOverrides(ladder: MoveInsight, hanging: Option<Override>, abandoned: Option<Override>, bestSan: string)
    requires hanging.Some? ==> hanging.value.severity == Inaccuracy || hanging.value.severity == Blunder
    requires abandoned.Some? ==> abandoned.value.severity == Blunder
    requires ladder.betterMove.Some? <==> ladder.quality !in {Brilliant, Good}
    requires ladder.betterMove.Some? ==> ladder.betterMove.value == bestSan
    ensures var r := Overridden(ladder, hanging, abandoned, bestSan);
      && r.playerMove == ladder.playerMove
      && Badness(r.quality) >= Badness(ladder.quality)
      && (ladder.quality in {Brilliant, MissedWin, Blunder} ==> r.quality == ladder.quality)
      && (r.quality != ladder.quality ==> r.quality == Inaccuracy || r.quality == Blunder)
      && (r.betterMove.Some? ==> r.betterMove.value == bestSan)
      && (r.quality in {Brilliant, Good} ==> r.betterMove.None?)
  {
    OverridesOnlyWorsen(ladder, hanging, abandoned, bestSan);
  }

  /** The verdict of `analyzePlayerMove` on a legal move, in terms of the scores of all legal moves. */
  lemma AnalysisVerdict(fenBefore: string, san: string, rules: Rules)
    requires rules.load(fenBefore).Some?
    requires FindSan(rules.load(fenBefore).value.moves, san, 0).Some?
    ensures var pos := rules.load(fenBefore).value;
      var scores := Scores(pos, rules);
      var b := BestIndex(scores);
      var q0 := Classify(SanScore(pos.moves, scores, san).value, scores[b]);
      var r := Analysis(fenBefore, san, rules);
      && r.playerMove == san
      && Badness(r.quality) >= Badness(q0)
      && (q0 in {Brilliant, MissedWin, Blunder} ==> r.quality == q0)
      && (r.quality != q0 ==> r.quality == Inaccuracy || r.quality == Blunder)
      && (r.betterMove.Some? ==> r.betterMove.value == pos.moves[b].san)
      && (r.quality in {Brilliant, Good} ==> r.betterMove.None?)
  {
    var pos := rules.load(fenBefore).value;
    var scores := Scores(pos, rules);
    JudgementVerdict(pos, san, rules, FindSan(pos.moves, san, 0).value, BestIndex(scores), SanScore(pos.moves, scores, san).value);
  }

  /** `checkAbandonedPiece`: the replies are scanned in order and the first abandoning one is reported. */
  method CheckAbandonedPiece(pos: Position, m: Move, rules: Rules) returns (o: Option<Override>)
    ensures o == Abandoned(pos, m, rules)
  {
    var after := rules.play(pos, m);
    var i := 0;
    while i < |after.moves|
      invariant 0 <= i <= |after.moves|
      invariant AbandonedFrom(pos, m, after, i) == AbandonedFrom(pos, m, after, 0)
    {
      var om := after.moves[i];
      if om.captured.Some? && om.to in after.board && after.board[om.to].color == pos.turn {
        var capturedValue := Value(after.board[om.to].kind);
        var attackerValue := Value(om.piece);
        if capturedValue >= 5 && attackerValue < capturedValue && (m.from == om.to || WasDefending(pos.board, m.from, om.to, pos.turn)) {
          return Some(Override(Blunder, "Moving away left your " + Name(after.board[om.to].kind) + " on " + SquareName(om.to) + " undefended!"));
        }
      }
      i := i + 1;
    }
    o := None;
  }

  /** The `legalMoves.map` that scores every legal move. */
  method ScoreAll(pos: Position, rules: Rules) returns (scores: seq<int>)
    ensures |scores| == |pos.moves|
    ensures forall j :: 0 <= j < |scores| ==> scores[j] == ScoreOf(pos, pos.moves[j], rules)
  {
    scores := [];
    for k := 0 to |pos.moves|
      invariant |scores| == k
      invariant forall j :: 0 <= j < k ==> scores[j] == ScoreOf(pos, pos.moves[j], rules)
    {
      var s := ScoreMove(pos, pos.moves[k], rules);
      scores := scores + [s];
    }
  }

  /** `analyzePlayerMove`: the legal moves are scored one by one, then judged. */
  method AnalyzePlayerMove(fenBefore: string, san: string, rules: Rules) returns (insight: MoveInsight)
    ensures insight == Analysis(fenBefore, san, rules)
  {
    var loaded := rules.load(fenBefore);
    if loaded.None? {
      return MoveInsight(san, None, "", Good);
    }
    var pos := loaded.value;
    var found := FindSan(pos.moves, san, 0);
    if found.None? {
      return MoveInsight(san, None, "", Good);
    }
    var playerMove := pos.moves[found.value];
    var scores := ScoreAll(pos, rules);
    assert scores == Scores(pos, rules);
    var b := BestIndex(scores);
    var playerScore := SanScore(pos.moves, scores, san).value;
    var ladder := LadderInsight(pos, san, rules, playerScore, b);
    var hanging := Hanging(pos, playerMove, rules);
    var abandoned := CheckAbandonedPiece(pos, playerMove, rules);
    insight := Overridden(ladder, hanging, abandoned, pos.moves[b].san);
    assert insight == Judgement(pos, san, rules, found.value, b, playerScore);
  }
}
