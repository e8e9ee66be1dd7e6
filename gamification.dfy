/**
 * The per-game record of move verdicts: the current and the best run of good
 * or brilliant moves, the toasts they raise, and the end-of-game statistics
 * with the accuracy score.
 */
module Gamification {
  import opened InsightEngine

  datatype ToastKind = Achievement | Info

  datatype Toast = Toast(message: string, kind: ToastKind)

  datatype PlayerGameStats = PlayerGameStats(brilliantMoves: nat, blunders: nat, missedWins: nat, longestGoodStreak: nat, accuracy: nat)

  predicate Keeps(q: Quality)
  {
    q == Brilliant || q == Good
  }

  /** The run of good or brilliant moves at the end of the record. */
  function Run(qs: seq<Quality>): (n: nat)
    ensures n <= |qs|
  {
    if qs == [] then 0
    else if Keeps(qs[|qs| - 1]) then Run(qs[..|qs| - 1]) + 1
    else 0
  }

  /** The longest run of good or brilliant moves anywhere in the record. */
  function Longest(qs: seq<Quality>): (n: nat)
    ensures Run(qs) <= n <= |qs|
  {
    if qs == [] then 0
    else
      var before := Longest(qs[..|qs| - 1]);
      if Run(qs) > before then Run(qs) else before
  }

  /** The run ending at the last move is made of good or brilliant moves only. */
  lemma {:induction false} RunIsGood(qs: seq<Quality>)
    ensures forall k :: |qs| - Run(qs) <= k < |qs| ==> Keeps(qs[k])
    ensures Run(qs) < |qs| ==> !Keeps(qs[|qs| - 1 - Run(qs)])
  {
    if qs != [] && Keeps(qs[|qs| - 1]) {
      var init := qs[..|qs| - 1];
      RunIsGood(init);
      assert forall k :: |init| - Run(init) <= k < |init| ==> qs[k] == init[k];
    }
  }

  /** Every stretch of good or brilliant moves is at most the longest run. */
  lemma {:induction false} LongestIsLongest(qs: seq<Quality>, i: nat, j: nat)
    requires i <= j <= |qs|
    requires forall k :: i <= k < j ==> Keeps(qs[k])
    ensures j - i <= Longest(qs)
  {
    if j < |qs| {
      var init := qs[..|qs| - 1];
      assert forall k :: i <= k < j ==> init[k] == qs[k];
      LongestIsLongest(init, i, j);
    } else if i < j {
      assert j - i <= Run(qs) by { RunCoversStretch(qs, i); }
    }
  }

  lemma {:induction false} RunCoversStretch(qs: seq<Quality>, i: nat)
    requires i <= |qs|
    requires forall k :: i <= k < |qs| ==> Keeps(qs[k])
    ensures |qs| - i <= Run(qs)
  {
    if i < |qs| {
      var init := qs[..|qs| - 1];
      assert forall k :: i <= k < |init| ==> init[k] == qs[k];
      RunCoversStretch(init, i);
    }
  }

  /** Recording one more verdict extends the run or ends it, and raises the longest run to the new run. */
  lemma RecordStep(qs: seq<Quality>, q: Quality)
    ensures Run(qs + [q]) == (if Keeps(q) then Run(qs) + 1 else 0)
    ensures Longest(qs + [q]) == (if Run(qs + [q]) > Longest(qs) then Run(qs + [q]) else Longest(qs))
  {
    assert (qs + [q])[..|qs|] == qs;
  }

  /** The toast for a run that has just reached 3, 5 or 10 moves. */
  function StreakToast(streak: nat): seq<Toast>
  {
    if streak == 3 then [Toast("3-move streak! Nice focus.", Achievement)]
    else if streak == 5 then [Toast("5-move streak! On fire!", Achievement)]
    else if streak == 10 then [Toast("10-move streak! Unstoppable!", Achievement)]
    else []
  }

  /** The toast for the verdict itself. */
  function QualityToast(q: Quality): seq<Toast>
  {
    match q
    case Brilliant => [Toast("Brilliant move!", Achievement)]
    case Blunder => [Toast("Blunder detected.", Info)]
    case MissedWin => [Toast("You missed a winning move!", Info)]
    case _ => []
  }

  /** The toasts one recorded verdict raises, given the run after it. */
  function ToastsFor(q: Quality, streak: nat): seq<Toast>
  {
    (if Keeps(q) then StreakToast(streak) else []) + QualityToast(q)
  }

  /** A streak toast is raised exactly when a good or brilliant move makes the run 3, 5 or 10 long. */
  lemma StreakToastWhen(qs: seq<Quality>, q: Quality)
    ensures var ts := ToastsFor(q, Run(qs + [q]));
      (exists k :: 0 <= k < |ts| && ts[k].message in {"3-move streak! Nice focus.", "5-move streak! On fire!", "10-move streak! Unstoppable!"})
      <==> Keeps(q) && Run(qs + [q]) in {3, 5, 10}
  {
    assert (qs + [q])[..|qs|] == qs;
    var ts := ToastsFor(q, Run(qs + [q]));
    if Keeps(q) && Run(qs + [q]) in {3, 5, 10} {
      assert ts[0] in StreakToast(Run(qs + [q]));
    }
  }

  function CountOf(qs: seq<Quality>, q: Quality): (n: nat)
    ensures n <= |qs|
  {
    if qs == [] then 0 else CountOf(qs[..|qs| - 1], q) + (if qs[|qs| - 1] == q then 1 else 0)
  }

  /** No move is counted under two verdicts. */
  lemma {:induction false} CountsBounded(qs: seq<Quality>)
    ensures CountOf(qs, Brilliant) + CountOf(qs, Blunder) + CountOf(qs, MissedWin) <= |qs|
  {
    if qs != [] {
      CountsBounded(qs[..|qs| - 1]);
    }
  }

  /** The accuracy weight of each verdict. */
  function Weight(q: Quality): (w: nat)
    ensures 10 <= w <= 100
  {
    match q
    case Brilliant => 100
    case Good => 80
    case Inaccuracy => 50
    case Blunder => 10
    case MissedWin => 20
  }

  function Total(qs: seq<Quality>): (t: nat)
    ensures 10 * |qs| <= t <= 100 * |qs|
  {
    if qs == [] then 0 else Total(qs[..|qs| - 1]) + Weight(qs[|qs| - 1])
  }

  /** `Math.round(total / n)` for a non-negative total: the nearest integer, halves rounded up. */
  function RoundedMean(total: nat, n: nat): nat
    requires n > 0
  {
    (2 * total + n) / (2 * n)
  }

  /** The rounded mean is within half of the exact mean. */
  lemma RoundedMeanNearest(total: nat, n: nat)
    requires n > 0
    ensures 2 * n * RoundedMean(total, n) <= 2 * total + n < 2 * n * RoundedMean(total, n) + 2 * n
  {
  }

  /** `calculateAccuracy`: 0 with no moves, otherwise the rounded mean weight. */
  function Accuracy(qs: seq<Quality>): nat
  {
    if |qs| == 0 then 0 else RoundedMean(Total(qs), |qs|)
  }

  /** The accuracy of a non-empty record lies between the lowest and the highest weight. */
  lemma AccuracyBounds(qs: seq<Quality>)
    ensures qs == [] ==> Accuracy(qs) == 0
    ensures qs != [] ==> 10 <= Accuracy(qs) <= 100
  {
    if qs != [] {
      var n, t := |qs|, Total(qs);
      var a := RoundedMean(t, n);
      RoundedMeanNearest(t, n);
      MultiplyBounds(n, a);
    }
  }

  /** From 20n <= 2na + ... to 10 <= a <= 100: the step the solver needs spelled out. */
  lemma MultiplyBounds(n: nat, a: nat)
    requires n > 0
    requires 2 * n * a <= 200 * n + n && 20 * n + n < 2 * n * a + 2 * n
    ensures 10 <= a <= 100
  {
    if a < 10 {
      assert 2 * n * a <= 2 * n * 9 by { MultiplyMonotone(2 * n, a, 9); }
    }
    if a > 100 {
      assert 2 * n * a >= 2 * n * 101 by { MultiplyMonotone(2 * n, 101, a); }
    }
  }

  lemma MultiplyMonotone(c: nat, x: nat, y: nat)
    requires x <= y
    ensures c * x <= c * y
  {
  }

  /** The streak toast, raised inside `recordMoveQuality` when the run reaches 3, 5 or 10. */
  method AnnounceStreak(streak: nat) returns (ts: seq<Toast>)
    ensures ts == StreakToast(streak)
  {
    ts := [];
    if streak == 3 {
      ts := [Toast("3-move streak! Nice focus.", Achievement)];
    } else if streak == 5 {
      ts := [Toast("5-move streak! On fire!", Achievement)];
    } else if streak == 10 {
      ts := [Toast("10-move streak! Unstoppable!", Achievement)];
    }
  }

  /** The verdict's own toast, raised at the end of `recordMoveQuality`. */
  method AnnounceQuality(q: Quality) returns (ts: seq<Toast>)
    ensures ts == QualityToast(q)
  {
    ts := [];
    if q == Brilliant {
      ts := [Toast("Brilliant move!", Achievement)];
    } else if q == Blunder {
      ts := [Toast("Blunder detected.", Info)];
    } else if q == MissedWin {
      ts := [Toast("You missed a winning move!", Info)];
    }
  }

  class Engine {
    var currentStreak: nat
    var bestStreak: nat
    var moveQualities: seq<Quality>
    var toasts: seq<Toast>

    /** The streak counters are the runs of the record. */
    predicate Valid()
      reads this
    {
      currentStreak == Run(moveQualities) && bestStreak == Longest(moveQualities)
    }

    constructor ()
      ensures Valid() && moveQualities == [] && toasts == []
    {
      currentStreak, bestStreak, moveQualities, toasts := 0, 0, [], [];
    }

    /** `recordMoveQuality`. */
    method RecordMoveQuality(q: Quality)
      requires Valid()
      modifies this
      ensures Valid()
      ensures moveQualities == old(moveQualities) + [q]
      ensures currentStreak == (if Keeps(q) then old(currentStreak) + 1 else 0)
      ensures toasts == old(toasts) + ToastsFor(q, currentStreak)
      ensures currentStreak <= bestStreak <= |moveQualities|
    {
      var streak, best := currentStreak, bestStreak;
      var streakToast: seq<Toast> := [];
      if q == Brilliant || q == Good {
        streak := streak + 1;
        if streak > best {
          best := streak;
        }
        streakToast := AnnounceStreak(streak);
      } else {
        streak := 0;
      }
      var qualityToast := AnnounceQuality(q);
      assert streakToast + qualityToast == ToastsFor(q, streak);
      RecordStep(moveQualities, q);
      currentStreak, bestStreak := streak, best;
      moveQualities := moveQualities + [q];
      toasts := toasts + (streakToast + qualityToast);
    }

    /** `getEndGameStats`. */
    method GetEndGameStats() returns (stats: PlayerGameStats)
      requires Valid()
      ensures stats == PlayerGameStats(CountOf(moveQualities, Brilliant), CountOf(moveQualities, Blunder),
                                       CountOf(moveQualities, MissedWin), Longest(moveQualities), Accuracy(moveQualities))
      ensures stats.brilliantMoves + stats.blunders + stats.missedWins <= |moveQualities|
      ensures stats.longestGoodStreak <= |moveQualities|
      ensures moveQualities != [] ==> 10 <= stats.accuracy <= 100
    {
      CountsBounded(moveQualities);
      AccuracyBounds(moveQualities);
      var accuracy := CalculateAccuracy();
      stats := PlayerGameStats(CountOf(moveQualities, Brilliant), CountOf(moveQualities, Blunder),
                               CountOf(moveQualities, MissedWin), bestStreak, accuracy);
    }

    /** `calculateAccuracy`. */
    method CalculateAccuracy() returns (accuracy: nat)
      ensures accuracy == Accuracy(moveQualities)
    {
      if |moveQualities| == 0 {
        return 0;
      }
      accuracy := RoundedMean(Total(moveQualities), |moveQualities|);
    }

    /** `reset`. */
    method Reset()
      modifies this
      ensures Valid() && currentStreak == 0 && bestStreak == 0 && moveQualities == []
      ensures toasts == old(toasts)
    {
      currentStreak := 0;
      bestStreak := 0;
      moveQualities := [];
    }
  }
}
