/**
 * Fits the user prompt into the model's token budget in priority order: the
 * minimal prompt (position, colour, legal moves, style) always, then a memory
 * summary within a 40%/800-token allotment, then the full PGN or its last twenty
 * segments while the prompt stays strictly under 90% of the budget.
 */
module ContextManager {
  import opened Text
  import opened Prompts
  import opened TokenEstimator
  import opened GameMemory
  import MemorySummarizer

  function Min(a: int, b: int): int { if a <= b then a else b }

  /** `Math.min(Math.floor((budget - used) * 0.4), 800)`; Dafny's division by 5 floors like Math.floor. */
  function Allotment(budget: int, used: int): (allot: int)
    ensures allot <= 800
    ensures allot < 800 ==> 5 * allot <= 2 * (budget - used) < 5 * (allot + 1)
    ensures allot == 800 <==> 2 * (budget - used) >= 4000
  {
    Min((2 * (budget - used)) / 5, 800)
  }

  /** The strict 90% test `used + tokens < budget * 0.9`, in integers. */
  predicate FitsUnderNinety(budget: int, used: int, tokens: int)
  {
    10 * (used + tokens) < 9 * budget
  }

  predicate IsDigit(c: char) { '0' <= c <= '9' }

  function DigitRun(s: string, i: nat): (n: nat)
    ensures i + n <= |s| || n == 0
    ensures forall k :: i <= k < i + n ==> IsDigit(s[k])
    ensures i + n < |s| ==> !IsDigit(s[i + n])
    decreases |s| - i
  {
    if i < |s| && IsDigit(s[i]) then 1 + DigitRun(s, i + 1) else 0
  }

  /**
   * Where a match of `/\d+\.\s*` starting at `i` ends: the digit run has to be
   * followed by a dot (backtracking to a shorter run would leave a digit there),
   * and the white space after the dot is taken greedily.
   */
  function MoveNumberAt(s: string, i: nat): (e: Option<nat>)
    ensures e.Some? ==> i < e.value <= |s| && '.' in s[i..e.value]
    ensures '.' !in s ==> e.None?
  {
    var d := DigitRun(s, i);
    if d > 0 && i + d < |s| && s[i + d] == '.' then
      assert s[i + d] in s[i..i + d + 1 + SpaceRun(s, i + d + 1)];
      Some(i + d + 1 + SpaceRun(s, i + d + 1))
    else None
  }

  /** The pieces of `s` from `start`, scanning for the next match from `p` (String.prototype.split with a regex). */
  function SplitMoveNumbersFrom(s: string, start: nat, p: nat): seq<string>
    requires start <= p <= |s|
    decreases |s| - p
  {
    if p == |s| then [s[start..]]
    else match MoveNumberAt(s, p)
      case Some(e) => [s[start..p]] + SplitMoveNumbersFrom(s, e, e)
      case None => SplitMoveNumbersFrom(s, start, p + 1)
  }

  /** `pgn.split(/\d+\.\s*\/)`. */
  function SplitMoveNumbers(s: string): seq<string>
  {
    SplitMoveNumbersFrom(s, 0, 0)
  }

  /** Text without a dot holds no move number, so it splits into itself. */
  lemma {:induction false} SplitWithoutDot(s: string, start: nat, p: nat)
    requires start <= p <= |s| && '.' !in s
    ensures SplitMoveNumbersFrom(s, start, p) == [s[start..]]
    decreases |s| - p
  {
    if p < |s| {
      SplitWithoutDot(s, start, p + 1);
    }
  }

  predicate NonEmpty(s: string) { s != "" }

  /** `moves.filter(Boolean).slice(-20)`: at most twenty non-empty segments, the last ones of the PGN. */
  function LastSegments(pgn: string): (segments: seq<string>)
    ensures |segments| <= 20
    ensures forall k :: 0 <= k < |segments| ==> segments[k] != ""
    ensures var all := Filter(SplitMoveNumbers(pgn), NonEmpty);
      segments == if |all| <= 20 then all else all[|all| - 20..]
  {
    LastTwenty(Filter(SplitMoveNumbers(pgn), NonEmpty))
  }

  /** `slice(-20)` over segments that are all non-empty. */
  function LastTwenty(all: seq<string>): (segments: seq<string>)
    requires forall k :: 0 <= k < |all| ==> all[k] != ""
    ensures |segments| <= 20
    ensures forall k :: 0 <= k < |segments| ==> segments[k] != ""
    ensures segments == if |all| <= 20 then all else all[|all| - 20..]
  {
    LastNShape(all, 20);
    LastN(all, 20)
  }

  function TruncatedHistory(pgn: string): (r: string)
    ensures StartsWith(r, "[...] ")
  {
    "[...] " + Join(LastSegments(pgn), " ")
  }

  /** The estimate of the minimal prompt: position, colour, legal moves, style and closing line only. */
  function MinimalUsed(base: Request): nat
  {
    Estimate(BuildUserPrompt(Minimal(base)))
  }

  /**
   * The memory summary adopted: attempted only with memories and an allotment
   * above 50 tokens, and then at most 3200 characters long.
   */
  function SummaryChoice(budget: int, base: Request, memories: seq<MoveMemory>): (s: string)
    ensures s != "" ==> |memories| > 0 && Allotment(budget, MinimalUsed(base)) > 50
    ensures |memories| > 0 && Allotment(budget, MinimalUsed(base)) > 50
            ==> s == MemorySummarizer.CompressReasonings(memories, Allotment(budget, MinimalUsed(base)))
    ensures |s| <= 4 * 800
  {
    var allot := Allotment(budget, MinimalUsed(base));
    if |memories| > 0 && allot > 50 then MemorySummarizer.CompressReasonings(memories, allot) else ""
  }

  /**
   * The history adopted, given the tokens used after the summary step: the full
   * PGN whenever it fits, otherwise the truncated PGN when that fits, otherwise
   * none; whatever is adopted keeps the sum strictly under 90% of the budget.
   */
  function HistoryChoice(budget: int, used: int, pgn: string): (h: string)
    ensures h == pgn || h == TruncatedHistory(pgn) || h == ""
    ensures h != "" ==> FitsUnderNinety(budget, used, Estimate(h))
    ensures FitsUnderNinety(budget, used, Estimate(pgn)) ==> h == pgn
    ensures !FitsUnderNinety(budget, used, Estimate(pgn)) && pgn != ""
            ==> h == (if FitsUnderNinety(budget, used, Estimate(TruncatedHistory(pgn))) then TruncatedHistory(pgn) else "")
  {
    if FitsUnderNinety(budget, used, Estimate(pgn)) then pgn
    else if pgn != "" && FitsUnderNinety(budget, used, Estimate(TruncatedHistory(pgn))) then TruncatedHistory(pgn)
    else ""
  }

  /** The request whose prompt is returned: the base request with the adopted summary and history. */
  function FinalRequest(budget: int, base: Request, memories: seq<MoveMemory>, pgn: string): Request
  {
    var summary := SummaryChoice(budget, base, memories);
    var withSummary := Minimal(base).(memorySummary := summary);
    withSummary.(pgn := HistoryChoice(budget, Estimate(BuildUserPrompt(withSummary)), pgn))
  }

  /** Priority 2 of `buildPromptWithBudget`: the minimal request, with the summary when one is adopted. */
  method AdoptSummary(budget: int, base: Request, memories: seq<MoveMemory>)
    returns (request: Request, usedTokens: nat)
    ensures request == Minimal(base).(memorySummary := SummaryChoice(budget, base, memories))
    ensures usedTokens == Estimate(BuildUserPrompt(request))
  {
    request := Minimal(base);
    var currentPrompt := BuildUserPrompt(request);
    usedTokens := Estimate(currentPrompt);

    var memorySummaryBudget := Min((2 * (budget - usedTokens)) / 5, 800);
    assert memorySummaryBudget == Allotment(budget, MinimalUsed(base));
    if |memories| > 0 && memorySummaryBudget > 50 {
      var summary := MemorySummarizer.CompressReasonings(memories, memorySummaryBudget);
      assert summary == SummaryChoice(budget, base, memories);
      if summary != "" {
        request := request.(memorySummary := summary);
        currentPrompt := BuildUserPrompt(request);
        usedTokens := Estimate(currentPrompt);
      }
    } else {
      assert SummaryChoice(budget, base, memories) == "";
    }
  }

  /** Priority 3 of `buildPromptWithBudget`: the full PGN if it fits, else its last segments if they fit. */
  method AdoptHistory(budget: int, request: Request, usedTokens: nat, pgn: string)
    returns (result: Request, used: nat)
    requires request.pgn == "" && usedTokens == Estimate(BuildUserPrompt(request))
    ensures result == request.(pgn := HistoryChoice(budget, usedTokens, pgn))
    ensures used == Estimate(BuildUserPrompt(result))
  {
    result := request;
    used := usedTokens;
    var pgnTokens := Estimate(pgn);
    if 10 * (usedTokens + pgnTokens) < 9 * budget {
      result := result.(pgn := pgn);
      var currentPrompt := BuildUserPrompt(result);
      used := Estimate(currentPrompt);
    } else if pgn != "" {
      var truncatedPgn := TruncatedHistory(pgn);
      var truncTokens := Estimate(truncatedPgn);
      if 10 * (usedTokens + truncTokens) < 9 * budget {
        result := result.(pgn := truncatedPgn);
        var currentPrompt := BuildUserPrompt(result);
        used := Estimate(currentPrompt);
      }
    }
  }

  class ContextManager {
    const model: string

    constructor (model: string)
      ensures this.model == model
    {
      this.model := model;
    }

    /**
     * `buildPromptWithBudget`: the system prompt is the constant one, the user
     * prompt is built from the adopted summary and history, the reported usage is
     * that prompt's estimate against this model's budget, and it is never below
     * the minimal prompt's estimate.
     */
    method BuildPromptWithBudget(base: Request, memories: seq<MoveMemory>, pgn: string)
      returns (systemPrompt: string, userPrompt: string, info: TokenInfo)
      ensures systemPrompt == SystemPrompt()
      ensures userPrompt == BuildUserPrompt(FinalRequest(AvailableBudget(model), base, memories, pgn))
      ensures info == BudgetInfo(model, Estimate(userPrompt))
      ensures info.budget == AvailableBudget(model)
      ensures MinimalUsed(base) <= info.used
    {
      systemPrompt := SystemPrompt();
      var budget := AvailableBudget(model);
      var request, usedTokens := AdoptSummary(budget, base, memories);
      request, usedTokens := AdoptHistory(budget, request, usedTokens, pgn);
      assert request == FinalRequest(budget, base, memories, pgn);

      info := BudgetInfo(model, usedTokens);
      userPrompt := BuildUserPrompt(request);

      PromptExtendsMinimal(request);
      assert Minimal(request) == Minimal(base);
      EstimateMonotone(BuildUserPrompt(Minimal(base)), userPrompt);
    }
  }
}
