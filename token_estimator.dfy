/**
 * The cheap token accounting used to budget prompts: a token is taken to be four
 * characters, and a model's usable budget is its context limit minus two fixed reserves.
 */
module TokenEstimator {

  const DefaultLimit: nat := 32000
  const ResponseReserve: nat := 600
  const SystemPromptReserve: nat := 600

  /** Context limits of the models the providers offer; every other model id gets DefaultLimit. */
  const ModelTokenLimits: map<string, nat> := map[
    "gpt-4o" := 128000,
    "gpt-4o-mini" := 128000,
    "gpt-4-turbo" := 128000,
    "o1-mini" := 128000,
    "claude-sonnet-4-20250514" := 200000,
    "claude-3-5-haiku-20241022" := 200000,
    "gemini-2.0-flash" := 1000000,
    "gemini-1.5-pro" := 2000000,
    "llama-3.3-70b-versatile" := 128000,
    "mixtral-8x7b-32768" := 32768,
    "llama-3.1-8b-instant" := 131072
  ]

  /** `Math.ceil(text.length / 4)`: the least token count whose four characters each cover the text. */
  function Estimate(text: string): (tokens: nat)
    ensures 4 * tokens >= |text| > 4 * (tokens - 1)
  {
    (|text| + 3) / 4
  }

  lemma EstimateEmpty()
    ensures Estimate("") == 0
  {
  }

  /** A longer text never has a smaller estimate. */
  lemma EstimateMonotone(a: string, b: string)
    requires |a| <= |b|
    ensures Estimate(a) <= Estimate(b)
  {
  }

  /** `MODEL_TOKEN_LIMITS[model] || DEFAULT_LIMIT` (no listed limit is 0, so `||` only catches unknown ids). */
  function ModelLimit(model: string): (limit: nat)
    ensures model !in ModelTokenLimits ==> limit == DefaultLimit
    ensures model in ModelTokenLimits ==> limit == ModelTokenLimits[model]
    ensures limit >= DefaultLimit
  {
    if model in ModelTokenLimits && ModelTokenLimits[model] != 0 then ModelTokenLimits[model] else DefaultLimit
  }

  /** The tokens left for the user prompt once the response and system-prompt reserves are set aside. */
  function AvailableBudget(model: string): (budget: int)
    ensures budget + ResponseReserve + SystemPromptReserve == ModelLimit(model)
    ensures budget >= DefaultLimit - ResponseReserve - SystemPromptReserve
  {
    ModelLimit(model) - ResponseReserve - SystemPromptReserve
  }

  datatype TokenInfo = TokenInfo(used: int, budget: int, remaining: int)

  /** Observability triple: `used` is passed through and `remaining` never goes negative. */
  function BudgetInfo(model: string, used: int): (info: TokenInfo)
    ensures info.used == used
    ensures info.budget == AvailableBudget(model)
    ensures info.remaining >= 0
    ensures info.remaining == 0 <==> used >= info.budget
    ensures info.remaining > 0 ==> info.used + info.remaining == info.budget
  {
    var budget := AvailableBudget(model);
    TokenInfo(used, budget, if budget - used > 0 then budget - used else 0)
  }
}
