# A Dafny model of the 3D chess game's move pipeline and LLM opponent

The game lets a human play chess on a 3D board against either a local search
worker or a language-model opponent. This project models, in Dafny, the parts
of the game that decide and account for moves:

- **ChessGameEngine** (`chess_game_engine.dfy`): a dropped or AI-delivered move
  is played in the rules engine, the captured piece leaves the scene, the move's
  flags dispatch castling, en passant and promotion (the player chooses a piece,
  the AI always takes a queen), and the AI is asked to move through the LLM
  engine or the worker. The class `Engine` performs each step on its fields and
  is proved equal to a pure step function on `EngineState`; the lemmas prove
  that piece ids stay distinct, reported ids really left the scene, the rook
  lands where chess puts it, and the AI is asked to move exactly when it should.
- **LLM opponent** (`llm_engine.dfy`, `llm_response.dfy`, `event_stream.dfy`):
  the retry loop of `calcMove` (three attempts), the three-stage reply parser,
  the SSE and Anthropic stream readers and the endpoint choice.
- **Prompt budgeting** (`context_manager.dfy`, `memory_summarizer.dfy`,
  `token_estimator.dfy`, `prompts.dfy`): token estimation, the model budgets,
  the memory summary and the history truncation.
- **Memory** (`game_memory.dfy`, `game_history_store.dfy`): the per-game move
  log and the stored game history.
- **Move insights** (`insight_engine.dfy`, `board_geometry.dfy`): scoring of
  every legal move, the quality ladder, and the hanging-piece and
  abandoned-piece overrides.
- **Gamification and events** (`gamification.dfy`, `event_bus.dfy`,
  `game_flow.dfy`): streaks, toasts, accuracy, the publish/subscribe bus, and
  the game shell's end-of-game and reaction logic.
- **Text** (`text.dfy`): the JavaScript string and array operations the core
  relies on (`slice` with negative bounds, `split`, `join`, `trim`, `filter`).

The rules engine (chess.js), the language-model provider, JSON parsing, the
clock and random ids are parameters of the model. Scores are kept in tenths
of a pawn, so the source's thresholds 8, 2 and 5 become 80, 20 and 50, and
checkmate's score is 1000.

Three behaviours of the code are easy to misread, and the model keeps them as
written:

- The abandoned-piece check applies only to a verdict that is still "good"
  after the hanging-piece check; an "inaccuracy" is never re-examined
  (src/llm/InsightEngine.ts:68-69).
- When the search worker delivers the AI's move, the code only calls the
  end-game callback. It neither saves the game to the LLM history nor emits
  `game:end` (src/logic/ChessGameEngine/ChessGameEngine.ts:247-251).
- Castling moves the rook in a step of its own, and that step never fails (src/logic/ChessGameEngine/ChessGameEngine.ts:352-364).

## Model

| member | source | states |
|---|---|---|
| TokenEstimator.Estimate | src/llm/context/TokenEstimator.ts:24-26 | the estimate is the least token count that covers the text at four characters per token (`Math.ceil(length / 4)`) |
| TokenEstimator.EstimateMonotone | src/llm/context/TokenEstimator.ts:24-26 | a longer text never gets a smaller estimate |
| TokenEstimator.ModelLimit | src/llm/context/TokenEstimator.ts:1-30 | a listed model gets its listed limit, every other model id gets 32000, and no limit is below 32000 |
| TokenEstimator.AvailableBudget | src/llm/context/TokenEstimator.ts:20-35 | the budget plus the two 600-token reserves is exactly the model's limit |
| TokenEstimator.BudgetInfo | src/llm/context/TokenEstimator.ts:37-47 | `used` is passed through, `remaining` is never negative, is 0 exactly when the budget is used up, and otherwise completes `used` to the budget |
| Prompts.SystemPrompt | src/llm/prompts.ts:3-15 | the system prompt contains the JSON response format the reply parser expects |
| Prompts.OptionalLines | src/llm/prompts.ts:33-39 | the context line is present exactly when there is a summary, the history line exactly when there is a PGN, in that order |
| Prompts.PromptLines | src/llm/prompts.ts:26-45 | position, colour and legal-move lines first, then the optional context and history lines, then the style line and the closing line |
| Prompts.PromptExtendsMinimal | src/llm/prompts.ts:26-45 | the user prompt is the minimal prompt with the optional lines spliced in after the third line, so it is never shorter than the minimal prompt |
| GameMemory.MakeEntry | src/llm/memory/GameMemory.ts:14-25 | the entry keeps the move's fields; it is a capture iff the flags hold `c` or `e`, a check iff the SAN holds `+` or `#`, a promotion iff the flags hold `p`, and a castle iff the flags are exactly `k` or `q` |
| GameMemory.CastleExcludesCaptureAndPromotion | src/llm/memory/GameMemory.ts:20-23 | a castling entry is never also a capture or a promotion |
| GameMemory.GameMemory.RecordMove | src/llm/memory/GameMemory.ts:6-26 | appends exactly one entry and leaves the earlier ones untouched |
| GameMemory.GameMemory.GetMoves | src/llm/memory/GameMemory.ts:28-30 | returns the whole log |
| GameMemory.GameMemory.GetLastMoves | src/llm/memory/GameMemory.ts:32-34 | `slice(-count)`: the last `count` entries for 0 < count <= length, and the whole log for count 0 (since `-0` is `0`) or count >= length |
| GameMemory.GameMemory.GetKeyMoments | src/llm/memory/GameMemory.ts:36-40 | exactly the entries with one of the four flags, in log order |
| GameMemory.GameMemory.GetMoveCount | src/llm/memory/GameMemory.ts:42-44 | the number of entries |
| GameMemory.GameMemory.Clear | src/llm/memory/GameMemory.ts:46-48 | the log is empty |
| GameMemory.KeyMomentsAfterRecord | src/llm/memory/GameMemory.ts:14-40 | recording a move extends the key moments by that entry exactly when it is one |
| GameHistoryStore.History | src/llm/memory/GameHistoryStore.ts:19-27 | the stored list, or the empty list when the entry is missing or does not parse |
| GameHistoryStore.Saved | src/llm/memory/GameHistoryStore.ts:4-17 | the new record comes first, followed by the older records, capped at fifty by dropping the oldest |
| GameHistoryStore.FindGame | src/llm/memory/GameHistoryStore.ts:29-31 | the first record with the identifier, and none exactly when no record has it |
| GameHistoryStore.ResultText | src/llm/memory/GameHistoryStore.ts:38-41 | a draw reads "ended in a draw" (and only a draw does), a white win "white won" and a black win "black won" |
| GameHistoryStore.LastGameSummary | src/llm/memory/GameHistoryStore.ts:33-44 | absent exactly for an empty history, otherwise a description of the newest game |
| GameHistoryStore.GameHistoryStore.Save | src/llm/memory/GameHistoryStore.ts:7-17 | the stored list becomes `Saved` of the readable history: the record at index 0, length min(old + 1, 50), the older records after it in their order with only the oldest dropped |
| GameHistoryStore.GameHistoryStore.GetHistory | src/llm/memory/GameHistoryStore.ts:19-27 | returns `History` of the cell: the stored list, or [] when the entry is missing or does not parse |
| GameHistoryStore.GameHistoryStore.GetGame | src/llm/memory/GameHistoryStore.ts:29-31 | returns `FindGame` of the readable history: the first record with the identifier, none iff no record has it |
| GameHistoryStore.GameHistoryStore.GetLastGameSummary | src/llm/memory/GameHistoryStore.ts:33-44 | returns `LastGameSummary` of the readable history: none iff it is empty, else the newest game's description |
| GameHistoryStore.GameHistoryStore.ClearHistory | src/llm/memory/GameHistoryStore.ts:46-48 | the history reads as empty afterwards |
| GameHistoryStore.SummaryAfterSave | src/llm/memory/GameHistoryStore.ts:7-44 | after a save, the next summary describes the game just saved |
| GameHistoryStore.SaveTwiceOrder | src/llm/memory/GameHistoryStore.ts:7-17 | after two saves, the later game comes first and the earlier game second |
| GameHistoryStore.SavedGameFound | src/llm/memory/GameHistoryStore.ts:7-31 | a game just saved is found again by its identifier |
| TokenEstimator.EstimateEmpty | src/llm/context/TokenEstimator.ts:24-26 | the empty text costs no tokens |
| GameMemory.GameMemory.constructor | src/llm/memory/GameMemory.ts:3-4 | a new memory holds no entries |
| GameHistoryStore.GameHistoryStore.constructor | src/llm/memory/GameHistoryStore.ts:3 | the store starts from whatever the storage entry holds |
| ContextManager.Allotment | src/llm/context/ContextManager.ts:32-35 | the summary allotment is `floor(0.4 * (budget - used))` capped at 800: below the cap it is the exact floor of two fifths of the remaining budget, and it is 800 exactly when two fifths of the remainder reach 800 |
| ContextManager.DigitRun | src/llm/context/ContextManager.ts:57 | the maximal run of digits starting at a position |
| ContextManager.MoveNumberAt | src/llm/context/ContextManager.ts:57 | a match of the move-number pattern ends past a dot, and text without a dot has no match |
| ContextManager.SplitWithoutDot | src/llm/context/ContextManager.ts:57 | text without a dot splits into itself |
| ContextManager.LastSegments | src/llm/context/ContextManager.ts:57-58 | at most twenty segments, none empty: the last twenty non-empty pieces of the PGN split at move numbers |
| ContextManager.LastTwenty | src/llm/context/ContextManager.ts:58 | `slice(-20)`: the whole list when it has at most twenty entries, otherwise its last twenty |
| ContextManager.TruncatedHistory | src/llm/context/ContextManager.ts:56-59 | the truncated history starts with the `[...] ` marker |
| ContextManager.SummaryChoice | src/llm/context/ContextManager.ts:31-47 | a summary is adopted only when there are memories and the allotment is above 50; it is then the compressed rationales for that allotment, never above 3200 characters |
| ContextManager.HistoryChoice | src/llm/context/ContextManager.ts:49-67 | the full PGN whenever it fits under 90% of the budget, otherwise the truncated PGN if that fits, otherwise none; whatever is adopted fits |
| ContextManager.AdoptSummary | src/llm/context/ContextManager.ts:22-47 | the minimal request with the chosen summary, and the token count of its prompt |
| ContextManager.AdoptHistory | src/llm/context/ContextManager.ts:49-67 | the request with the chosen history, and the token count of its prompt |
| ContextManager.ContextManager.BuildPromptWithBudget | src/llm/context/ContextManager.ts:14-76 | the fixed system prompt, the user prompt of the final request, and a usage report against this model's budget that never falls below the minimal prompt's estimate |
| MemorySummarizer.GamePhases | src/llm/context/MemorySummarizer.ts:53-59 | the opening is the first ten moves and the middlegame moves 11-30; together with the endgame they are the whole log |
| MemorySummarizer.Sans | src/llm/context/MemorySummarizer.ts:64 | the moves' SANs, in order |
| MemorySummarizer.PhaseParts | src/llm/context/MemorySummarizer.ts:61-71 | the moves first, then the capture count and the check count, each only when positive |
| MemorySummarizer.QuietPhaseIsJustMoves | src/llm/context/MemorySummarizer.ts:61-71 | a phase without captures or checks is described by its moves alone |
| MemorySummarizer.EventsOf | src/llm/context/MemorySummarizer.ts:77-85 | one event per flag of the move, in the order capture, check, castle, each line naming its kind |
| MemorySummarizer.AllKeyEventsAppend | src/llm/context/MemorySummarizer.ts:73-90 | the key events of consecutive logs concatenate |
| MemorySummarizer.ExtractKeyEvents | src/llm/context/MemorySummarizer.ts:73-90 | at most ten events: the last ten of all key events when there are that many |
| MemorySummarizer.PushEvents | src/llm/context/MemorySummarizer.ts:77-85 | one loop pass appends exactly that move's events |
| MemorySummarizer.MiddlegameRangeOfLog | src/llm/context/MemorySummarizer.ts:15-19 | for a log longer than ten moves the middlegame label starts at the opening length + 1, which is 11, and ends at start + middlegame length - 1, which is `min(30, length)` |
| MemorySummarizer.SummarizeMoves | src/llm/context/MemorySummarizer.ts:4-26 | the summary is empty exactly for an empty log |
| MemorySummarizer.QuotesOnlyLastThree | src/llm/context/MemorySummarizer.ts:30-36 | rationales are quoted from the last three moves only, and never an empty one |
| MemorySummarizer.CompressReasonings | src/llm/context/MemorySummarizer.ts:28-51 | the result is a prefix of the recent analysis or of the combined text, at most four characters per allotted token, and the whole combined text whenever that fits; for a non-negative budget, when the recent analysis alone is over budget the result is exactly its first `4 * budget` characters, and when only the combined text is over budget it is exactly the first `4 * budget` characters of that text |
| MemorySummarizer.Compress | src/llm/context/MemorySummarizer.ts:38-50 | the same budget decision over any two candidate texts, including which prefix each truncating branch returns |
| MemorySummarizer.TruncatedPrefix | src/llm/context/MemorySummarizer.ts:40-47 | cutting a text to `budget * 4` characters keeps a prefix of it within that length, and for a non-negative budget that prefix is the first `min(4 * budget, length)` characters |
| ContextManager.ContextManager.constructor | src/llm/context/ContextManager.ts:7-12 | the manager keeps the model id it is given |
| EventStream.SseAction | src/llm/LLMProvider.ts:47-65 | only `data: ` lines count; the payload `[DONE]` ends the stream, and otherwise the extracted content is emitted when non-empty |
| EventStream.AnthropicAction | src/llm/providers/AnthropicProvider.ts:84-99 | only `data: ` lines count; a `content_block_delta` with non-empty text is emitted, `message_stop` ends the stream, and everything else, malformed JSON included, is skipped |
| EventStream.SseEmitsText | src/llm/LLMProvider.ts:58-61 | the generic reader never emits an empty chunk |
| EventStream.AnthropicEmitsText | src/llm/providers/AnthropicProvider.ts:90-95 | the Anthropic reader never emits an empty chunk |
| EventStream.ConcatAppend | src/llm/LLMProvider.ts:43 | reading in two batches buffers the concatenation |
| EventStream.LinesCoverText | src/llm/LLMProvider.ts:44-45 | every character read is in exactly one complete line or in the kept buffer, in order |
| EventStream.CompleteLinesAppend | src/llm/LLMProvider.ts:43-45 | appending a read keeps the complete lines seen so far and continues the buffered piece |
| EventStream.TrailingPartialIgnored | src/llm/LLMProvider.ts:44-45 | a last piece without a line feed is never processed |
| EventStream.FoldFromAppend | src/llm/LLMProvider.ts:47-65 | processing two batches of lines in turn is processing their concatenation |
| EventStream.FinishedStays | src/llm/LLMProvider.ts:50-53 | after the reader has returned, later lines change nothing |
| EventStream.StepSettled | src/llm/LLMProvider.ts:47-65 | one line keeps the invariant: emitted chunks are non-empty texts whose concatenation is the text, and a done chunk is only the last |
| EventStream.FoldFromSettled | src/llm/LLMProvider.ts:47-65 | any number of lines keep that invariant |
| EventStream.OutcomeShape | src/llm/LLMProvider.ts:39-69 | every stream ends with exactly one done chunk, last; the chunks before it are non-empty texts, and the returned text is their concatenation |
| EventStream.FinishIgnoresLater | src/llm/LLMProvider.ts:50-53 | a line that ends the stream makes every later line irrelevant |
| EventStream.NoFinishEmitsAll | src/llm/LLMProvider.ts:68-69 | a stream without a terminating line is finished by the final done chunk |
| EventStream.ProcessLines | src/llm/LLMProvider.ts:47-65 | the line loop computes the fold over its lines |
| EventStream.ReadDataLines | src/llm/LLMProvider.ts:34-69 | the read loop's result depends only on the complete lines of everything read, however the stream was cut into reads |
| EventStream.ReadToEnd | src/llm/LLMProvider.ts:50-53 | once a prefix of the reads has finished the stream, the later reads do not matter |
| EventStream.ParseSseStream | src/llm/LLMProvider.ts:29-70 | `parseSSEStream` returns the fold's text and emits its chunks: exactly one done chunk, last, after non-empty texts that make up the returned text |
| EventStream.GetEndpoint | src/llm/LLMProvider.ts:20-25 | the proxy URL when one is configured and non-empty, otherwise the direct endpoint |
| EventStream.AnthropicComplete | src/llm/providers/AnthropicProvider.ts:48-108 | a non-ok response fails with the status before any chunk; otherwise the body is read with the Anthropic classifier, and the stream has the same shape |
| LlmResponse.TokenAt | src/llm/LLMEngine.ts:208 | a match of the bare-move pattern at a position is a well-formed move in long algebraic notation |
| LlmResponse.FindToken | src/llm/LLMEngine.ts:208-211 | the token found is a well-formed move that occurs in the text |
| LlmResponse.FindTokenLeftmost | src/llm/LLMEngine.ts:208-211 | the search finds nothing exactly when no position of the text starts a token, and otherwise the token at the leftmost such position |
| LlmResponse.BareMoveFound | src/llm/LLMEngine.ts:208-211 | a reply that is exactly a move is found whole |
| LlmResponse.IndexOf | src/llm/LLMEngine.ts:196-198 | the first occurrence of a character at or after a position, and none exactly when it does not occur there |
| LlmResponse.FindFragmentNone | src/llm/LLMEngine.ts:196-198 | the fragment search finds nothing exactly when no position starts a `{...}` span holding a `"move": "<uci>"` field |
| LlmResponse.FragmentStart | src/llm/LLMEngine.ts:196-198 | a fragment found starts at the leftmost position that starts one: an opening brace whose span to the first closing brace holds the move field |
| LlmResponse.FragmentFromStart | src/llm/LLMEngine.ts:196-198 | the fragment found runs from that start to the first closing brace after it |
| LlmResponse.FoundFragmentBraced | src/llm/LLMEngine.ts:196-198 | a fragment found occurs in the text, opens with a brace and ends at the first closing brace after it |
| LlmResponse.BracedShape | src/llm/LLMEngine.ts:196-198 | the text from an opening brace to the first closing brace after it is such a fragment |
| LlmResponse.ParseResponseStages | src/llm/LLMEngine.ts:184-214 | the whole text wins when it parses with a string `move`; then the parsed fragment; then the bare token, with the whole text as the reasoning; nothing is found only when all three stages fail |
| LlmResponse.BareMoveReply | src/llm/LLMEngine.ts:207-211 | a reply that is a bare move and not JSON is read as that move, with itself as the reasoning |
| LlmResponse.NoBraceNoFragment | src/llm/LLMEngine.ts:196-198 | text without an opening brace has no fragment |
| LlmResponse.DecomposeSlices | src/llm/LLMEngine.ts:112-114 | the parts are `slice(0, 2)` and `slice(2, 4)`, and a promotion piece is present exactly for moves longer than four characters |
| LlmResponse.DecomposeSpell | src/llm/LLMEngine.ts:112-114 | decomposing a well-formed move and spelling it as the legal list does gives it back |
| LlmEngine.LegalUci | src/llm/LLMEngine.ts:56-59 | one entry per legal move, spelled `from + to + promotion` |
| LlmEngine.AttemptOutcome | src/llm/LLMEngine.ts:82-125 | an attempt is accepted only if the call returned, the answer parses to a move in the legal list, and the rules engine plays it |
| LlmEngine.LegalBareMoveAccepted | src/llm/LLMEngine.ts:98-125 | an answer that is just a legal move, which the rules engine plays, is accepted as that move |
| LlmEngine.ThrowingAttemptFails | src/llm/LLMEngine.ts:148-150 | an attempt whose call threw never yields a move, whatever it streamed |
| LlmEngine.AttemptUpdates | src/llm/LLMEngine.ts:83-95 | each attempt sends the start notice, then one update per streamed chunk |
| LlmEngine.JudgeForJudges | src/llm/LLMEngine.ts:98-125 | the judgement the retry loop is handed is the engine's own |
| LlmEngine.Completions | src/llm/LLMEngine.ts:81-96 | the k-th completion is the provider's answer to the k-th call with the same prompts |
| LlmEngine.TryAttempt | src/llm/LLMEngine.ts:98-125 | one pass of the loop's checks yields exactly the attempt's outcome |
| LlmEngine.RetryLoop | src/llm/LLMEngine.ts:81-151 | one to three calls; every call before the last was rejected; the result is the last call's outcome; no move means three calls; the updates sent are those of the calls made |
| LlmEngine.LLMEngine.constructor | src/llm/LLMEngine.ts:22-31 | a fresh empty log, a counter at 0 and no reasoning |
| LlmEngine.LLMEngine.Init | src/llm/LLMEngine.ts:33-37 | loads the position when the FEN is accepted, clears the log and resets the counter |
| LlmEngine.LLMEngine.UpdateWithMove | src/llm/LLMEngine.ts:39-51 | plays the opponent's move when the rules engine accepts it, always counts and logs it, with no reasoning |
| LlmEngine.LLMEngine.CalcMove | src/llm/LLMEngine.ts:53-160 | at most three calls with the budgeted prompts; the first accepted attempt is played, counted, logged with its reasoning and announced; if all three fail, game, counter and log are untouched and one failure notice is sent |
| LlmEngine.LLMEngine.PreparePrompts | src/llm/LLMEngine.ts:54-75 | the fixed system prompt and the budgeted user prompt for the current game and log |
| LlmEngine.LLMEngine.Commit | src/llm/LLMEngine.ts:127-159 | plays, counts, logs and announces an accepted attempt, or sends the failure notice and changes nothing else |
| LlmEngine.LLMEngine.SaveGameToHistory | src/llm/LLMEngine.ts:166-182 | stores a record of this game, with its PGN, provider, model and move count, at the front of the history |
| BoardGeometry.SquareName | src/llm/InsightEngine.ts:207 | the name of a square is a file letter a-h followed by a rank digit 1-8 |
| BoardGeometry.TargetsBound | src/llm/InsightEngine.ts:205-213 | at most one square per offset, each the piece's square moved by one of the offsets |
| BoardGeometry.RayShape | src/llm/InsightEngine.ts:215-227 | a slider's ray holds at most seven squares on one line, one step apart, and every square but the last is empty |
| BoardGeometry.RayStops | src/llm/InsightEngine.ts:215-227 | every square of a ray is on the board, and a ray shorter than seven squares ends on an occupied square or where the next step leaves the board |
| BoardGeometry.KnightAtMostEight | src/llm/InsightEngine.ts:211-213 | a knight attacks at most eight squares |
| BoardGeometry.PawnDiagonals | src/llm/InsightEngine.ts:255-258 | a pawn attacks only the two forward diagonals of its colour that are on the board |
| BoardGeometry.KingAttacksNothing | src/llm/InsightEngine.ts:211-259 | the pattern gives a king no attacked squares |
| BoardGeometry.SlideOne | src/llm/InsightEngine.ts:216-226 | one direction's inner loop appends exactly that direction's ray |
| BoardGeometry.Slide | src/llm/InsightEngine.ts:215-227 | the direction loop appends the rays one after another |
| BoardGeometry.AttackedSquaresFrom | src/llm/InsightEngine.ts:199-262 | `getAttackedSquaresFrom` computes the attack pattern of each kind: knight offsets, bishop, rook and queen rays, pawn diagonals |
| BoardGeometry.ScanFromMeaning | src/llm/InsightEngine.ts:277-292 | the scan of one direction answers whether the first two pieces met are both the opponent's |
| BoardGeometry.ScanDirectionMeaning | src/llm/InsightEngine.ts:277-292 | the scan from the destination square, starting with nothing seen, answers that question |
| BoardGeometry.ScanDirection | src/llm/InsightEngine.ts:278-291 | one direction's loop answers whether the first two pieces on the ray are both the opponent's |
| BoardGeometry.CreatesPinOrSkewer | src/llm/InsightEngine.ts:264-295 | `createsPinOrSkewer` holds exactly when the piece is a slider and one of its directions meets two opponent pieces before any piece of its own |
| BoardGeometry.NonSliderNoPin | src/llm/InsightEngine.ts:267 | a knight, pawn or king never creates a pin or skewer |
| BoardGeometry.ForkBonus | src/llm/InsightEngine.ts:196 | the fork bonus is 4 points or nothing |
| BoardGeometry.ForkTargetsAreValuable | src/llm/InsightEngine.ts:189-196 | only opponent pieces worth at least 3 count, and the bonus is paid exactly when there are at least two of them |
| BoardGeometry.DetectFork | src/llm/InsightEngine.ts:179-197 | `detectFork`'s counting loop pays exactly the fork bonus |
| InsightEngine.ThreatSquaresMeaning | src/llm/InsightEngine.ts:165-177 | a square is counted as a threat exactly when some capturing move lands on it |
| InsightEngine.ThreatCountBound | src/llm/InsightEngine.ts:165-177 | there are never more threats than moves |
| InsightEngine.MateScoresTop | src/llm/InsightEngine.ts:106-109 | a mating move scores exactly 100 points, whatever it captures |
| InsightEngine.CaptureTermCases | src/llm/InsightEngine.ts:88-100 | a capture of equal or higher value earns twice the captured value plus one; a cheaper capture earns the value difference (negative) when the square is defended, and twice the captured value otherwise |
| InsightEngine.SafetyPenaltyNeedsQuietReply | src/llm/InsightEngine.ts:155-160 | the safety penalty applies only if some reply lands on the destination without capturing, so it never applies while the moved piece stands there |
| InsightEngine.CountThreats | src/llm/InsightEngine.ts:165-177 | `countThreats`' loop with its `seen` set counts the distinct destination squares of capturing moves |
| InsightEngine.ScoreMove | src/llm/InsightEngine.ts:84-163 | `scoreMove` adds the ten terms in order and returns early on mate |
| InsightEngine.ClassifyLadder | src/llm/InsightEngine.ts:40-56 | brilliant iff the player's move is not behind the best and scores at least 8; good iff not behind and under 8, or at most 2 behind; inaccuracy iff 2 to 5 behind; missed win iff more than 5 behind and the best scores at least 8; blunder otherwise |
| InsightEngine.ClassifyMonotone | src/llm/InsightEngine.ts:40-56 | a better score never gets a worse verdict |
| InsightEngine.ExplanationNamesMove | src/llm/InsightEngine.ts:321-366 | every explanation names the move it explains |
| InsightEngine.Cheapest | src/llm/InsightEngine.ts:379-380 | the chosen capturer is one of the capturers and none ranks cheaper, a king ranking as 99 |
| InsightEngine.CheapestIsFirst | src/llm/InsightEngine.ts:379-380 | among capturers of equal rank the earliest is chosen |
| InsightEngine.Hanging | src/llm/InsightEngine.ts:368-396 | a hanging piece is reported only when some reply captures on its square; it is a blunder for a piece worth 5 or more, otherwise an inaccuracy |
| InsightEngine.AbandonedFromMeaning | src/llm/InsightEngine.ts:406-431 | the scan reports exactly when some remaining reply abandons a piece, and always as a blunder |
| InsightEngine.AbandonedMeaning | src/llm/InsightEngine.ts:398-435 | an abandoned piece is reported exactly when some reply wins a rook or queen more cheaply from a square the moved piece left or defended, and always as a blunder |
| InsightEngine.OverridesOnlyWorsen | src/llm/InsightEngine.ts:58-76 | the two checks only worsen the verdict: brilliant moves, missed wins and blunders keep it, and a changed verdict is an inaccuracy or a blunder |
| InsightEngine.FindSan | src/llm/InsightEngine.ts:21 | the first legal move with the SAN, and none exactly when no legal move has it |
| InsightEngine.Scores | src/llm/InsightEngine.ts:26-29 | one score per legal move, each its `scoreMove` |
| InsightEngine.BestIndex | src/llm/InsightEngine.ts:30-33 | the head of the stable descending sort: the highest score, first among equals |
| InsightEngine.SanScore | src/llm/InsightEngine.ts:32 | the player's score is the highest among the moves with the player's SAN |
| InsightEngine.LadderInsightShape | src/llm/InsightEngine.ts:36-56 | the ladder's verdict, and the best move named exactly when the verdict is worse than good |
| InsightEngine.UnknownMoveIsGood | src/llm/InsightEngine.ts:17-24 | a move not among the legal moves, or a FEN that does not load, is judged good without comment |
| InsightEngine.JudgementVerdict | src/llm/InsightEngine.ts:36-78 | the verdict is the ladder's verdict, worsened only by the two checks; the better move is the best move and is named only with a verdict worse than good |
| InsightEngine.AnalysisVerdict | src/llm/InsightEngine.ts:16-82 | the same, for `analyzePlayerMove` on a legal move, in terms of the scores of all the legal moves |
| InsightEngine.CheckAbandonedPiece | src/llm/InsightEngine.ts:398-435 | the replies are scanned in order and the first abandoning one is reported |
| InsightEngine.ScoreAll | src/llm/InsightEngine.ts:26-29 | the scoring map gives each legal move its `scoreMove` |
| InsightEngine.AnalyzePlayerMove | src/llm/InsightEngine.ts:16-82 | `analyzePlayerMove`: score the legal moves one by one, then judge |
| Gamification.Run | src/game/GamificationEngine.ts:18-32 | the current streak is never longer than the record |
| Gamification.Longest | src/game/GamificationEngine.ts:18-22 | the best streak lies between the current streak and the record's length |
| Gamification.RunIsGood | src/game/GamificationEngine.ts:18-32 | the current streak is made of good or brilliant moves only, and the move before it was neither |
| Gamification.LongestIsLongest | src/game/GamificationEngine.ts:18-22 | no stretch of good or brilliant moves is longer than the best streak |
| Gamification.RunCoversStretch | src/game/GamificationEngine.ts:18-32 | a good stretch that reaches the end of the record is part of the current streak |
| Gamification.RecordStep | src/game/GamificationEngine.ts:15-32 | a good or brilliant move extends the streak by one and any other verdict resets it to 0; the best streak rises to the new streak when it is longer |
| Gamification.StreakToastWhen | src/game/GamificationEngine.ts:23-29 | a streak toast is raised exactly when a good or brilliant move makes the streak 3, 5 or 10 long |
| Gamification.CountOf | src/game/GamificationEngine.ts:45-47 | a count never exceeds the record's length |
| Gamification.CountsBounded | src/game/GamificationEngine.ts:45-47 | no move is counted under two verdicts |
| Gamification.Weight | src/game/GamificationEngine.ts:55-61 | every weight lies between 10 and 100 |
| Gamification.Total | src/game/GamificationEngine.ts:62 | the weight total lies between 10 and 100 per move |
| Gamification.RoundedMeanNearest | src/game/GamificationEngine.ts:63 | the rounded mean is within half of the exact mean, with halves rounded up as `Math.round` does for non-negative values |
| Gamification.AccuracyBounds | src/game/GamificationEngine.ts:53-64 | accuracy is 0 with no moves and otherwise lies between 10 and 100 |
| Gamification.AnnounceStreak | src/game/GamificationEngine.ts:23-29 | the streak branch raises the toast for a streak of 3, 5 or 10, and none otherwise |
| Gamification.AnnounceQuality | src/game/GamificationEngine.ts:34-40 | the verdict branch raises the toast for a brilliant move, a blunder or a missed win, and none otherwise |
| Gamification.Engine.constructor | src/game/GamificationEngine.ts:5-13 | an empty record with both streaks at 0 |
| Gamification.Engine.RecordMoveQuality | src/game/GamificationEngine.ts:15-41 | appends the verdict, applies the streak rule, keeps both streaks equal to the record's current and longest good run, and raises the streak toast before the verdict's toast |
| Gamification.Engine.GetEndGameStats | src/game/GamificationEngine.ts:43-51 | the three counts, the best streak and the accuracy; the counts add up to at most the number of moves |
| Gamification.Engine.CalculateAccuracy | src/game/GamificationEngine.ts:53-64 | the rounded mean weight, 0 with no moves |
| Gamification.Engine.Reset | src/game/GamificationEngine.ts:66-70 | empty record and both streaks at 0; shown toasts stay shown |
| Events.Subscribe | src/events/EventBus.ts:6-11 | subscribing adds the event to the known events |
| Events.IndexOf | src/events/EventBus.ts:16 | `indexOf`: -1 exactly when the handler is absent, otherwise its first position |
| Events.RemoveFirstMultiset | src/events/EventBus.ts:16-17 | removing the first occurrence takes out exactly one copy of a present handler and nothing otherwise |
| Events.Unsubscribe | src/events/EventBus.ts:13-18 | unsubscribing never adds or removes an event |
| Events.SubscribeAppends | src/events/EventBus.ts:6-11 | `on` appends the handler to the event's list and leaves every other event as it was |
| Events.UnsubscribeRemovesOne | src/events/EventBus.ts:13-18 | `off` takes out exactly one copy of a subscribed handler, none of an absent one, and leaves other events as they were |
| Events.UnsubscribeKeepsOrder | src/events/EventBus.ts:13-18 | `off` removes the first occurrence and keeps the other handlers in subscription order |
| Events.SubscribeUnsubscribe | src/events/EventBus.ts:6-18 | subscribing a handler that was not on the list and unsubscribing it again changes nothing an emit can see |
| Events.Failing | src/events/EventBus.ts:20-30 | the logged handlers are exactly the handlers that throw, in call order |
| Events.EventBus.constructor | src/events/EventBus.ts:4 | no handlers |
| Events.EventBus.On | src/events/EventBus.ts:6-11 | the handler map becomes `Subscribe` of the old one, so by `SubscribeAppends` the handler is appended to its event's list (duplicates kept) and every other event is unchanged |
| Events.EventBus.Off | src/events/EventBus.ts:13-18 | the handler map becomes `Unsubscribe` of the old one, so by `UnsubscribeRemovesOne` and `UnsubscribeKeepsOrder` only the first occurrence goes and other events are unchanged; unknown event or handler: no change |
| Events.EventBus.Emit | src/events/EventBus.ts:20-30 | every subscribed handler is called in order; a handler that throws is logged and the rest still run |
| Events.EventBus.Clear | src/events/EventBus.ts:32-34 | no event has any handler left |
| Events.FindHandler | src/events/EventBus.ts:16 | the search loop finds `indexOf`'s position |
| Events.SpliceOut | src/events/EventBus.ts:16-17 | `indexOf` followed by `splice(idx, 1)` removes the first occurrence |
| GameFlow.CheckmateMessage | src/game/Game.ts:248-252 | on checkmate the message is the player's loss exactly when the player is the side to move, and the player's win otherwise |
| GameFlow.MessagePriority | src/game/Game.ts:248-258 | checkmate is checked first, then stalemate, threefold repetition and draw; each message shows only when every earlier condition is false, and "Game over" when none holds |
| GameFlow.ResultTypeCases | src/game/Game.ts:229-234 | a loss iff checkmate with the player to move, a win iff checkmate with the opponent to move, a draw iff no checkmate |
| GameFlow.ResultMatchesMessage | src/game/Game.ts:227-258 | the panel's result type and its headline never disagree |
| GameFlow.ResultMatchesEngine | src/game/Game.ts:229-234 | the shell's result type agrees with the result the game engine reports for the same position |
| GameFlow.GameEndLine | src/game/Game.ts:176-181 | the line handed to the opponent starts with "Game over: " |
| GameFlow.GameEndLineNames | src/game/Game.ts:176-181 | the line names both the result and the player's colour |
| GameFlow.OnEndGame | src/game/Game.ts:227-246 | the headline and result type, plus the streak statistics exactly when a streak record exists; the counts fit the record and the accuracy is the record's |
| GameFlow.RestartGame | src/game/Game.ts:260-271 | the streak record, when there is one, starts over |
| GameFlow.PlayerMoveReactionCases | src/game/Game.ts:130-135 | a blunder or missed win draws a comment on the move; otherwise a check draws a check comment; otherwise nothing is said; a comment always names the move |
| GameFlow.QualityLabel | src/game/Game.ts:118-122 | every verdict has a non-empty label |
| GameFlow.Commentary | src/game/Game.ts:122-126 | the commentary line starts with the verdict's label |
| GameFlow.CommentaryCarries | src/game/Game.ts:124 | the commentary carries the explanation, or the move played when there is none |
| GameFlow.OnPlayerMove | src/game/Game.ts:97-136 | commentary and one recorded verdict exactly when there is an insight and insights are on, then the reaction |
| GameFlow.AiMoveReactionCases | src/game/Game.ts:152-168 | the AI's own blunder or missed win silences every other reaction; otherwise a capture outranks a check, and a quiet move is celebrated; something is always said, naming the move |
| GameFlow.NoSelfReviewWithoutPosition | src/game/Game.ts:153 | without the position before the move, the AI never criticises its own move |
| GameFlow.OnAiMove | src/game/Game.ts:138-169 | the `ai:move` listener analyses the AI's move when it can, then picks one reaction |
| ChessGameEngine.CellOf | src/logic/ChessGameEngine/ChessGameEngine.ts:257-258 | every square of the board has a cell of the scene's 8x8 matrix |
| ChessGameEngine.CellSquareRoundTrip | src/logic/ChessGameEngine/ChessGameEngine.ts:282-283 | the square-to-cell and cell-to-square conversions are inverse to each other in both directions |
| ChessGameEngine.ResultOf | src/logic/ChessGameEngine/ChessGameEngine.ts:228-233 | a draw iff no checkmate; under checkmate the side not to move wins |
| ChessGameEngine.CastlingRook | src/logic/ChessGameEngine/ChessGameEngine.ts:352-364 | both cells of the castling rook's move lie on the board |
| ChessGameEngine.CastlingRookSquares | src/logic/ChessGameEngine/ChessGameEngine.ts:352-364 | the rook moves as in chess: h1 to f1 and a1 to d1 for White, h8 to f8 and a8 to d8 for Black |
| ChessGameEngine.EnPassantSquare | src/logic/ChessGameEngine/ChessGameEngine.ts:366-376 | the pawn taken en passant stands on the destination's file, one rank back toward the mover |
| ChessGameEngine.RemovedValid | src/logic/ChessGameEngine/ChessGameEngine.ts:321-325 | taking a piece off the scene keeps every remaining id distinct |
| ChessGameEngine.RelocatedValid | src/logic/ChessGameEngine/ChessGameEngine.ts:483-495 | moving a piece keeps the ids distinct and adds none; moving a piece that is not on the scene changes nothing |
| ChessGameEngine.PromoteValid | src/logic/ChessGameEngine/ChessGameEngine.ts:438-466 | promotion removes the pawn's id, gives the new piece a fresh id on the destination and keeps the ids distinct |
| ChessGameEngine.FlagsValid | src/logic/ChessGameEngine/ChessGameEngine.ts:332-350 | the flag step keeps the ids distinct, adds an id only for a promotion, and every id it reports was on the scene and is gone |
| ChessGameEngine.CapturedValid | src/logic/ChessGameEngine/ChessGameEngine.ts:316-326 | the capture step adds no id and every id it reports was on the scene and is gone |
| ChessGameEngine.PieceMoveRemovesReported | src/logic/ChessGameEngine/ChessGameEngine.ts:276-314 | a move keeps the ids distinct, and every id it reports removed belonged to a piece that is no longer on the scene |
| ChessGameEngine.FlagsKeepMover | src/logic/ChessGameEngine/ChessGameEngine.ts:338-349 | castling moves only the rook and en passant removes only an enemy pawn, so the moving piece keeps its place and id |
| ChessGameEngine.MoverLands | src/logic/ChessGameEngine/ChessGameEngine.ts:276-314 | after a move that is not a promotion the moving piece, with its id, stands on the destination |
| ChessGameEngine.AiPromotesToQueen | src/logic/ChessGameEngine/ChessGameEngine.ts:378-410 | the AI's promotion never stops the AI, puts a queen with a fresh id on the destination and tells the worker |
| ChessGameEngine.PieceMoveEffects | src/logic/ChessGameEngine/ChessGameEngine.ts:276-314 | the move step only appends score updates and promotion messages to what the engine sends out |
| ChessGameEngine.FlagsEffects | src/logic/ChessGameEngine/ChessGameEngine.ts:332-350 | the flag step only appends promotion messages |
| ChessGameEngine.NotifyAiDispatch | src/logic/ChessGameEngine/ChessGameEngine.ts:108-128 | the LLM engine learns the move first exactly when it is set and enabled; without an LLM answer exactly one worker request follows; without the LLM engine the worker request is all that is sent |
| ChessGameEngine.LlmMovedExtends | src/logic/ChessGameEngine/ChessGameEngine.ts:130-157 | the LLM's move only appends to what the engine sends out |
| ChessGameEngine.GameEndReports | src/logic/ChessGameEngine/ChessGameEngine.ts:150-172 | the game is saved to the LLM history iff an LLM engine is set; the game-end event and callback come last; the board is unchanged |
| ChessGameEngine.AfterPlayerMoveAsksAiIff | src/logic/ChessGameEngine/ChessGameEngine.ts:210-223 | after the player's move the AI is asked to move iff the AI is not stopped and the game is not over |
| ChessGameEngine.DropAsksAiIff | src/logic/ChessGameEngine/ChessGameEngine.ts:202-226 | the same holds for the whole drop, with the game as the move left it |
| ChessGameEngine.WorkerIgnoresOtherMessages | src/logic/ChessGameEngine/ChessGameEngine.ts:236-239 | worker messages other than aiMovePerformed change nothing |
| ChessGameEngine.SelectOnlyOwn | src/logic/ChessGameEngine/ChessGameEngine.ts:577-589 | only the player's own pieces can be selected, and selecting changes nothing else |
| ChessGameEngine.Engine.constructor | src/logic/ChessGameEngine/ChessGameEngine.ts:618-652 | the engine starts from the given position and pieces, with nothing selected, nothing pending and nothing sent |
| ChessGameEngine.Engine.RemovePiece | src/logic/ChessGameEngine/ChessGameEngine.ts:321-325 | the fields afterwards are `Removed` of the old state: the piece at the key leaves the scene, its id is returned (none when absent), and by `RemovedValid` the remaining ids stay distinct |
| ChessGameEngine.Engine.MovePieceToField | src/logic/ChessGameEngine/ChessGameEngine.ts:483-495 | the fields afterwards are `Relocated` of the old state: the piece keeps its id on the new cell, or nothing changes when it is not on the scene (`RelocatedValid`) |
| ChessGameEngine.Engine.HandleCastling | src/logic/ChessGameEngine/ChessGameEngine.ts:352-364 | the fields afterwards are `Castled` of the old state: only the castling rook moves, to the cell `CastlingRookSquares` proves is f1/d1/f8/d8 |
| ChessGameEngine.Engine.HandleEnPassant | src/logic/ChessGameEngine/ChessGameEngine.ts:366-376 | the fields afterwards are `EnPassant` of the old state: the enemy pawn one rank back toward the mover on the destination's file is removed and its id returned |
| ChessGameEngine.Engine.PromotePiece | src/logic/ChessGameEngine/ChessGameEngine.ts:438-481 | the fields afterwards are `Promote` of the old state: the pawn's id is removed and returned, a fresh id holds the chosen kind on the destination, the rules engine's position is updated and the worker is told (`PromoteValid`) |
| ChessGameEngine.Engine.HandlePromotion | src/logic/ChessGameEngine/ChessGameEngine.ts:378-410 | the player's promotion waits for a choice; the AI's becomes a queen |
| ChessGameEngine.Engine.HandleFlags | src/logic/ChessGameEngine/ChessGameEngine.ts:332-350 | the fields and result are `Flags` of the old state: "k"/"q" castle and return nothing, "e" returns the en passant id, a promotion flag promotes, any other flag changes nothing (`FlagsValid`) |
| ChessGameEngine.Engine.CapturePiece | src/logic/ChessGameEngine/ChessGameEngine.ts:316-326 | the fields and ids are `Captured` of the old state: a capture removes the taken piece from the destination, reports its id and adds one score update (`CapturedValid`) |
| ChessGameEngine.Engine.HandlePieceMove | src/logic/ChessGameEngine/ChessGameEngine.ts:276-314 | the fields and result are `PieceMove` of the old state: captured id first, then the flag's id; stopAi iff the promotion waits for the player (`PieceMoveRemovesReported`, `MoverLands`) |
| ChessGameEngine.Engine.GetGameResult | src/logic/ChessGameEngine/ChessGameEngine.ts:228-233 | the result is `ResultOf` the current position: the side not to move wins under checkmate, otherwise a draw |
| ChessGameEngine.Engine.EndTheGame | src/logic/ChessGameEngine/ChessGameEngine.ts:150-172 | the fields afterwards are `GameEnd` of the old state: a history save iff an LLM engine is set, then the game-end event and callback (`GameEndReports`) |
| ChessGameEngine.Engine.PerformAiMove | src/logic/ChessGameEngine/ChessGameEngine.ts:255-274 | the fields and result are `AiMove` of the old state: the AI's move is played with the piece standing on its origin cell |
| ChessGameEngine.Engine.NotifyLlmToMove | src/logic/ChessGameEngine/ChessGameEngine.ts:119-158 | the fields afterwards are `NotifyLlm` of the old state: the LLM engine learns the move, a missing answer posts exactly one worker request, a playable answer is played (`NotifyAiDispatch`) |
| ChessGameEngine.Engine.LlmMove | src/logic/ChessGameEngine/ChessGameEngine.ts:130-157 | the fields afterwards are `LlmMoved` of the old state: the move is played and announced, and the game ends iff the rules engine says it is over (`LlmMovedExtends`) |
| ChessGameEngine.Engine.NotifyAiToMove | src/logic/ChessGameEngine/ChessGameEngine.ts:108-117 | the fields afterwards are `NotifyAi` of the old state: the LLM path iff the LLM engine is set and enabled, else one worker request (`NotifyAiDispatch`) |
| ChessGameEngine.Engine.ReportMove | src/logic/ChessGameEngine/ChessGameEngine.ts:179-197 | the fields afterwards are `ReportPlayerMove` of the old state: one player:move event with capture, check and the insight |
| ChessGameEngine.Engine.FinishPlayerTurn | src/logic/ChessGameEngine/ChessGameEngine.ts:210-223 | the fields afterwards are `AfterPlayerMove` of the old state: the game ends if over, and the AI is asked iff it is not stopped and the game is not over (`AfterPlayerMoveAsksAiIff`) |
| ChessGameEngine.Engine.DropPiece | src/logic/ChessGameEngine/ChessGameEngine.ts:174-226 | the fields and result are `Drop` of the old state: the move, the insight on the position before it, the report and the AI dispatch (`DropAsksAiIff`) |
| ChessGameEngine.Engine.OnPromotionChosen | src/logic/ChessGameEngine/ChessGameEngine.ts:385-398 | the fields afterwards are `CompletePromotion` of the old state: the pending pawn becomes the chosen kind with a fresh id, the pending promotion is cleared and the AI is asked to move |
| ChessGameEngine.Engine.OnWorkerMessage | src/logic/ChessGameEngine/ChessGameEngine.ts:235-253 | the fields afterwards are `OnWorker` of the old state: only aiMovePerformed plays a move, and ends the game if over (`WorkerIgnoresOtherMessages`) |
| ChessGameEngine.Engine.SelectPiece | src/logic/ChessGameEngine/ChessGameEngine.ts:577-589 | the fields afterwards are `Select` of the old state: only a piece of the player's colour becomes selected (`SelectOnlyOwn`) |
| ChessGameEngine.Engine.Deselect | src/logic/ChessGameEngine/ChessGameEngine.ts:591-607 | a droppable field plays the move; the selection is released either way |
| Text.RelativeIndex | src/llm/context/MemorySummarizer.ts:30-31 | a slice bound lands in 0..length; a negative bound counts back from the end and is clamped at 0, a positive one is clamped at the length |
| Text.Slice | src/llm/LLMEngine.ts:112-113 | the slice is no longer than the input and is exactly the elements between the two resolved bounds |
| Text.LastNShape | src/llm/memory/GameMemory.ts:33 | slicing from -n keeps the last n elements when 0 < n <= length, and everything when n is 0 (since -0 is 0) or at least the length |
| Text.JoinAppend | src/llm/context/MemorySummarizer.ts:25 | joining two non-empty lists is joining each and putting the separator between |
| Text.Trim | src/llm/LLMProvider.ts:49 | the trimmed text is the middle of the input, with only white space cut off either end, and neither starts nor ends with white space |
| Text.TrimStart | src/llm/LLMProvider.ts:49 | drops a leading run of white space only, and what is left does not start with white space |
| Text.TrimEnd | src/llm/LLMProvider.ts:49 | drops a trailing run of white space only, and what is left does not end with white space |
| Text.Split | src/llm/LLMProvider.ts:44 | splitting yields at least one piece, and no piece holds the separator |
| Text.SplitJoin | src/llm/LLMProvider.ts:44 | joining the pieces with the separator gives the text back |
| Text.SplitAppend | src/llm/LLMProvider.ts:43-45 | splitting a text with more appended keeps every complete piece and re-splits only the last one with the addition |
| Text.SplitNoSeparator | src/llm/LLMProvider.ts:44 | text without the separator is a single piece |
| Text.NatToString | src/llm/prompts.ts:26-45 | a natural number prints as decimal digits whose value is the number, with no leading zero |
| Text.Filter | src/game/GamificationEngine.ts:45-47 | the filtered list holds exactly as many elements as satisfy the test, each satisfying it, all drawn from the input |
| Text.FilterAppend | src/llm/context/MemorySummarizer.ts:62-63 | filtering distributes over concatenation, so the input's order is kept |
| Text.FilterKeeps | src/llm/memory/GameMemory.ts:37-39 | every element that satisfies the test survives |

## Left out

- Asynchrony: `calcMove`, `notifyLLMToMove` and the provider streams are modelled as sequential steps. The LLM engine's answer and the stream's chunks are parameters.
- The 3D scene, physics, DOM panels, toasts on screen, the thinking panel and console logging are not modelled. The scene's pieces are a map from (colour, kind, cell) to an id, and everything the engine sends out is an ordered log of effects.
- The matrix helpers `getMatrixPosition` and `getChessNotation` are not part of this model. Their mapping is taken as row = rank - 1 and column = 7 - file, the one that fits the castling constants at src/logic/ChessGameEngine/ChessGameEngine.ts:353-360.
- The chess rules (chess.js: legal moves, check, checkmate, FEN) are a parameter `ChessRules` / `IE.Rules`, not a model of chess.
- The search worker is not part of this model. Messages to it appear as effects, and its reply is an input to `OnWorkerMessage`.
- `start`, `init`, `drawSide` (a random coin flip), `triggerLLMFirstMove`, `markPossibleMoveFields`, `moveSelectedPiece`, `update` and `cleanup` of ChessGameEngine are scene set-up and rendering. The constructor takes the side and the LLM settings that `start` decides.
- Network I/O, API keys, `validateKey`, `getProviderInfo` and the non-Anthropic providers are not modelled. A provider's `complete` is a parameter, and a transport failure is a throwing attempt.
- `JSON.parse` is an oracle parameter of the reply parser. `TextDecoder` is left out: chunks arrive as text.
- localStorage (de)serialisation is modelled only as "the stored list or nothing". `GameHistoryStore.generateId` (clock and random suffix) and the ISO date of a record are inputs.
- Floating point: scores, thresholds and accuracy are exact integers (scores in tenths). `Math.floor(x * 0.4)` is `(2 * x) / 5` and `Math.round(total / n)` is `(2 * total + n) / (2 * n)`. Both are exact for the non-negative values involved.
- TokenEstimator.Estimate: counts characters (Unicode scalar values), where JavaScript's `length` counts UTF-16 code units, so a character outside the Basic Multilingual Plane counts once here and twice in the game and the estimate can be lower for such text.
- MemorySummarizer.CompressReasonings: the 4-characters-per-token bound and the cut are in characters, not the UTF-16 code units of JavaScript's `length` and `slice`, for the same reason; every other string length in the model is likewise a character count.
- `createsPinOrSkewer` computes a `totalValue` that it never uses (src/llm/InsightEngine.ts:279,288). The model omits it.
- `SafetyPenaltyNeedsQuietReply` shows why the safety penalty of `scoreMove` never applies: every reply that lands on the moved-to square is a capture, so an attacked square is always counted as defended.
- `NoSelfReviewWithoutPosition` shows that the AI's self-review in the shell never runs: the `ai:move` payload of ChessGameEngine carries no `fenBefore` (src/game/Game.ts:153, src/logic/ChessGameEngine/ChessGameEngine.ts:136-143).
- `handlePieceMove` drops an en passant id of 0 (`isPieceIdToRemove`) but always pushes a captured piece's id, even an absent one. `FlagIds` and `Captured` keep this asymmetry.
- An LLM reply that the rules engine rejects makes `notifyLLMToMove` throw. The model ends the call there, and no fallback to the worker follows.
- Events: `emit` iterates the handler list as it stands when the call starts. A handler that subscribes or unsubscribes during an emit is not modelled, and neither is the data a handler receives.
- PersonalityEngine, NameGenerator, the settings store and the UI panels are not part of this model.
