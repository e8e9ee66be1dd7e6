/**
 * The remote-model opponent: it keeps its own copy of the game, a move log and a
 * move counter, and asks the model for a move at most three times, accepting
 * the first answer that parses, is in the legal list and is accepted by the
 * rules engine. The rules engine, the provider and JSON.parse are parameters;
 * the thinking callback is the log `thinking`.
 */
module LlmEngine {
  import opened Text
  import opened Prompts
  import opened GameMemory
  import opened LlmResponse
  import TokenEstimator
  import CM = ContextManager
  import GHS = GameHistoryStore
  import EventStream

  const MaxRetries: nat := 3

  /** A move as the rules engine reports it; `promotion` is "" for none. */
  datatype ChessMove = ChessMove(from: string, to: string, promotion: string, san: string, flags: string)

  /** What the engine reads from the rules engine's game. */
  datatype Position = Position(fen: string, pgn: string, whiteToMove: bool, legalMoves: seq<ChessMove>)

  /** The rules engine: loading a FEN and playing a move, each None when refused (the game is then unchanged). */
  datatype Rules = Rules(load: string -> Option<Position>, play: (Position, MoveParts) -> Option<(Position, ChessMove)>)

  /** A streamed piece of the answer, as the provider's reader emits it. */
  type Chunk = EventStream.Chunk

  /** One `provider.complete` call: the chunks it streamed, then the full text or an exception. */
  datatype Completion = Returned(chunks: seq<Chunk>, full: string) | Threw(chunks: seq<Chunk>)

  /** The provider: the k-th call's completion for the given system and user prompts. */
  type Provider = (string, string, nat) -> Completion

  datatype ThinkingUpdate = ThinkingUpdate(text: string, done: bool, reasoning: Option<string>, chosenMove: Option<string>)

  /** `m.from + m.to + (m.promotion || "")`. */
  function UciOf(m: ChessMove): string
  {
    m.from + m.to + m.promotion
  }

  function LegalUci(pos: Position): (legal: seq<string>)
    ensures |legal| == |pos.legalMoves|
    ensures forall k :: 0 <= k < |legal| ==> legal[k] == UciOf(pos.legalMoves[k])
  {
    seq(|pos.legalMoves|, k requires 0 <= k < |pos.legalMoves| => UciOf(pos.legalMoves[k]))
  }

  /** A successful attempt: the move text, its reasoning, the new game and the engine's move. */
  datatype Accepted = Accepted(uci: string, reasoning: string, after: Position, move: ChessMove)

  /**
   * What one attempt yields: nothing when the call threw, the answer does not
   * parse, its move is missing or not in the legal list, or the rules engine
   * refuses it.
   */
  function AttemptOutcome(c: Completion, pos: Position, parse: JsonParser, rules: Rules): (a: Option<Accepted>)
    ensures a.Some? ==> c.Returned? && a.value.uci in LegalUci(pos)
    ensures a.Some? ==> rules.play(pos, Decompose(a.value.uci)) == Some((a.value.after, a.value.move))
    ensures a.Some? ==> ParseResponse(c.full, parse) == Some(Reply(Some(a.value.uci), a.value.reasoning))
  {
    match c
    case Threw(_) => None
    case Returned(_, full) =>
      var parsed := ParseResponse(full, parse);
      if parsed.None? || parsed.value.move.None? || parsed.value.move.value !in LegalUci(pos) then None
      else
        var played := rules.play(pos, Decompose(parsed.value.move.value));
        if played.None? then None
        else Some(Accepted(parsed.value.move.value, parsed.value.reasoning, played.value.0, played.value.1))
  }

  /** An answer that is just a legal move, which the rules engine plays, is accepted as that move. */
  lemma LegalBareMoveAccepted(chunks: seq<Chunk>, m: string, pos: Position, parse: JsonParser, rules: Rules)
    requires IsUci(m) && parse(Trim(m)).None?
    requires m in LegalUci(pos) && rules.play(pos, Decompose(m)).Some?
    ensures AttemptOutcome(Returned(chunks, m), pos, parse, rules).Some?
    ensures AttemptOutcome(Returned(chunks, m), pos, parse, rules).value.uci == m
  {
    BareMoveReply(m, parse);
  }

  /** An attempt that threw never yields a move, whatever it streamed. */
  lemma ThrowingAttemptFails(chunks: seq<Chunk>, pos: Position, parse: JsonParser, rules: Rules)
    ensures AttemptOutcome(Threw(chunks), pos, parse, rules).None?
  {
  }

  const StartNotice: ThinkingUpdate := ThinkingUpdate("", false, None, None)
  const FailureNotice: ThinkingUpdate := ThinkingUpdate("LLM failed, falling back to built-in AI...", true, None, None)

  function SuccessNotice(reasoning: string, san: string): ThinkingUpdate
  {
    ThinkingUpdate("", true, Some(reasoning), Some(san))
  }

  /** The updates one attempt sends: the start notice, then one per streamed chunk. */
  function AttemptUpdates(c: Completion): (u: seq<ThinkingUpdate>)
    ensures |u| == 1 + |c.chunks| && u[0] == StartNotice
    ensures forall k :: 0 <= k < |c.chunks| ==> u[k + 1] == ThinkingUpdate(c.chunks[k].text, c.chunks[k].done, None, None)
  {
    [StartNotice] + seq(|c.chunks|, k requires 0 <= k < |c.chunks| => ThinkingUpdate(c.chunks[k].text, c.chunks[k].done, None, None))
  }

  /** The updates of the first n attempts. */
  function UpdatesOf(provider: Provider, system: string, user: string, n: nat): seq<ThinkingUpdate>
  {
    if n == 0 then [] else UpdatesOf(provider, system, user, n - 1) + AttemptUpdates(provider(system, user, n - 1))
  }

  function AiColor(pos: Position): string
  {
    if pos.whiteToMove then "white" else "black"
  }

  /** How the engine judges one completion, as a value the retry loop can be handed. */
  function JudgeFor(pos: Position, parse: JsonParser, rules: Rules): Completion -> Option<Accepted>
  {
    c => AttemptOutcome(c, pos, parse, rules)
  }

  /** Predicate form of "the judge is the engine's judgement". */
  ghost predicate Judges(judge: Completion -> Option<Accepted>, pos: Position, parse: JsonParser, rules: Rules)
  {
    forall c {:trigger AttemptOutcome(c, pos, parse, rules)} :: judge(c) == AttemptOutcome(c, pos, parse, rules)
  }

  lemma JudgeForJudges(pos: Position, parse: JsonParser, rules: Rules)
    ensures Judges(JudgeFor(pos, parse, rules), pos, parse, rules)
  {
  }

  /** The completions of the first n calls. */
  function Completions(provider: Provider, system: string, user: string, n: nat): (cs: seq<Completion>)
    ensures |cs| == n
    ensures forall k :: 0 <= k < n ==> cs[k] == provider(system, user, k)
  {
    seq(n, k requires 0 <= k < n => provider(system, user, k))
  }

  /** Every completion in `cs` is rejected. */
  predicate AllRejected(judge: Completion -> Option<Accepted>, cs: seq<Completion>)
  {
    forall k :: 0 <= k < |cs| ==> judge(cs[k]).None?
  }

  /** The checks of one pass of the retry loop, each failure a `continue`. */
  method TryAttempt(completion: Completion, pos: Position, legalUci: seq<string>, parse: JsonParser, rules: Rules,
                    judge: Completion -> Option<Accepted>)
    returns (outcome: Option<Accepted>)
    requires legalUci == LegalUci(pos) && Judges(judge, pos, parse, rules)
    ensures outcome == judge(completion)
  {
    outcome := None;
    if completion.Returned? {
      var parsed := ParseResponse(completion.full, parse);
      if parsed.Some? && parsed.value.move.Some? && parsed.value.move.value in legalUci {
        var parts := Decompose(parsed.value.move.value);
        var played := rules.play(pos, parts);
        if played.Some? {
          outcome := Some(Accepted(parsed.value.move.value, parsed.value.reasoning, played.value.0, played.value.1));
        }
      }
    }
    assert outcome == AttemptOutcome(completion, pos, parse, rules);
  }

  /**
   * The retry loop of `calcMove`: calls the provider until an attempt is
   * accepted or three have failed, and returns the accepted attempt, the number
   * of calls made and the thinking updates they sent.
   */
  method RetryLoop(provider: Provider, system: string, user: string, pos: Position, parse: JsonParser, rules: Rules,
                   judge: Completion -> Option<Accepted>)
    returns (outcome: Option<Accepted>, attempts: nat, sent: seq<ThinkingUpdate>)
    requires Judges(judge, pos, parse, rules)
    ensures 1 <= attempts <= MaxRetries
    ensures AllRejected(judge, Completions(provider, system, user, attempts - 1))
    ensures outcome == judge(provider(system, user, attempts - 1))
    ensures outcome.None? ==> attempts == MaxRetries
    ensures sent == UpdatesOf(provider, system, user, attempts)
  {
    var legalUci := LegalUci(pos);
    attempts := 0;
    sent := [];
    outcome := None;
    while attempts < MaxRetries
      invariant 0 <= attempts <= MaxRetries
      invariant AllRejected(judge, Completions(provider, system, user, attempts))
      invariant sent == UpdatesOf(provider, system, user, attempts)
      invariant attempts > 0 ==> outcome == judge(provider(system, user, attempts - 1))
      invariant outcome.None?
    {
      var completion := provider(system, user, attempts);
      sent := sent + AttemptUpdates(completion);
      outcome := TryAttempt(completion, pos, legalUci, parse, rules, judge);
      attempts := attempts + 1;
      if outcome.Some? {
        return;
      }
    }
  }

  /** The request the prompt is built from: no history or summary yet, the legal moves spelled as in UCI. */
  function BaseRequest(style: PlayStyle, pos: Position): Request
  {
    Request(pos.fen, "", LegalUci(pos), style, AiColor(pos), "")
  }

  /** The user prompt `calcMove` sends for a model, a style, a game and a move log. */
  function UserPromptFor(model: string, style: PlayStyle, pos: Position, log: seq<MoveMemory>): string
  {
    BuildUserPrompt(CM.FinalRequest(TokenEstimator.AvailableBudget(model), BaseRequest(style, pos), log, pos.pgn))
  }

  class LLMEngine {
    const providerName: string
    const model: string
    const playStyle: PlayStyle
    const contextManager: CM.ContextManager
    const memory: GameMemory
    var position: Position
    var moveCount: int
    var lastReasoning: string
    var thinking: seq<ThinkingUpdate>

    constructor (providerName: string, model: string, playStyle: PlayStyle, start: Position)
      ensures this.providerName == providerName && this.model == model && this.playStyle == playStyle
      ensures contextManager.model == model
      ensures fresh(memory) && memory.moves == []
      ensures position == start && moveCount == 0 && lastReasoning == "" && thinking == []
    {
      this.providerName := providerName;
      this.model := model;
      this.playStyle := playStyle;
      contextManager := new CM.ContextManager(model);
      memory := new GameMemory();
      position := start;
      moveCount := 0;
      lastReasoning := "";
      thinking := [];
    }

    /** `init`: loads the position, clears the log and resets the counter. */
    method Init(fen: string, rules: Rules)
      modifies this, memory
      ensures position == (if rules.load(fen).Some? then rules.load(fen).value else old(position))
      ensures memory.moves == [] && moveCount == 0
      ensures lastReasoning == old(lastReasoning) && thinking == old(thinking)
    {
      var loaded := rules.load(fen);
      if loaded.Some? {
        position := loaded.value;
      }
      memory.Clear();
      moveCount := 0;
    }

    /** `updateWithMove`: plays the opponent's move, counts it and logs it without reasoning. */
    method UpdateWithMove(move: ChessMove, rules: Rules, now: int)
      modifies this, memory
      ensures var played := rules.play(old(position), MoveParts(move.from, move.to, None));
              position == if played.Some? then played.value.0 else old(position)
      ensures moveCount == old(moveCount) + 1
      ensures memory.moves == old(memory.moves) + [MakeEntry(moveCount, position.fen, UciOf(move), move.san, "", move.flags, now)]
      ensures lastReasoning == old(lastReasoning) && thinking == old(thinking)
    {
      var played := rules.play(position, MoveParts(move.from, move.to, None));
      if played.Some? {
        position := played.value.0;
      }
      moveCount := moveCount + 1;
      memory.RecordMove(moveCount, position.fen, UciOf(move), move.san, "", move.flags, now);
    }

    /**
     * `calcMove`: at most three calls; the first accepted attempt is played,
     * counted, logged with its reasoning and announced; when all three fail the
     * game, counter and log are untouched and one failure notice is sent.
     */
    method CalcMove(provider: Provider, parse: JsonParser, rules: Rules, now: int)
      returns (result: Option<ChessMove>, attempts: nat)
      modifies this, memory
      ensures 1 <= attempts <= MaxRetries
      ensures var user := UserPromptFor(contextManager.model, playStyle, old(position), old(memory.moves));
              AllRejected(JudgeFor(old(position), parse, rules), Completions(provider, SystemPrompt(), user, attempts - 1))
      ensures var user := UserPromptFor(contextManager.model, playStyle, old(position), old(memory.moves));
              var sent := UpdatesOf(provider, SystemPrompt(), user, attempts);
              var last := AttemptOutcome(provider(SystemPrompt(), user, attempts - 1), old(position), parse, rules);
              if result.None? then
                && attempts == MaxRetries && last.None?
                && position == old(position) && moveCount == old(moveCount) && lastReasoning == old(lastReasoning)
                && memory.moves == old(memory.moves)
                && thinking == old(thinking) + sent + [FailureNotice]
              else
                && last.Some? && result.value == last.value.move
                && last.value.uci in LegalUci(old(position))
                && position == last.value.after && moveCount == old(moveCount) + 1
                && lastReasoning == last.value.reasoning
                && memory.moves == old(memory.moves)
                     + [MakeEntry(moveCount, position.fen, last.value.uci, last.value.move.san, last.value.reasoning, last.value.move.flags, now)]
                && thinking == old(thinking) + sent + [SuccessNotice(last.value.reasoning, last.value.move.san)]
    {
      var pos := position;
      var log := memory.GetMoves();
      var systemPrompt, userPrompt := PreparePrompts(pos, log);
      var outcome, sent;
      JudgeForJudges(pos, parse, rules);
      outcome, attempts, sent := RetryLoop(provider, systemPrompt, userPrompt, pos, parse, rules, JudgeFor(pos, parse, rules));
      result := Commit(outcome, sent, now);
    }

    /** The prompts of `calcMove`: the fixed system prompt and the budgeted user prompt. */
    method PreparePrompts(pos: Position, log: seq<MoveMemory>) returns (systemPrompt: string, userPrompt: string)
      ensures systemPrompt == SystemPrompt()
      ensures userPrompt == UserPromptFor(contextManager.model, playStyle, pos, log)
    {
      var tokenInfo;
      systemPrompt, userPrompt, tokenInfo := contextManager.BuildPromptWithBudget(BaseRequest(playStyle, pos), log, pos.pgn);
    }

    /**
     * The end of `calcMove`: records the thinking updates sent, then either plays,
     * counts, logs and announces the accepted attempt, or sends the failure notice.
     */
    method Commit(outcome: Option<Accepted>, sent: seq<ThinkingUpdate>, now: int) returns (result: Option<ChessMove>)
      modifies this, memory
      ensures result.None? <==> outcome.None?
      ensures outcome.None? ==>
                && position == old(position) && moveCount == old(moveCount) && lastReasoning == old(lastReasoning)
                && memory.moves == old(memory.moves)
                && thinking == old(thinking) + sent + [FailureNotice]
      ensures outcome.Some? ==>
                && result.value == outcome.value.move
                && position == outcome.value.after && moveCount == old(moveCount) + 1
                && lastReasoning == outcome.value.reasoning
                && memory.moves == old(memory.moves)
                     + [MakeEntry(moveCount, position.fen, outcome.value.uci, outcome.value.move.san, outcome.value.reasoning, outcome.value.move.flags, now)]
                && thinking == old(thinking) + sent + [SuccessNotice(outcome.value.reasoning, outcome.value.move.san)]
    {
      thinking := thinking + sent;
      if outcome.None? {
        thinking := thinking + [FailureNotice];
        return None;
      }
      var chessMove := outcome.value.move;
      position := outcome.value.after;
      moveCount := moveCount + 1;
      lastReasoning := outcome.value.reasoning;
      memory.RecordMove(moveCount, position.fen, outcome.value.uci, chessMove.san, lastReasoning, chessMove.flags, now);
      thinking := thinking + [SuccessNotice(lastReasoning, chessMove.san)];
      result := Some(chessMove);
    }

    /** `saveGameToHistory`: stores a record of this game; the identifier and date are parameters. */
    method SaveGameToHistory(result: GHS.GameResult, playerColor: GHS.Side, store: GHS.GameHistoryStore, id: string, date: string)
      modifies store
      ensures store.storage == GHS.Records(GHS.Saved(GHS.History(old(store.storage)),
                GHS.GameRecord(id, date, result, position.pgn, providerName, model, playerColor, moveCount, "", None, None)))
    {
      var record := GHS.GameRecord(id, date, result, position.pgn, providerName, model, playerColor, moveCount, "", None, None);
      store.Save(record);
    }
  }
}
