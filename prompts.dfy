/**
 * The fixed system prompt and the line-based user prompt sent to the remote model.
 */
module Prompts {
  import opened Text

  datatype PlayStyle = Aggressive | Defensive | Balanced

  /**
   * What the prompt is built from. An absent optional field of the request is the
   * empty string: the builder tests both with JavaScript truthiness, for which
   * `undefined` and `""` behave alike.
   */
  datatype Request = Request(
    fen: string,
    pgn: string,
    legalMoves: seq<string>,
    playStyle: PlayStyle,
    aiColor: string,
    memorySummary: string)

  /** The answer shape the model is told to use. */
  const ResponseFormat: string := "{\"move\": \"<uci_move>\", \"reasoning\": \"<your brief analysis>\"}"

  const SystemPromptIntro: string := "You are a chess engine playing a game. You will receive the board position in FEN notation, move history, legal moves in UCI format, and optionally a game memory summary.\n\nYou MUST respond with EXACTLY this JSON format and nothing else:\n"
  const SystemPromptRules: string := "\n\nRules:\n- The move MUST be one of the legal moves provided. Never invent moves.\n- UCI format: source_square + destination_square (e.g., \"e2e4\", \"g1f3\").\n- For pawn promotion, append the piece letter (e.g., \"e7e8q\" for queen).\n- Keep reasoning concise: 2-3 sentences max covering your key considerations.\n- Do not wrap in markdown code blocks. Return raw JSON only."

  /** The system prompt does not depend on anything and always spells out the answer format. */
  function SystemPrompt(): (prompt: string)
    ensures Contains(prompt, ResponseFormat)
  {
    var p := SystemPromptIntro + ResponseFormat + SystemPromptRules;
    assert p[|SystemPromptIntro|..|SystemPromptIntro| + |ResponseFormat|] == ResponseFormat;
    assert OccursAt(p, ResponseFormat, |SystemPromptIntro|);
    p
  }

  function StyleInstruction(style: PlayStyle): string
  {
    match style
    case Aggressive => "Play aggressively. Prefer attacking moves, sacrifices, central control, and king-side attacks."
    case Defensive => "Play defensively. Prefer solid positional play, piece safety, and careful development."
    case Balanced => "Play the objectively strongest move. Balance tactics and positional considerations."
  }

  function PositionLine(fen: string): string { "Position (FEN): " + fen }
  function ColourLine(color: string): string { "You are playing as: " + color }
  function LegalMovesLine(moves: seq<string>): string { "Legal moves (UCI): " + Join(moves, ", ") }
  function ContextLine(summary: string): string { "Game context: " + summary }
  function HistoryLine(pgn: string): string { "Move history (PGN): " + pgn }
  function StyleLine(style: PlayStyle): string { "Style: " + StyleInstruction(style) }
  const ClosingLine: string := "Respond with JSON only."

  /** The first three lines of every prompt: position, colour, legal moves. */
  function HeadLines(req: Request): seq<string>
  {
    [PositionLine(req.fen), ColourLine(req.aiColor), LegalMovesLine(req.legalMoves)]
  }

  function OptionalLines(req: Request): (lines: seq<string>)
    ensures |lines| == (if req.memorySummary != "" then 1 else 0) + (if req.pgn != "" then 1 else 0)
    ensures req.memorySummary != "" ==> lines[0] == ContextLine(req.memorySummary)
    ensures req.pgn != "" ==> lines[|lines| - 1] == HistoryLine(req.pgn)
  {
    (if req.memorySummary != "" then [ContextLine(req.memorySummary)] else [])
    + (if req.pgn != "" then [HistoryLine(req.pgn)] else [])
  }

  function TailLines(req: Request): seq<string>
  {
    [StyleLine(req.playStyle), ClosingLine]
  }

  /** The parts of the user prompt, before they are joined with newlines. */
  function PromptLines(req: Request): (lines: seq<string>)
    ensures |lines| == 5 + (if req.memorySummary != "" then 1 else 0) + (if req.pgn != "" then 1 else 0)
    ensures lines[0] == PositionLine(req.fen)
    ensures lines[1] == ColourLine(req.aiColor)
    ensures lines[2] == LegalMovesLine(req.legalMoves)
    ensures req.memorySummary != "" ==> lines[3] == ContextLine(req.memorySummary)
    ensures req.pgn != "" ==> lines[|lines| - 3] == HistoryLine(req.pgn)
    ensures lines[|lines| - 2] == StyleLine(req.playStyle)
    ensures lines[|lines| - 1] == ClosingLine
  {
    var head, optional, tail := HeadLines(req), OptionalLines(req), TailLines(req);
    ThreePartIndices(head, optional, tail);
    head + optional + tail
  }

  /** Where the parts of a three-line head, an optional middle and a two-line tail land. */
  lemma ThreePartIndices(h: seq<string>, o: seq<string>, t: seq<string>)
    requires |h| == 3 && |t| == 2
    ensures var all := h + o + t;
      && |all| == 5 + |o|
      && all[0] == h[0] && all[1] == h[1] && all[2] == h[2]
      && (|o| > 0 ==> all[3] == o[0] && all[|all| - 3] == o[|o| - 1])
      && all[|all| - 2] == t[0] && all[|all| - 1] == t[1]
  {
  }

  function BuildUserPrompt(req: Request): string
  {
    Join(PromptLines(req), "\n")
  }

  /** The request with both optional parts removed: what the budget builder always starts from. */
  function Minimal(req: Request): Request
  {
    req.(pgn := "", memorySummary := "")
  }

  /** Newline-joined head, optional and tail lines: the shape every user prompt has. */
  function Assemble(head: seq<string>, optional: seq<string>, tail: seq<string>): string
  {
    if optional == [] then Join(head, "\n") + "\n" + Join(tail, "\n")
    else Join(head, "\n") + "\n" + Join(optional, "\n") + "\n" + Join(tail, "\n")
  }

  lemma {:induction false} JoinThree(h: seq<string>, o: seq<string>, t: seq<string>)
    requires |h| > 0 && |t| > 0
    ensures Join(h + o + t, "\n") == Assemble(h, o, t)
  {
    if o == [] {
      assert h + o + t == h + t;
      JoinAppend(h, t, "\n");
    } else {
      assert h + o + t == h + (o + t);
      JoinAppend(h, o + t, "\n");
      JoinAppend(o, t, "\n");
    }
  }

  /**
   * The user prompt is the minimal prompt with the optional lines spliced in after
   * the third line, so adding a summary or history never makes it shorter.
   */
  lemma PromptExtendsMinimal(req: Request)
    ensures BuildUserPrompt(req) == Assemble(HeadLines(req), OptionalLines(req), TailLines(req))
    ensures BuildUserPrompt(Minimal(req)) == Assemble(HeadLines(req), [], TailLines(req))
    ensures |BuildUserPrompt(req)| >= |BuildUserPrompt(Minimal(req))|
  {
    var h, o, t := HeadLines(req), OptionalLines(req), TailLines(req);
    JoinThree(h, o, t);
    var m := Minimal(req);
    assert HeadLines(m) == h && TailLines(m) == t && OptionalLines(m) == [];
    JoinThree(h, [], t);
  }
}
