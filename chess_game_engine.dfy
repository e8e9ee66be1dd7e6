/**
 * The board-side orchestration of a game: a move dropped on the board (or
 * delivered by the AI) is played in the rules engine, the captured piece is
 * taken off the scene, the move's flags dispatch castling, en passant and
 * promotion, and the AI is then asked to move, through the language model when
 * one is configured and through the search worker otherwise.
 *
 * The rules engine is a parameter (`ChessRules`); the scene's pieces are a map
 * from (colour, kind, matrix cell) to a piece id; everything the engine sends
 * out (worker messages, bus events, callbacks, calls into the LLM engine) is
 * appended to one log of `Effect`s. Every method of the class is proved to
 * perform the pure step of the same name on `EngineState`, and the properties
 * are lemmas about those steps.
 */
module ChessGameEngine {
  import opened Text
  import opened BoardGeometry
  import IE = InsightEngine

  type Move = IE.Move

  /** A cell of the scene's 8x8 matrix: row = rank - 1, column = 7 - file. */
  datatype Cell = Cell(row: int, column: int)

  predicate OnBoard(c: Cell)
  {
    0 <= c.row < 8 && 0 <= c.column < 8
  }

  /** `getMatrixPosition`. */
  function CellOf(s: Square): (c: Cell)
    ensures OnBoard(c)
  {
    Cell(s.rank, 7 - s.file)
  }

  /** `getChessNotation`. */
  function SquareAt(c: Cell): Square
    requires OnBoard(c)
  {
    Square(7 - c.column, c.row)
  }

  /** The two position notations are inverse to each other. */
  lemma CellSquareRoundTrip(s: Square, c: Cell)
    requires OnBoard(c)
    ensures SquareAt(CellOf(s)) == s && CellOf(SquareAt(c)) == c
  {
  }

  /** A piece of the scene, by what the pieces container looks it up with. */
  datatype Placed = Placed(color: Color, kind: Kind, cell: Cell)

  type Pieces = map<Placed, nat>

  /** What the engine reads of the rules engine's game. */
  datatype ChessState = ChessState(fen: string, turn: Color, inCheckmate: bool, gameOver: bool)

  datatype Played = Played(move: Move, next: ChessState)

  /**
   * The rules engine: a move from one square to another (None when illegal) and
   * the game after a pawn is replaced by a promoted piece.
   */
  datatype ChessRules = ChessRules(move: (ChessState, Square, Square) -> Option<Played>,
                                   promote: (ChessState, Square, Kind, Color) -> ChessState)

  datatype GameResult = WhiteWins | BlackWins | Draw

  datatype CastleSide = KingSide | QueenSide

  /** A promotion the player has still to choose a piece for. */
  datatype PromotionPayload = PromotionPayload(color: Color, to: Cell, piece: Placed, move: Move)

  /** What `handleFlags` returns: nothing, a removed piece id, `true`, or a promotion result. */
  datatype FlagResult = NoResult | RemovedId(id: Option<nat>) | AwaitPromotion | Promoted(removedPieceId: Option<nat>, promotedPiece: nat)

  datatype MoveResult = MoveResult(removedPiecesIds: seq<Option<nat>>, move: Move, promotedPiece: Option<nat>, stopAi: bool)

  datatype ActionResult = ActionResult(removedPiecesIds: seq<Option<nat>>, promotedPiece: Option<nat>)

  /** A message from the search worker. */
  datatype WorkerEvent = WorkerEvent(kind: string, aiMove: Move)

  /** Everything the engine sends out, in order. */
  datatype Effect =
    | Score(color: Color, captured: Kind)
    | PostAiMove(playerMove: Move)
    | PostPromote(color: Color, kind: Kind, square: string, promotionMove: Option<Move>)
    | PromptPromotion(color: Color)
    | PromotionDone(removedPieceId: Option<nat>, promotedPiece: nat)
    | LlmUpdate(move: Move)
    | EmitPlayerMove(move: Move, isCapture: bool, isCheck: bool, insight: Option<IE.MoveInsight>)
    | EmitAiMove(move: Move, isCapture: bool, isCheck: bool)
    | EmitGameEnd(result: GameResult, playerColor: Color)
    | SaveGame(result: GameResult, playerColor: Color)
    | AiMoveDone(action: ActionResult)
    | EndGame

  /** The fields of the engine that its moves read or change. */
  datatype EngineState = EngineState(
    game: ChessState,
    pieces: Pieces,
    nextPieceId: nat,
    playerSide: Color,
    llmEngineSet: bool,
    llmEnabled: bool,
    insight: Option<IE.Rules>,
    selected: Option<Placed>,
    pending: Option<PromotionPayload>,
    effects: seq<Effect>)

  function Opposite(c: Color): Color
  {
    if c == White then Black else White
  }

  // ---------------------------------------------------------------------------
  // The result of a game
  // ---------------------------------------------------------------------------

  /** `getGameResult`: under checkmate the side not to move wins, otherwise a draw. */
  function ResultOf(g: ChessState): (r: GameResult)
    ensures r == Draw <==> !g.inCheckmate
    ensures r == WhiteWins <==> g.inCheckmate && g.turn == Black
    ensures r == BlackWins <==> g.inCheckmate && g.turn == White
  {
    if !g.inCheckmate then Draw
    else match g.turn
      case White => BlackWins
      case Black => WhiteWins
  }

  // ---------------------------------------------------------------------------
  // The pieces container
  // ---------------------------------------------------------------------------

  /** `removePiece`: the piece's id, when there is one, and the scene without it. */
  function Removed(s: EngineState, key: Placed): (EngineState, Option<nat>)
  {
    (s.(pieces := s.pieces - {key}), if key in s.pieces then Some(s.pieces[key]) else None)
  }

  /** `movePieceToField`: the piece, if it is on the scene, now stands on `to`. */
  function Relocated(s: EngineState, piece: Placed, to: Cell): EngineState
  {
    if piece in s.pieces then s.(pieces := (s.pieces - {piece})[Placed(piece.color, piece.kind, to) := s.pieces[piece]])
    else s
  }

  /** Every piece of the scene has its own id, below the next id to hand out. */
  predicate PiecesValid(s: EngineState)
  {
    && (forall a, b :: a in s.pieces && b in s.pieces && a != b ==> s.pieces[a] != s.pieces[b])
    && (forall a :: a in s.pieces ==> s.pieces[a] < s.nextPieceId)
  }

  // ---------------------------------------------------------------------------
  // Flags
  // ---------------------------------------------------------------------------

  /** The rook's cell and its cell after castling: row 0 or 7, king side from column 0 to 2, queen side from 7 to 4. */
  function CastlingRook(color: Color, side: CastleSide): (cells: (Cell, Cell))
    ensures OnBoard(cells.0) && OnBoard(cells.1)
  {
    var row := if color == White then 0 else 7;
    (Cell(row, if side == QueenSide then 7 else 0), Cell(row, if side == QueenSide then 4 else 2))
  }

  /** The rook moves as castling moves it in chess: h1 to f1, a1 to d1, h8 to f8, a8 to d8. */
  lemma CastlingRookSquares(color: Color, side: CastleSide)
    ensures var (from, to) := CastlingRook(color, side);
      var rank := if color == White then '1' else '8';
      && SquareName(SquareAt(from)) == [if side == KingSide then 'h' else 'a', rank]
      && SquareName(SquareAt(to)) == [if side == KingSide then 'f' else 'd', rank]
  {
  }

  /** `handleCastling`. */
  function Castled(s: EngineState, color: Color, side: CastleSide): EngineState
  {
    var (from, to) := CastlingRook(color, side);
    Relocated(s, Placed(color, Rook, from), to)
  }

  /** The cell of the pawn taken en passant: one row behind the destination, seen from the mover. */
  function EnPassantCell(color: Color, to: Cell): Cell
  {
    Cell(if color == White then to.row - 1 else to.row + 1, to.column)
  }

  /** The pawn taken en passant stands on the destination's file, one rank back toward the mover. */
  lemma EnPassantSquare(color: Color, to: Square)
    requires color == White ==> to.rank >= 1
    requires color == Black ==> to.rank <= 6
    ensures OnBoard(EnPassantCell(color, CellOf(to)))
    ensures SquareAt(EnPassantCell(color, CellOf(to))) == Square(to.file, if color == White then to.rank - 1 else to.rank + 1)
  {
  }

  /** `handleEnPassante`. */
  function EnPassant(s: EngineState, color: Color, to: Cell): (EngineState, Option<nat>)
  {
    Removed(s, Placed(Opposite(color), Pawn, EnPassantCell(color, to)))
  }

  /**
   * `promotePiece`: the pawn leaves the container, a new piece of the chosen kind
   * with a fresh id takes the destination, the rules engine is told, and so is the worker.
   */
  function Promote(s: EngineState, rules: ChessRules, color: Color, to: Cell, piece: Placed, kind: Kind, move: Option<Move>): (EngineState, Option<nat>, nat)
    requires OnBoard(to)
  {
    var (t, removedId) := Removed(s, Placed(color, Pawn, piece.cell));
    var id := t.nextPieceId;
    (t.(pieces := t.pieces[Placed(color, kind, to) := id],
        nextPieceId := id + 1,
        game := rules.promote(t.game, SquareAt(to), kind, color),
        effects := t.effects + [PostPromote(color, kind, SquareName(SquareAt(to)), move)]),
     removedId, id)
  }

  /** `handlePromotion`: the player's promotion waits for a choice; the AI's always becomes a queen. */
  function Promotion(s: EngineState, rules: ChessRules, color: Color, to: Cell, piece: Placed, move: Move): (EngineState, FlagResult)
    requires OnBoard(to)
  {
    if color == s.playerSide then
      (s.(pending := Some(PromotionPayload(color, to, piece, move)), effects := s.effects + [PromptPromotion(color)]), AwaitPromotion)
    else
      var (t, removedId, id) := Promote(s, rules, color, to, piece, Queen, None);
      (t, Promoted(removedId, id))
  }

  predicate IsPromotionFlags(flags: string)
  {
    flags == "np" || flags == "cp" || flags == "p"
  }

  /** `handleFlags`: the whole flag string selects castling, en passant or promotion. */
  function Flags(s: EngineState, rules: ChessRules, move: Move, to: Cell, piece: Placed): (EngineState, FlagResult)
    requires OnBoard(to)
  {
    if move.flags == "q" || move.flags == "k" then (Castled(s, move.color, if move.flags == "q" then QueenSide else KingSide), NoResult)
    else if move.flags == "e" then
      var (t, id) := EnPassant(s, move.color, to);
      (t, RemovedId(id))
    else if IsPromotionFlags(move.flags) then Promotion(s, rules, move.color, to, piece, move)
    else (s, NoResult)
  }

  /** The ids `handlePieceMove` adds after the captured piece's: a nonzero removed id, or the promoted pawn's. */
  function FlagIds(r: FlagResult): seq<Option<nat>>
  {
    match r
    case RemovedId(Some(id)) => if id != 0 then [Some(id)] else []
    case Promoted(removedId, _) => [removedId]
    case _ => []
  }

  // ---------------------------------------------------------------------------
  // Moves
  // ---------------------------------------------------------------------------

  predicate Legal(s: EngineState, rules: ChessRules, from: Cell, to: Cell)
  {
    OnBoard(from) && OnBoard(to) && rules.move(s.game, SquareAt(from), SquareAt(to)).Some?
  }

  /** The capture step: the captured piece is looked up on the move's destination and the score board is told. */
  function Captured(s: EngineState, m: Move): (EngineState, seq<Option<nat>>)
  {
    if m.captured.Some? then
      var (t, id) := Removed(s, Placed(Opposite(m.color), m.captured.value, CellOf(m.to)));
      (t.(effects := t.effects + [Score(m.color, m.captured.value)]), [id])
    else (s, [])
  }

  /** `handlePieceMove`. */
  function PieceMove(s: EngineState, rules: ChessRules, to: Cell, piece: Placed): (EngineState, MoveResult)
    requires Legal(s, rules, piece.cell, to)
  {
    var played := rules.move(s.game, SquareAt(piece.cell), SquareAt(to)).value;
    var m := played.move;
    var (s1, capturedIds) := Captured(s.(game := played.next), m);
    var (s2, flag) := Flags(s1, rules, m, to, piece);
    (Relocated(s2, piece, to),
     MoveResult(capturedIds + FlagIds(flag), m, if flag.Promoted? then Some(flag.promotedPiece) else None, flag == AwaitPromotion))
  }

  /** `performAiMove`: the AI's move is played with the piece found on its origin. */
  function AiMove(s: EngineState, rules: ChessRules, m: Move): (EngineState, MoveResult)
    requires rules.move(s.game, m.from, m.to).Some?
  {
    CellSquareRoundTrip(m.from, CellOf(m.from));
    CellSquareRoundTrip(m.to, CellOf(m.to));
    PieceMove(s, rules, CellOf(m.to), Placed(m.color, m.piece, CellOf(m.from)))
  }

  function ActionOf(r: MoveResult): ActionResult
  {
    ActionResult(r.removedPiecesIds, r.promotedPiece)
  }

  predicate IsCheck(m: Move)
  {
    '+' in m.san
  }

  /** `handleLLMGameEnd`, then the `game:end` event and the end-game callback. */
  function GameEnd(s: EngineState): EngineState
  {
    var result := ResultOf(s.game);
    s.(effects := s.effects + (if s.llmEngineSet then [SaveGame(result, s.playerSide)] else [])
                            + [EmitGameEnd(result, s.playerSide), EndGame])
  }

  /**
   * `notifyLLMToMove`: the LLM engine learns the player's move and is asked for
   * its own; without an answer the worker is asked instead. An answer the rules
   * engine rejects makes the call throw, which ends it.
   */
  function NotifyLlm(s: EngineState, rules: ChessRules, playerMove: Move, reply: Option<Move>): EngineState
  {
    var s1 := s.(effects := s.effects + [LlmUpdate(playerMove)]);
    if reply.None? then s1.(effects := s1.effects + [PostAiMove(playerMove)])
    else if rules.move(s1.game, reply.value.from, reply.value.to).None? then s1
    else LlmMoved(s1, rules, reply.value)
  }

  /** The LLM engine's legal move is played, announced on the bus and to the callback, and may end the game. */
  function LlmMoved(s: EngineState, rules: ChessRules, m: Move): EngineState
    requires rules.move(s.game, m.from, m.to).Some?
  {
    var (s1, r) := AiMove(s, rules, m);
    var s2 := s1.(effects := s1.effects + [EmitAiMove(m, m.captured.Some?, IsCheck(m)), AiMoveDone(ActionOf(r))]);
    if s1.game.gameOver then GameEnd(s2) else s2
  }

  /** `notifyAiToMove`: the LLM path when an LLM engine is set and enabled, the worker otherwise. */
  function NotifyAi(s: EngineState, rules: ChessRules, playerMove: Move, reply: Option<Move>): EngineState
  {
    if s.llmEngineSet && s.llmEnabled then NotifyLlm(s, rules, playerMove, reply)
    else s.(effects := s.effects + [PostAiMove(playerMove)])
  }

  /** The insight on the player's move, when an insight evaluator is configured. */
  function InsightOf(insight: Option<IE.Rules>, fenBefore: string, san: string): Option<IE.MoveInsight>
  {
    if insight.Some? then Some(IE.Analysis(fenBefore, san, insight.value)) else None
  }

  /** The `player:move` event. */
  function ReportPlayerMove(s: EngineState, r: MoveResult, insight: Option<IE.MoveInsight>): EngineState
  {
    s.(effects := s.effects + [EmitPlayerMove(r.move, r.move.captured.Some?, IsCheck(r.move), insight)])
  }

  /** After the player's move: the game may end, and otherwise the AI is asked to move unless a promotion is pending. */
  function AfterPlayerMove(s: EngineState, rules: ChessRules, r: MoveResult, reply: Option<Move>): EngineState
  {
    var over := s.game.gameOver;
    var s1 := if over then GameEnd(s) else s;
    if !r.stopAi && !over then NotifyAi(s1, rules, r.move, reply) else s1
  }

  /** `dropPiece`: the selected piece's move is played, reported with its insight, and followed up. */
  function Drop(s: EngineState, rules: ChessRules, to: Cell, reply: Option<Move>): (EngineState, ActionResult)
    requires s.selected.Some? && Legal(s, rules, s.selected.value.cell, to)
  {
    var (s1, r) := PieceMove(s, rules, to, s.selected.value);
    (AfterPlayerMove(ReportPlayerMove(s1, r, InsightOf(s.insight, s.game.fen, r.move.san)), rules, r, reply), ActionOf(r))
  }

  /** `deselect`: a drop on a marked field plays the move; either way the selection is released. */
  function Release(s: EngineState, rules: ChessRules, droppable: bool, to: Cell, reply: Option<Move>): (EngineState, Option<ActionResult>)
    requires s.selected.Some? && (droppable ==> Legal(s, rules, s.selected.value.cell, to))
  {
    if droppable then
      var (t, a) := Drop(s, rules, to, reply);
      (t.(selected := None), Some(a))
    else (s.(selected := None), None)
  }

  /** The promotion buttons' callback: the pending pawn, now on its destination, is promoted, and the AI moves. */
  function CompletePromotion(s: EngineState, rules: ChessRules, kind: Kind, reply: Option<Move>): EngineState
    requires s.pending.Some? && OnBoard(s.pending.value.to)
  {
    var p := s.pending.value;
    var (t, removedId, id) := Promote(s.(pending := None), rules, p.color, p.to, Placed(p.piece.color, p.piece.kind, p.to), kind, Some(p.move));
    NotifyAi(t.(effects := t.effects + [PromotionDone(removedId, id)]), rules, p.move, reply)
  }

  /** The worker callback: only `aiMovePerformed` messages are acted on. */
  function OnWorker(s: EngineState, rules: ChessRules, e: WorkerEvent): EngineState
    requires e.kind == "aiMovePerformed" ==> rules.move(s.game, e.aiMove.from, e.aiMove.to).Some?
  {
    if e.kind != "aiMovePerformed" then s
    else
      var (s1, r) := AiMove(s, rules, e.aiMove);
      var s2 := s1.(effects := s1.effects + [AiMoveDone(ActionOf(r))]);
      if s1.game.gameOver then s2.(effects := s2.effects + [EndGame]) else s2
  }

  /** `select`: only the player's own pieces can be picked up. */
  function Select(s: EngineState, piece: Placed): EngineState
  {
    if piece.color != s.playerSide then s else s.(selected := Some(piece))
  }

  // ---------------------------------------------------------------------------
  // Properties
  // ---------------------------------------------------------------------------

  /** Removing and relocating pieces keep the ids distinct. */
  lemma RemovedValid(s: EngineState, key: Placed)
    requires PiecesValid(s)
    ensures PiecesValid(Removed(s, key).0)
  {
  }

  lemma RelocatedValid(s: EngineState, piece: Placed, to: Cell)
    requires PiecesValid(s)
    ensures PiecesValid(Relocated(s, piece, to))
    ensures piece in s.pieces ==> Relocated(s, piece, to).pieces.Values <= s.pieces.Values
    ensures piece !in s.pieces ==> Relocated(s, piece, to).pieces == s.pieces
  {
    if piece in s.pieces {
      var p := Relocated(s, piece, to).pieces;
      forall v | v in p.Values
        ensures v in s.pieces.Values
      {
        var k :| k in p && p[k] == v;
        if k != Placed(piece.color, piece.kind, to) {
          assert k in s.pieces;
        }
      }
    }
  }

  lemma PromoteValid(s: EngineState, rules: ChessRules, color: Color, to: Cell, piece: Placed, kind: Kind, move: Option<Move>)
    requires OnBoard(to) && PiecesValid(s)
    ensures var (t, removedId, id) := Promote(s, rules, color, to, piece, kind, move);
      && PiecesValid(t)
      && id !in s.pieces.Values
      && t.pieces.Values <= s.pieces.Values + {id}
      && Placed(color, kind, to) in t.pieces && t.pieces[Placed(color, kind, to)] == id
      && (removedId.Some? ==> removedId.value in s.pieces.Values && removedId.value !in t.pieces.Values)
  {
    var (t, removedId, id) := Promote(s, rules, color, to, piece, kind, move);
    var u := s.pieces - {Placed(color, Pawn, piece.cell)};
    assert t.pieces == u[Placed(color, kind, to) := id];
    forall v | v in t.pieces.Values
      ensures v in s.pieces.Values + {id}
    {
      var k :| k in t.pieces && t.pieces[k] == v;
      if k != Placed(color, kind, to) {
        assert k in s.pieces;
      }
    }
  }

  /** What the flag step does to the pieces, for the ids' sake. */
  lemma FlagsValid(s: EngineState, rules: ChessRules, move: Move, to: Cell, piece: Placed)
    requires OnBoard(to) && PiecesValid(s)
    ensures var (t, r) := Flags(s, rules, move, to, piece);
      && PiecesValid(t)
      && (r.Promoted? ==> t.pieces.Values <= s.pieces.Values + {r.promotedPiece} && r.promotedPiece == s.nextPieceId)
      && (!r.Promoted? ==> t.pieces.Values <= s.pieces.Values)
      && (forall k :: 0 <= k < |FlagIds(r)| && FlagIds(r)[k].Some? ==> FlagIds(r)[k].value in s.pieces.Values && FlagIds(r)[k].value !in t.pieces.Values)
  {
    var (t, r) := Flags(s, rules, move, to, piece);
    if move.flags == "q" || move.flags == "k" {
      var (from, dest) := CastlingRook(move.color, if move.flags == "q" then QueenSide else KingSide);
      RelocatedValid(s, Placed(move.color, Rook, from), dest);
    } else if move.flags == "e" {
      var key := Placed(Opposite(move.color), Pawn, EnPassantCell(move.color, to));
      if key in s.pieces {
        assert s.pieces[key] in s.pieces.Values;
      }
    } else if IsPromotionFlags(move.flags) && move.color != s.playerSide {
      PromoteValid(s, rules, move.color, to, piece, Queen, None);
    }
  }

  /**
   * `handlePieceMove` keeps every piece's id distinct, and every id it reports
   * removed belonged to a piece of the scene that is no longer there.
   */
  lemma PieceMoveRemovesReported(s: EngineState, rules: ChessRules, to: Cell, piece: Placed)
    requires Legal(s, rules, piece.cell, to) && PiecesValid(s)
    ensures var (t, r) := PieceMove(s, rules, to, piece);
      && PiecesValid(t)
      && forall k :: 0 <= k < |r.removedPiecesIds| && r.removedPiecesIds[k].Some? ==>
           r.removedPiecesIds[k].value in s.pieces.Values && r.removedPiecesIds[k].value !in t.pieces.Values
  {
    var played := rules.move(s.game, SquareAt(piece.cell), SquareAt(to)).value;
    var m := played.move;
    var s0 := s.(game := played.next);
    var (s1, capturedIds) := Captured(s0, m);
    var (s2, flag) := Flags(s1, rules, m, to, piece);
    var (t, r) := PieceMove(s, rules, to, piece);
    CapturedValid(s0, m);
    FlagsValid(s1, rules, m, to, piece);
    RelocatedValid(s2, piece, to);
    assert t == Relocated(s2, piece, to);
    assert r.removedPiecesIds == capturedIds + FlagIds(flag);
    forall k | 0 <= k < |r.removedPiecesIds| && r.removedPiecesIds[k].Some?
      ensures r.removedPiecesIds[k].value in s.pieces.Values && r.removedPiecesIds[k].value !in t.pieces.Values
    {
      if k < |capturedIds| {
        assert capturedIds[k] == r.removedPiecesIds[k];
      } else {
        assert FlagIds(flag)[k - |capturedIds|] == r.removedPiecesIds[k];
      }
    }
  }

  /** The capture step keeps the ids distinct and removes the piece whose id it reports. */
  lemma CapturedValid(s: EngineState, m: Move)
    requires PiecesValid(s)
    ensures var (t, ids) := Captured(s, m);
      && PiecesValid(t) && t.nextPieceId == s.nextPieceId && t.pieces.Values <= s.pieces.Values
      && forall k :: 0 <= k < |ids| && ids[k].Some? ==>
           ids[k].value in s.pieces.Values && ids[k].value !in t.pieces.Values && ids[k].value < s.nextPieceId
  {
    if m.captured.Some? {
      var key := Placed(Opposite(m.color), m.captured.value, CellOf(m.to));
      var (t, ids) := Captured(s, m);
      forall v | v in t.pieces.Values ensures v in s.pieces.Values {
        var k :| k in t.pieces && t.pieces[k] == v;
      }
      if key in s.pieces {
        assert s.pieces[key] in s.pieces.Values;
      }
    }
  }

  lemma MoverLands(s: EngineState, rules: ChessRules, to: Cell, piece: Placed)
    requires Legal(s, rules, piece.cell, to) && piece in s.pieces
    requires var m := rules.move(s.game, SquareAt(piece.cell), SquareAt(to)).value.move;
      && m.color == piece.color
      && !IsPromotionFlags(m.flags)
      && (m.flags == "q" || m.flags == "k" ==> piece.kind == King)
    ensures var t := PieceMove(s, rules, to, piece).0;
      Placed(piece.color, piece.kind, to) in t.pieces && t.pieces[Placed(piece.color, piece.kind, to)] == s.pieces[piece]
  {
    var played := rules.move(s.game, SquareAt(piece.cell), SquareAt(to)).value;
    var m := played.move;
    var (s1, _) := Captured(s.(game := played.next), m);
    var (s2, _) := Flags(s1, rules, m, to, piece);
    assert piece in s1.pieces && s1.pieces[piece] == s.pieces[piece];
    FlagsKeepMover(s1, rules, m, to, piece);
  }

  /** Castling moves only the rook and en passant removes only an enemy pawn, so the moving piece stays put. */
  lemma FlagsKeepMover(s: EngineState, rules: ChessRules, m: Move, to: Cell, piece: Placed)
    requires OnBoard(to) && piece in s.pieces && m.color == piece.color && !IsPromotionFlags(m.flags)
    requires m.flags == "q" || m.flags == "k" ==> piece.kind == King
    ensures var t := Flags(s, rules, m, to, piece).0;
      piece in t.pieces && t.pieces[piece] == s.pieces[piece]
  {
  }

  /** The AI's promotion puts a new queen with a fresh id on the destination and tells the worker so. */
  lemma AiPromotesToQueen(s: EngineState, rules: ChessRules, to: Cell, piece: Placed)
    requires Legal(s, rules, piece.cell, to) && PiecesValid(s)
    requires var m := rules.move(s.game, SquareAt(piece.cell), SquareAt(to)).value.move;
      IsPromotionFlags(m.flags) && m.color != s.playerSide && m.color == piece.color && piece.kind == Pawn
    ensures var m := rules.move(s.game, SquareAt(piece.cell), SquareAt(to)).value.move;
      var (t, r) := PieceMove(s, rules, to, piece);
      && r.promotedPiece.Some? && !r.stopAi
      && r.promotedPiece.value !in s.pieces.Values
      && Placed(m.color, Queen, to) in t.pieces && t.pieces[Placed(m.color, Queen, to)] == r.promotedPiece.value
      && PostPromote(m.color, Queen, SquareName(SquareAt(to)), None) in t.effects
  {
    var m := rules.move(s.game, SquareAt(piece.cell), SquareAt(to)).value.move;
    var played := rules.move(s.game, SquareAt(piece.cell), SquareAt(to)).value;
    var s0 := s.(game := played.next);
    var (s1, capturedIds) := Captured(s0, m);
    CapturedValid(s0, m);
    PromoteValid(s1, rules, m.color, to, piece, Queen, None);
    var (s2, removedId, id) := Promote(s1, rules, m.color, to, piece, Queen, None);
    assert Flags(s1, rules, m, to, piece) == (s2, Promoted(removedId, id));
    assert piece !in s2.pieces;
  }

  /** The effects the move step itself sends out: no request to the AI, no event. */
  predicate MoveStepEffect(e: Effect)
  {
    e.Score? || e.PostPromote? || e.PromptPromotion?
  }

  predicate AsksAi(e: Effect)
  {
    e.PostAiMove? || e.LlmUpdate?
  }

  predicate IsPrefix(a: seq<Effect>, b: seq<Effect>)
  {
    |a| <= |b| && b[..|a|] == a
  }

  /** The move step only adds score updates and promotion messages to the log. */
  lemma PieceMoveEffects(s: EngineState, rules: ChessRules, to: Cell, piece: Placed)
    requires Legal(s, rules, piece.cell, to)
    ensures var t := PieceMove(s, rules, to, piece).0;
      && IsPrefix(s.effects, t.effects)
      && forall k :: |s.effects| <= k < |t.effects| ==> MoveStepEffect(t.effects[k])
  {
    var played := rules.move(s.game, SquareAt(piece.cell), SquareAt(to)).value;
    var m := played.move;
    var (s1, capturedIds) := Captured(s.(game := played.next), m);
    var (s2, flag) := Flags(s1, rules, m, to, piece);
    assert IsPrefix(s.effects, s1.effects) && forall k :: |s.effects| <= k < |s1.effects| ==> s1.effects[k].Score?;
    FlagsEffects(s1, rules, m, to, piece);
    assert Relocated(s2, piece, to).effects == s2.effects;
    forall k | |s.effects| <= k < |s2.effects|
      ensures MoveStepEffect(s2.effects[k])
    {
      if k < |s1.effects| {
        assert s2.effects[k] == s1.effects[k];
      }
    }
  }

  lemma FlagsEffects(s: EngineState, rules: ChessRules, m: Move, to: Cell, piece: Placed)
    requires OnBoard(to)
    ensures var t := Flags(s, rules, m, to, piece).0;
      && IsPrefix(s.effects, t.effects)
      && forall k :: |s.effects| <= k < |t.effects| ==> t.effects[k].PostPromote? || t.effects[k].PromptPromotion?
  {
    if IsPromotionFlags(m.flags) && m.flags != "q" && m.flags != "k" && m.flags != "e" && m.color != s.playerSide {
      var t := Flags(s, rules, m, to, piece).0;
      assert t.effects == Removed(s, Placed(m.color, Pawn, piece.cell)).0.effects + [PostPromote(m.color, Queen, SquareName(SquareAt(to)), None)];
    }
  }

  /**
   * The dispatch: with an LLM engine set and enabled the LLM engine learns the
   * move first, and a missing answer falls back to exactly one worker request;
   * otherwise the only thing sent is the worker request.
   */
  lemma NotifyAiDispatch(s: EngineState, rules: ChessRules, playerMove: Move, reply: Option<Move>)
    ensures var t := NotifyAi(s, rules, playerMove, reply);
      && |t.effects| > |s.effects| && IsPrefix(s.effects, t.effects)
      && (t.effects[|s.effects|] == LlmUpdate(playerMove) <==> s.llmEngineSet && s.llmEnabled)
      && (!(s.llmEngineSet && s.llmEnabled) ==> t.effects == s.effects + [PostAiMove(playerMove)] && t.pieces == s.pieces)
      && (s.llmEngineSet && s.llmEnabled && reply.None? ==> t.effects == s.effects + [LlmUpdate(playerMove), PostAiMove(playerMove)])
  {
    if s.llmEngineSet && s.llmEnabled {
      var s1 := s.(effects := s.effects + [LlmUpdate(playerMove)]);
      if reply.Some? && rules.move(s1.game, reply.value.from, reply.value.to).Some? {
        LlmMovedExtends(s1, rules, reply.value);
        var t := LlmMoved(s1, rules, reply.value);
        assert t.effects[..|s1.effects|] == s1.effects;
        assert t.effects[|s.effects|] == s1.effects[|s.effects|];
        assert t.effects[..|s.effects|] == s1.effects[..|s.effects|];
      }
    }
  }

  lemma LlmMovedExtends(s: EngineState, rules: ChessRules, m: Move)
    requires rules.move(s.game, m.from, m.to).Some?
    ensures IsPrefix(s.effects, LlmMoved(s, rules, m).effects)
  {
    var (s1, r) := AiMove(s, rules, m);
    CellSquareRoundTrip(m.from, CellOf(m.from));
    CellSquareRoundTrip(m.to, CellOf(m.to));
    PieceMoveEffects(s, rules, CellOf(m.to), Placed(m.color, m.piece, CellOf(m.from)));
    var s2 := s1.(effects := s1.effects + [EmitAiMove(m, m.captured.Some?, IsCheck(m)), AiMoveDone(ActionOf(r))]);
    assert s2.effects[..|s1.effects|] == s1.effects;
    assert GameEnd(s2).effects[..|s2.effects|] == s2.effects;
  }

  /** The game-end step saves the game to the LLM history exactly when an LLM engine is set. */
  lemma GameEndReports(s: EngineState)
    ensures var t := GameEnd(s);
      && (SaveGame(ResultOf(s.game), s.playerSide) in t.effects[|s.effects|..] <==> s.llmEngineSet)
      && t.effects[|t.effects| - 2..] == [EmitGameEnd(ResultOf(s.game), s.playerSide), EndGame]
      && t.pieces == s.pieces && t.game == s.game
  {
    var t := GameEnd(s);
    assert t.effects[|s.effects|..] == (if s.llmEngineSet then [SaveGame(ResultOf(s.game), s.playerSide)] else []) + [EmitGameEnd(ResultOf(s.game), s.playerSide), EndGame];
  }

  /** After the player's move the AI is asked to move exactly when the AI is not stopped and the game is not over. */
  lemma AfterPlayerMoveAsksAiIff(s: EngineState, rules: ChessRules, r: MoveResult, reply: Option<Move>)
    ensures var t := AfterPlayerMove(s, rules, r, reply);
      && IsPrefix(s.effects, t.effects)
      && ((exists k :: |s.effects| <= k < |t.effects| && AsksAi(t.effects[k])) <==> !r.stopAi && !s.game.gameOver)
  {
    var t := AfterPlayerMove(s, rules, r, reply);
    if !r.stopAi && !s.game.gameOver {
      NotifyAiDispatch(s, rules, r.move, reply);
      assert AsksAi(t.effects[|s.effects|]);
    } else if s.game.gameOver {
      GameEndReports(s);
      assert t.effects == s.effects + t.effects[|s.effects|..];
    }
  }

  /** After the player's drop the AI is asked to move exactly when the AI is not stopped and the game is not over. */
  lemma DropAsksAiIff(s: EngineState, rules: ChessRules, to: Cell, reply: Option<Move>)
    requires s.selected.Some? && Legal(s, rules, s.selected.value.cell, to)
    ensures var (s1, r) := PieceMove(s, rules, to, s.selected.value);
      var t := Drop(s, rules, to, reply).0;
      (exists k :: |s.effects| <= k < |t.effects| && AsksAi(t.effects[k])) <==> !r.stopAi && !s1.game.gameOver
  {
    var (s1, r) := PieceMove(s, rules, to, s.selected.value);
    var t := Drop(s, rules, to, reply).0;
    PieceMoveEffects(s, rules, to, s.selected.value);
    var s2 := ReportPlayerMove(s1, r, InsightOf(s.insight, s.game.fen, r.move.san));
    AfterPlayerMoveAsksAiIff(s2, rules, r, reply);
    assert t == AfterPlayerMove(s2, rules, r, reply);
    forall k | |s.effects| <= k < |s2.effects|
      ensures !AsksAi(s2.effects[k]) && t.effects[k] == s2.effects[k]
    {
      if k < |s1.effects| {
        assert s2.effects[k] == s1.effects[k];
      }
      assert t.effects[..|s2.effects|] == s2.effects;
    }
  }

  /** Messages other than `aiMovePerformed` leave the engine as it was. */
  lemma WorkerIgnoresOtherMessages(s: EngineState, rules: ChessRules, e: WorkerEvent)
    requires e.kind != "aiMovePerformed"
    ensures OnWorker(s, rules, e) == s
  {
  }

  /** Only the player's pieces are selected; selecting one of them replaces the selection. */
  lemma SelectOnlyOwn(s: EngineState, piece: Placed)
    ensures Select(s, piece).selected == (if piece.color == s.playerSide then Some(piece) else s.selected)
    ensures Select(s, piece).(selected := s.selected) == s
  {
  }

  // ---------------------------------------------------------------------------
  // The engine
  // ---------------------------------------------------------------------------

  class Engine {
    var game: ChessState
    var pieces: Pieces
    var nextPieceId: nat
    var playerSide: Color
    var llmEngineSet: bool
    var llmEnabled: bool
    var insight: Option<IE.Rules>
    var selected: Option<Placed>
    var pending: Option<PromotionPayload>
    var effects: seq<Effect>
    const rules: ChessRules

    function State(): EngineState
      reads this
    {
      EngineState(game, pieces, nextPieceId, playerSide, llmEngineSet, llmEnabled, insight, selected, pending, effects)
    }

    method SetState(s: EngineState)
      modifies this
      ensures State() == s
    {
      game, pieces, nextPieceId, playerSide := s.game, s.pieces, s.nextPieceId, s.playerSide;
      llmEngineSet, llmEnabled, insight := s.llmEngineSet, s.llmEnabled, s.insight;
      selected, pending, effects := s.selected, s.pending, s.effects;
    }

    /**
     * A game with the scene's pieces, the side the player was drawn, and the
     * optional LLM engine and insight evaluator.
     */
    constructor (rules: ChessRules, start: ChessState, pieces: Pieces, nextPieceId: nat, playerSide: Color,
                 llmEngineSet: bool, llmEnabled: bool, insight: Option<IE.Rules>)
      requires PiecesValid(EngineState(start, pieces, nextPieceId, playerSide, llmEngineSet, llmEnabled, insight, None, None, []))
      ensures State() == EngineState(start, pieces, nextPieceId, playerSide, llmEngineSet, llmEnabled, insight, None, None, [])
      ensures this.rules == rules
    {
      this.rules := rules;
      game := start;
      this.pieces := pieces;
      this.nextPieceId := nextPieceId;
      this.playerSide := playerSide;
      this.llmEngineSet := llmEngineSet;
      this.llmEnabled := llmEnabled;
      this.insight := insight;
      selected := None;
      pending := None;
      effects := [];
    }

    /** `removePiece`. */
    method RemovePiece(key: Placed) returns (id: Option<nat>)
      modifies this
      ensures (State(), id) == Removed(old(State()), key)
    {
      id := if key in pieces then Some(pieces[key]) else None;
      pieces := pieces - {key};
    }

    /** `movePieceToField`. */
    method MovePieceToField(to: Cell, piece: Placed)
      modifies this
      ensures State() == Relocated(old(State()), piece, to)
    {
      if piece in pieces {
        pieces := (pieces - {piece})[Placed(piece.color, piece.kind, to) := pieces[piece]];
      }
    }

    /** `handleCastling`. */
    method HandleCastling(color: Color, side: CastleSide)
      modifies this
      ensures State() == Castled(old(State()), color, side)
    {
      var (from, to) := CastlingRook(color, side);
      MovePieceToField(to, Placed(color, Rook, from));
    }

    /** `handleEnPassante`. */
    method HandleEnPassant(color: Color, to: Cell) returns (id: Option<nat>)
      modifies this
      ensures (State(), id) == EnPassant(old(State()), color, to)
    {
      id := RemovePiece(Placed(Opposite(color), Pawn, EnPassantCell(color, to)));
    }

    /** `promotePiece`. */
    method PromotePiece(color: Color, to: Cell, piece: Placed, kind: Kind, move: Option<Move>) returns (removedId: Option<nat>, id: nat)
      requires OnBoard(to)
      modifies this
      ensures (State(), removedId, id) == Promote(old(State()), rules, color, to, piece, kind, move)
    {
      removedId := RemovePiece(Placed(color, Pawn, piece.cell));
      id := nextPieceId;
      pieces := pieces[Placed(color, kind, to) := id];
      nextPieceId := id + 1;
      game := rules.promote(game, SquareAt(to), kind, color);
      effects := effects + [PostPromote(color, kind, SquareName(SquareAt(to)), move)];
    }

    /** `handlePromotion`. */
    method HandlePromotion(color: Color, to: Cell, piece: Placed, move: Move) returns (r: FlagResult)
      requires OnBoard(to)
      modifies this
      ensures (State(), r) == Promotion(old(State()), rules, color, to, piece, move)
    {
      if color == playerSide {
        effects := effects + [PromptPromotion(color)];
        pending := Some(PromotionPayload(color, to, piece, move));
        return AwaitPromotion;
      }
      var removedId, id := PromotePiece(color, to, piece, Queen, None);
      r := Promoted(removedId, id);
    }

    /** `handleFlags`. */
    method HandleFlags(move: Move, to: Cell, piece: Placed) returns (r: FlagResult)
      requires OnBoard(to)
      modifies this
      ensures (State(), r) == Flags(old(State()), rules, move, to, piece)
    {
      if move.flags == "q" || move.flags == "k" {
        HandleCastling(move.color, if move.flags == "q" then QueenSide else KingSide);
        r := NoResult;
      } else if move.flags == "e" {
        var id := HandleEnPassant(move.color, to);
        r := RemovedId(id);
      } else if IsPromotionFlags(move.flags) {
        r := HandlePromotion(move.color, to, piece, move);
      } else {
        r := NoResult;
      }
    }

    /** `capturePiece` and the score board. */
    method CapturePiece(m: Move) returns (ids: seq<Option<nat>>)
      modifies this
      ensures (State(), ids) == Captured(old(State()), m)
    {
      ids := [];
      if m.captured.Some? {
        var id := RemovePiece(Placed(Opposite(m.color), m.captured.value, CellOf(m.to)));
        effects := effects + [Score(m.color, m.captured.value)];
        ids := [id];
      }
    }

    /** `handlePieceMove`. */
    method HandlePieceMove(to: Cell, piece: Placed) returns (r: MoveResult)
      requires Legal(State(), rules, piece.cell, to)
      modifies this
      ensures (State(), r) == PieceMove(old(State()), rules, to, piece)
    {
      var played := rules.move(game, SquareAt(piece.cell), SquareAt(to)).value;
      var m := played.move;
      game := played.next;
      var removed := CapturePiece(m);
      var flag := HandleFlags(m, to, piece);
      var extra := FlagIds(flag);
      removed := removed + extra;
      MovePieceToField(to, piece);
      r := MoveResult(removed, m, if flag.Promoted? then Some(flag.promotedPiece) else None, flag == AwaitPromotion);
    }

    /** `getGameResult`. */
    method GetGameResult() returns (r: GameResult)
      ensures r == ResultOf(game)
    {
      if game.inCheckmate {
        return if game.turn == White then BlackWins else WhiteWins;
      }
      return Draw;
    }

    /** `handleLLMGameEnd` with the `game:end` event and the end-game callback. */
    method EndTheGame()
      modifies this
      ensures State() == GameEnd(old(State()))
    {
      var result := GetGameResult();
      if llmEngineSet {
        effects := effects + [SaveGame(result, playerSide)];
      }
      effects := effects + [EmitGameEnd(result, playerSide), EndGame];
    }

    /** `performAiMove`. */
    method PerformAiMove(m: Move) returns (r: MoveResult)
      requires rules.move(game, m.from, m.to).Some?
      modifies this
      ensures (State(), r) == AiMove(old(State()), rules, m)
    {
      CellSquareRoundTrip(m.from, CellOf(m.from));
      CellSquareRoundTrip(m.to, CellOf(m.to));
      r := HandlePieceMove(CellOf(m.to), Placed(m.color, m.piece, CellOf(m.from)));
    }

    /** `notifyLLMToMove`, with the LLM engine's answer given. */
    method NotifyLlmToMove(playerMove: Move, reply: Option<Move>)
      modifies this
      ensures State() == NotifyLlm(old(State()), rules, playerMove, reply)
    {
      effects := effects + [LlmUpdate(playerMove)];
      if reply.None? {
        effects := effects + [PostAiMove(playerMove)];
        return;
      }
      var m := reply.value;
      if rules.move(game, m.from, m.to).None? {
        return;
      }
      LlmMove(m);
    }

    /** The LLM engine's move played on the board, announced, and possibly ending the game. */
    method LlmMove(m: Move)
      requires rules.move(game, m.from, m.to).Some?
      modifies this
      ensures State() == LlmMoved(old(State()), rules, m)
    {
      var r := PerformAiMove(m);
      var over := game.gameOver;
      effects := effects + [EmitAiMove(m, m.captured.Some?, IsCheck(m)), AiMoveDone(ActionOf(r))];
      if over {
        EndTheGame();
      }
    }

    /** `notifyAiToMove`. */
    method NotifyAiToMove(playerMove: Move, reply: Option<Move>)
      modifies this
      ensures State() == NotifyAi(old(State()), rules, playerMove, reply)
    {
      if llmEngineSet && llmEnabled {
        NotifyLlmToMove(playerMove, reply);
        return;
      }
      effects := effects + [PostAiMove(playerMove)];
    }

    /** The `player:move` event of `performPlayerMove`. */
    method ReportMove(r: MoveResult, moveInsight: Option<IE.MoveInsight>)
      modifies this
      ensures State() == ReportPlayerMove(old(State()), r, moveInsight)
    {
      effects := effects + [EmitPlayerMove(r.move, r.move.captured.Some?, IsCheck(r.move), moveInsight)];
    }

    /** The rest of `dropPiece` once the move is played and reported. */
    method FinishPlayerTurn(r: MoveResult, reply: Option<Move>)
      modifies this
      ensures State() == AfterPlayerMove(old(State()), rules, r, reply)
    {
      var over := game.gameOver;
      if over {
        EndTheGame();
      }
      if !r.stopAi && !over {
        NotifyAiToMove(r.move, reply);
      }
    }

    /** `dropPiece`, through `performPlayerMove`. */
    method DropPiece(to: Cell, reply: Option<Move>) returns (a: ActionResult)
      requires selected.Some? && Legal(State(), rules, selected.value.cell, to)
      modifies this
      ensures (State(), a) == Drop(old(State()), rules, to, reply)
    {
      var fenBefore := game.fen;
      var evaluator := insight;
      var r := HandlePieceMove(to, selected.value);
      var moveInsight: Option<IE.MoveInsight> := None;
      if evaluator.Some? {
        var i := IE.AnalyzePlayerMove(fenBefore, r.move.san, evaluator.value);
        moveInsight := Some(i);
      }
      assert moveInsight == InsightOf(evaluator, fenBefore, r.move.san);
      ReportMove(r, moveInsight);
      FinishPlayerTurn(r, reply);
      a := ActionOf(r);
    }

    /** The promotion buttons' callback. */
    method OnPromotionChosen(kind: Kind, reply: Option<Move>)
      requires pending.Some? && OnBoard(pending.value.to)
      modifies this
      ensures State() == CompletePromotion(old(State()), rules, kind, reply)
    {
      var p := pending.value;
      pending := None;
      var removedId, id := PromotePiece(p.color, p.to, Placed(p.piece.color, p.piece.kind, p.to), kind, Some(p.move));
      effects := effects + [PromotionDone(removedId, id)];
      NotifyAiToMove(p.move, reply);
    }

    /** The callback `createWebWorkerCallback` installs. */
    method OnWorkerMessage(e: WorkerEvent)
      requires e.kind == "aiMovePerformed" ==> rules.move(game, e.aiMove.from, e.aiMove.to).Some?
      modifies this
      ensures State() == OnWorker(old(State()), rules, e)
    {
      if e.kind != "aiMovePerformed" {
        return;
      }
      var r := PerformAiMove(e.aiMove);
      var over := game.gameOver;
      effects := effects + [AiMoveDone(ActionOf(r))];
      if over {
        effects := effects + [EndGame];
      }
    }

    /** `select`. */
    method SelectPiece(piece: Placed)
      modifies this
      ensures State() == Select(old(State()), piece)
    {
      if piece.color != playerSide {
        return;
      }
      selected := Some(piece);
    }

    /** `deselect`: a drop on a marked field plays the move; either way the selection is released. */
    method Deselect(droppable: bool, to: Cell, reply: Option<Move>) returns (a: Option<ActionResult>)
      requires selected.Some? && (droppable ==> Legal(State(), rules, selected.value.cell, to))
      modifies this
      ensures (State(), a) == Release(old(State()), rules, droppable, to, reply)
    {
      a := None;
      if droppable {
        var r := DropPiece(to, reply);
        a := Some(r);
      }
      selected := None;
    }
  }
}
