/**
 * The game shell's decisions: the end-of-game message and result type, and
 * how the listeners on `player:move`, `ai:move` and `game:end` route a move to
 * commentary, to the streak record and to the opponent's spoken reaction.
 */
module GameFlow {
  import opened Text
  import opened BoardGeometry
  import IE = InsightEngine
  import CGE = ChessGameEngine
  import G = Gamification

  // ---------------------------------------------------------------------------
  // End of game
  // ---------------------------------------------------------------------------

  /** What the rules engine reports about a finished game. */
  datatype Ending = Ending(turn: Color, inCheckmate: bool, inStalemate: bool, inThreefold: bool, inDraw: bool)

  /** The result type shown on the end-of-game panel. */
  datatype ResultType = Win | Loss | Drawn

  /** `getEndGameMessage`. */
  function EndGameMessage(e: Ending, player: Color): string
  {
    if e.inCheckmate then (if e.turn == player then "You lost by checkmate" else "You won by checkmate!")
    else if e.inStalemate then "Draw by stalemate"
    else if e.inThreefold then "Draw by threefold repetition"
    else if e.inDraw then "Draw"
    else "Game over"
  }

  /** The result type `onEndGame` computes. */
  function ResultTypeOf(e: Ending, player: Color): ResultType
  {
    if e.inCheckmate then (if e.turn == player then Loss else Win) else Drawn
  }

  /** Checkmate is reported as the player's loss exactly when the player is the side to move. */
  lemma CheckmateMessage(e: Ending, player: Color)
    requires e.inCheckmate
    ensures EndGameMessage(e, player) == "You lost by checkmate" <==> e.turn == player
    ensures EndGameMessage(e, player) == "You won by checkmate!" <==> e.turn != player
  {
  }

  /**
   * The message checks checkmate first, then stalemate, then threefold
   * repetition, then a draw: a later condition only shows when every earlier
   * one is false, and "Game over" only when none holds.
   */
  lemma MessagePriority(e: Ending, player: Color)
    ensures EndGameMessage(e, player) == "Draw by stalemate" <==> !e.inCheckmate && e.inStalemate
    ensures EndGameMessage(e, player) == "Draw by threefold repetition" <==> !e.inCheckmate && !e.inStalemate && e.inThreefold
    ensures EndGameMessage(e, player) == "Draw" <==> !e.inCheckmate && !e.inStalemate && !e.inThreefold && e.inDraw
    ensures EndGameMessage(e, player) == "Game over" <==> !e.inCheckmate && !e.inStalemate && !e.inThreefold && !e.inDraw
  {
  }

  /** Loss, win and draw, each stated as a condition on the ending. */
  lemma ResultTypeCases(e: Ending, player: Color)
    ensures ResultTypeOf(e, player) == Loss <==> e.inCheckmate && e.turn == player
    ensures ResultTypeOf(e, player) == Win <==> e.inCheckmate && e.turn != player
    ensures ResultTypeOf(e, player) == Drawn <==> !e.inCheckmate
  {
  }

  /** The panel's result type and its headline never disagree. */
  lemma ResultMatchesMessage(e: Ending, player: Color)
    ensures ResultTypeOf(e, player) == Loss <==> EndGameMessage(e, player) == "You lost by checkmate"
    ensures ResultTypeOf(e, player) == Win <==> EndGameMessage(e, player) == "You won by checkmate!"
  {
  }

  /** The shell's result type agrees with the result the game engine reports for the same position. */
  lemma ResultMatchesEngine(g: CGE.ChessState, e: Ending, player: Color)
    requires g.turn == e.turn && g.inCheckmate == e.inCheckmate
    ensures ResultTypeOf(e, player) == Win <==> CGE.ResultOf(g) == (if player == White then CGE.WhiteWins else CGE.BlackWins)
    ensures ResultTypeOf(e, player) == Loss <==> CGE.ResultOf(g) == (if player == White then CGE.BlackWins else CGE.WhiteWins)
    ensures ResultTypeOf(e, player) == Drawn <==> CGE.ResultOf(g) == CGE.Draw
  {
  }

  function ResultName(r: CGE.GameResult): string
  {
    match r
    case WhiteWins => "white"
    case BlackWins => "black"
    case Draw => "draw"
  }

  function ColorName(c: Color): string
  {
    match c
    case White => "white"
    case Black => "black"
  }

  /** The line the `game:end` listener hands to the opponent. */
  function GameEndLine(result: CGE.GameResult, player: Color): (line: string)
    ensures StartsWith(line, "Game over: ")
  {
    "Game over: " + ResultName(result) + (". Player was " + ColorName(player) + ".")
  }

  /** The line names both the result and the player's colour. */
  lemma GameEndLineNames(result: CGE.GameResult, player: Color)
    ensures Contains(GameEndLine(result, player), ResultName(result))
    ensures Contains(GameEndLine(result, player), ColorName(player))
  {
    ContainsInfix("Game over: ", ResultName(result), ". Player was " + ColorName(player) + ".");
    assert GameEndLine(result, player) == ("Game over: " + ResultName(result) + ". Player was ") + ColorName(player) + ".";
    ContainsInfix("Game over: " + ResultName(result) + ". Player was ", ColorName(player), ".");
  }

  /** `onEndGame`: the headline, the result type and the streak statistics, when the record exists. */
  method OnEndGame(gam: G.Engine?, e: Ending, player: Color) returns (message: string, result: ResultType, stats: Option<G.PlayerGameStats>)
    requires gam != null ==> gam.Valid()
    ensures message == EndGameMessage(e, player) && result == ResultTypeOf(e, player)
    ensures gam == null <==> stats.None?
    ensures stats.Some? ==> stats.value.brilliantMoves + stats.value.blunders + stats.value.missedWins <= |gam.moveQualities|
    ensures stats.Some? ==> stats.value.accuracy == G.Accuracy(gam.moveQualities)
  {
    message := EndGameMessage(e, player);
    result := Drawn;
    if e.inCheckmate {
      result := if e.turn == player then Loss else Win;
    }
    stats := None;
    if gam != null {
      var s := gam.GetEndGameStats();
      stats := Some(s);
    }
  }

  /** `restartGame`: the streak record starts over. */
  method RestartGame(gam: G.Engine?)
    modifies gam
    ensures gam != null ==> gam.Valid() && gam.moveQualities == [] && gam.currentStreak == 0 && gam.bestStreak == 0
  {
    if gam != null {
      gam.Reset();
    }
  }

  // ---------------------------------------------------------------------------
  // Move listeners
  // ---------------------------------------------------------------------------

  /** The opponent's spoken reactions the listeners can trigger, with the move and board summary they pass. */
  datatype Reaction =
    | ReactToPlayerMove(san: string, summary: string)
    | ReactToCheck(san: string, summary: string)
    | ReactToCapture(san: string, summary: string)
    | CelebrateAiMove(san: string, summary: string)
    | ReactToOwnBadMove(san: string, summary: string)
    | NoReaction

  /** The `player:move` payload. */
  datatype PlayerMoveData = PlayerMoveData(san: string, boardSummary: string, isCapture: bool, isCheck: bool, insight: Option<IE.MoveInsight>)

  /** The `ai:move` payload; `fenBefore` is optional. */
  datatype AiMoveData = AiMoveData(san: string, boardSummary: string, isCapture: bool, isCheck: bool, fenBefore: Option<string>)

  predicate IsBad(q: IE.Quality)
  {
    q == IE.Blunder || q == IE.MissedWin
  }

  /** The reaction the `player:move` listener triggers. */
  function PlayerMoveReaction(d: PlayerMoveData): Reaction
  {
    if d.insight.Some? && IsBad(d.insight.value.quality) then ReactToPlayerMove(d.san, d.boardSummary)
    else if d.isCheck then ReactToCheck(d.san, d.boardSummary)
    else NoReaction
  }

  /** A bad move draws a comment on it, otherwise a check draws a check comment, otherwise nothing is said. */
  lemma PlayerMoveReactionCases(d: PlayerMoveData)
    ensures PlayerMoveReaction(d).ReactToPlayerMove? <==> d.insight.Some? && IsBad(d.insight.value.quality)
    ensures PlayerMoveReaction(d).ReactToCheck? <==> !(d.insight.Some? && IsBad(d.insight.value.quality)) && d.isCheck
    ensures PlayerMoveReaction(d) == NoReaction <==> !(d.insight.Some? && IsBad(d.insight.value.quality)) && !d.isCheck
    ensures PlayerMoveReaction(d) != NoReaction ==> PlayerMoveReaction(d).san == d.san
  {
  }

  /** The label shown before an insight in the commentary panel. */
  function QualityLabel(q: IE.Quality): (name: string)
    ensures name != ""
  {
    match q
    case Brilliant => "Brilliant!"
    case Good => "Good"
    case Inaccuracy => "Inaccuracy"
    case Blunder => "Blunder"
    case MissedWin => "Missed Win"
  }

  /** The commentary line: the label, a dash, and the explanation or, when it is empty, the move played. */
  function Commentary(insight: IE.MoveInsight): (line: string)
    ensures StartsWith(line, QualityLabel(insight.quality))
  {
    QualityLabel(insight.quality) + (" " + IE.Dash + " " + (if insight.explanation == "" then "You played " + insight.playerMove else insight.explanation))
  }

  /** The commentary always carries the explanation, or the move played when there is none. */
  lemma CommentaryCarries(insight: IE.MoveInsight)
    ensures insight.explanation != "" ==> Contains(Commentary(insight), insight.explanation)
    ensures insight.explanation == "" ==> Contains(Commentary(insight), insight.playerMove)
  {
    var head := QualityLabel(insight.quality) + " " + IE.Dash + " ";
    if insight.explanation != "" {
      assert Commentary(insight) == head + insight.explanation + "";
      ContainsInfix(head, insight.explanation, "");
    } else {
      assert Commentary(insight) == (head + "You played ") + insight.playerMove + "";
      ContainsInfix(head + "You played ", insight.playerMove, "");
    }
  }

  /** The verdicts the `player:move` listener adds to the streak record: the insight's, when there is one and insights are on. */
  function Recorded(d: PlayerMoveData, insightsOn: bool): seq<IE.Quality>
  {
    if d.insight.Some? && insightsOn then [d.insight.value.quality] else []
  }

  /** The `player:move` listener: commentary and the streak record when insights are on, then the opponent's reaction. */
  method OnPlayerMove(gam: G.Engine?, insightsOn: bool, d: PlayerMoveData) returns (commentary: Option<string>, reaction: Reaction)
    requires gam != null ==> gam.Valid()
    modifies gam
    ensures commentary == (if d.insight.Some? && insightsOn then Some(Commentary(d.insight.value)) else None)
    ensures reaction == PlayerMoveReaction(d)
    ensures gam != null ==> gam.Valid() && gam.moveQualities == old(gam.moveQualities) + Recorded(d, insightsOn)
  {
    commentary := None;
    if d.insight.Some? && insightsOn {
      commentary := Some(Commentary(d.insight.value));
      if gam != null {
        gam.RecordMoveQuality(d.insight.value.quality);
      }
    }
    if d.insight.Some? && (d.insight.value.quality == IE.Blunder || d.insight.value.quality == IE.MissedWin) {
      reaction := ReactToPlayerMove(d.san, d.boardSummary);
    } else if d.isCheck {
      reaction := ReactToCheck(d.san, d.boardSummary);
    } else {
      reaction := NoReaction;
    }
  }

  /** Whether the AI's own move is analysed: an insight engine and a non-empty position before the move. */
  predicate SelfReview(d: AiMoveData, engine: Option<IE.Rules>)
  {
    engine.Some? && d.fenBefore.Some? && d.fenBefore.value != ""
  }

  /** The reaction the `ai:move` listener triggers. */
  function AiMoveReaction(d: AiMoveData, engine: Option<IE.Rules>): Reaction
  {
    if SelfReview(d, engine) && IsBad(IE.Analysis(d.fenBefore.value, d.san, engine.value).quality) then
      ReactToOwnBadMove(d.san, d.boardSummary)
    else if d.isCapture then ReactToCapture(d.san, d.boardSummary)
    else if d.isCheck then ReactToCheck(d.san, d.boardSummary)
    else CelebrateAiMove(d.san, d.boardSummary)
  }

  /**
   * The AI's own bad move silences every other reaction; otherwise a capture
   * outranks a check, and a quiet move is celebrated. Something is always said.
   */
  lemma AiMoveReactionCases(d: AiMoveData, engine: Option<IE.Rules>)
    ensures var bad := SelfReview(d, engine) && IsBad(IE.Analysis(d.fenBefore.value, d.san, engine.value).quality);
      && (AiMoveReaction(d, engine).ReactToOwnBadMove? <==> bad)
      && (AiMoveReaction(d, engine).ReactToCapture? <==> !bad && d.isCapture)
      && (AiMoveReaction(d, engine).ReactToCheck? <==> !bad && !d.isCapture && d.isCheck)
      && (AiMoveReaction(d, engine).CelebrateAiMove? <==> !bad && !d.isCapture && !d.isCheck)
    ensures AiMoveReaction(d, engine) != NoReaction && AiMoveReaction(d, engine).san == d.san
  {
  }

  /** Without the position before the move, the AI never criticises its own move. */
  lemma NoSelfReviewWithoutPosition(d: AiMoveData, engine: Option<IE.Rules>)
    requires d.fenBefore.None?
    ensures !AiMoveReaction(d, engine).ReactToOwnBadMove?
  {
  }

  /** The `ai:move` listener: analyse the AI's move when possible, then pick one reaction. */
  method OnAiMove(engine: Option<IE.Rules>, d: AiMoveData) returns (reaction: Reaction)
    ensures reaction == AiMoveReaction(d, engine)
  {
    if engine.Some? && d.fenBefore.Some? && d.fenBefore.value != "" {
      var aiInsight := IE.AnalyzePlayerMove(d.fenBefore.value, d.san, engine.value);
      if aiInsight.quality == IE.Blunder || aiInsight.quality == IE.MissedWin {
        return ReactToOwnBadMove(d.san, d.boardSummary);
      }
    }
    if d.isCapture {
      reaction := ReactToCapture(d.san, d.boardSummary);
    } else if d.isCheck {
      reaction := ReactToCheck(d.san, d.boardSummary);
    } else {
      reaction := CelebrateAiMove(d.san, d.boardSummary);
    }
  }
}
