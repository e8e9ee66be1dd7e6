/**
 * The persisted list of finished games, newest first and capped at fifty. The
 * browser's storage entry is one cell holding either nothing, a well-formed
 * list, or text that does not parse; the JSON encoding round-trips, so a stored
 * list is modelled by the list itself.
 */
module GameHistoryStore {
  import opened Text

  const MaxGames: nat := 50

  datatype Side = White | Black
  datatype GameResult = WhiteWon | BlackWon | Draw
  datatype Personality = Chill | Savage

  datatype PlayerGameStats = PlayerGameStats(brilliantMoves: int, blunders: int, missedWins: int,
                                             longestGoodStreak: int, accuracy: int)

  /** `summary == ""` stands for an absent summary. */
  datatype GameRecord = GameRecord(
    id: string,
    date: string,
    result: GameResult,
    pgn: string,
    provider: string,
    model: string,
    playerColor: Side,
    moveCount: int,
    summary: string,
    personality: Option<Personality>,
    playerStats: Option<PlayerGameStats>)

  /** The storage cell: no entry (or an empty one), a parsable list, or unparsable text. */
  datatype Stored = Missing | Records(games: seq<GameRecord>) | Malformed

  /** `getHistory`: the stored list, or the empty list when nothing parsable is stored. */
  function History(cell: Stored): (h: seq<GameRecord>)
    ensures cell.Records? ==> h == cell.games
    ensures !cell.Records? ==> h == []
  {
    if cell.Records? then cell.games else []
  }

  /** The list after `save`: the new record in front, the oldest records beyond fifty dropped. */
  function Saved(history: seq<GameRecord>, record: GameRecord): (r: seq<GameRecord>)
    ensures |r| == if |history| + 1 <= MaxGames then |history| + 1 else MaxGames
    ensures r[0] == record
    ensures r[1..] == history[..|r| - 1]
  {
    var pushed := [record] + history;
    if |pushed| > MaxGames then pushed[..MaxGames] else pushed
  }

  /** `find`: the first record with the identifier. */
  function FindGame(history: seq<GameRecord>, id: string): (r: Option<GameRecord>)
    ensures r.Some? ==> r.value in history && r.value.id == id
    ensures r.None? <==> forall k :: 0 <= k < |history| ==> history[k].id != id
    ensures r.Some? ==> exists k :: 0 <= k < |history| && history[k] == r.value
                                    && forall j :: 0 <= j < k ==> history[j].id != id
  {
    if |history| == 0 then None
    else if history[0].id == id then
      assert history[0] == history[0];
      Some(history[0])
    else
      var rest := FindGame(history[1..], id);
      if rest.Some? then
        var k :| 0 <= k < |history[1..]| && history[1..][k] == rest.value
                 && forall j :: 0 <= j < k ==> history[1..][j].id != id;
        assert history[k + 1] == rest.value;
        rest
      else
        assert forall k :: 1 <= k < |history| ==> history[k] == history[1..][k - 1];
        rest
  }

  function ResultText(result: GameResult): (t: string)
    ensures result == Draw <==> t == "ended in a draw"
    ensures result == WhiteWon ==> t == "white won"
    ensures result == BlackWon ==> t == "black won"
  {
    match result
    case Draw => "ended in a draw"
    case WhiteWon => "white won"
    case BlackWon => "black won"
  }

  function Describe(last: GameRecord): string
  {
    "Last game (" + last.date + "): " + IntToString(last.moveCount) + " moves, " + ResultText(last.result)
      + ". Model: " + last.model + "." + (if last.summary != "" then " " + last.summary else "")
  }

  /** `getLastGameSummary`: absent exactly for an empty history, otherwise a description of the newest game. */
  function LastGameSummary(history: seq<GameRecord>): (r: Option<string>)
    ensures r.None? <==> history == []
    ensures r.Some? ==> r.value == Describe(history[0])
  {
    if |history| == 0 then None else Some(Describe(history[0]))
  }

  class GameHistoryStore {
    var storage: Stored

    constructor (initial: Stored)
      ensures storage == initial
    {
      storage := initial;
    }

    method Save(record: GameRecord)
      modifies this
      ensures storage == Records(Saved(History(old(storage)), record))
    {
      var history := GetHistory();
      history := [record] + history;
      if |history| > MaxGames {
        history := history[..MaxGames];
      }
      storage := Records(history);
    }

    method GetHistory() returns (h: seq<GameRecord>)
      ensures h == History(storage)
    {
      if storage.Records? {
        h := storage.games;
      } else {
        h := [];
      }
    }

    method GetGame(id: string) returns (r: Option<GameRecord>)
      ensures r == FindGame(History(storage), id)
    {
      var history := GetHistory();
      r := FindGame(history, id);
    }

    method GetLastGameSummary() returns (r: Option<string>)
      ensures r == LastGameSummary(History(storage))
    {
      var history := GetHistory();
      if |history| == 0 {
        return None;
      }
      r := Some(Describe(history[0]));
    }

    method ClearHistory()
      modifies this
      ensures History(storage) == []
    {
      storage := Missing;
    }
  }

  /** The game just saved is the one the next summary describes. */
  lemma SummaryAfterSave(cell: Stored, record: GameRecord)
    ensures LastGameSummary(History(Records(Saved(History(cell), record)))) == Some(Describe(record))
  {
  }

  /** Saving twice keeps the earlier game right behind the later one. */
  lemma {:induction false} SaveTwiceOrder(history: seq<GameRecord>, first: GameRecord, second: GameRecord)
    ensures Saved(Saved(history, first), second)[..2] == [second, first]
  {
    var once := Saved(history, first);
    var twice := Saved(once, second);
    assert |once| >= 1;
    assert twice[1..][0] == once[0];
  }

  /** A game just saved is found again by its identifier, being first in the list. */
  lemma SavedGameFound(history: seq<GameRecord>, record: GameRecord)
    ensures FindGame(Saved(history, record), record.id) == Some(record)
  {
  }
}
