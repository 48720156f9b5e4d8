/** The score ledger: one signed score per end, the side a score stands for,
    the audit log of corrections, and the game record that is persisted. */
module Ledger {

  datatype Option<T> = None | Some(value: T)

  /** The side that took an end. The sign of an end's score is the only
      place a side is recorded: positive for home, negative for away, zero
      for a tie. */
  datatype Side = Home | Away | Tie

  function Abs(x: int): (r: nat)
  {
    if x < 0 then -x else x
  }

  /** The side a signed end score stands for (the before-score of the edit
      panel is classified this way). */
  function SideOf(score: int): (s: Side)
  {
    if score > 0 then Home else if score < 0 then Away else Tie
  }

  /** The signed score of an end that `side` took by `margin` points. */
  function Signed(side: Side, margin: nat): (score: int)
  {
    match side
    case Home => margin
    case Away => -(margin as int)
    case Tie => 0
  }

  /** A score is recovered from its side and its displayed magnitude. */
  lemma SignedSideOf(score: int)
    ensures Signed(SideOf(score), Abs(score)) == score
  {
  }

  /** A side and a margin are recovered from the score they sign, unless the
      margin is zero, which every side signs as a tie. */
  lemma SideOfSigned(side: Side, margin: nat)
    ensures Abs(Signed(side, margin)) == if side == Tie then 0 else margin
    ensures margin > 0 || side == Tie ==> SideOf(Signed(side, margin)) == side
    ensures margin == 0 ==> Signed(side, margin) == 0
  {
  }

  /** One correction: the 1-based end number, the score before and after. */
  datatype LogEntry = LogEntry(end: int, oldScore: int, newScore: int)

  /** The game as it is stored under the "currentGame" key. A game that was
      never corrected has no log at all. */
  datatype GameRecord = GameRecord(
    gameId: string,
    date: int,
    scores: seq<int>,
    logs: Option<seq<LogEntry>>)

  /** The log after appending `entry`: appended to the existing log, or a
      new log holding only `entry` when there was none. */
  function PushLog(logs: Option<seq<LogEntry>>, entry: LogEntry): (r: Option<seq<LogEntry>>)
    ensures r.Some? && |r.value| == (if logs.Some? then |logs.value| else 0) + 1
    ensures r.value[|r.value| - 1] == entry
    ensures logs.Some? ==> r.value[..|logs.value|] == logs.value
  {
    match logs
    case Some(entries) => Some(entries + [entry])
    case None => Some([entry])
  }

  /** The ledger after end number `end` (1-based) is corrected to `newScore`,
      together with the log entry that records the correction. */
  function Amend(scores: seq<int>, end: int, newScore: int): (r: (seq<int>, LogEntry))
    requires 1 <= end <= |scores|
    ensures |r.0| == |scores|
    ensures r.0[end - 1] == newScore
    ensures forall i :: 0 <= i < |scores| && i != end - 1 ==> r.0[i] == scores[i]
    ensures r.1.end == end && r.1.newScore == newScore && r.1.oldScore == scores[end - 1]
  {
    (scores[end - 1 := newScore], LogEntry(end, scores[end - 1], newScore))
  }

  /** The log entry of a correction holds enough to take it back. */
  lemma LogEntryUndoesAmend(scores: seq<int>, end: int, newScore: int)
    requires 1 <= end <= |scores|
    ensures var (amended, entry) := Amend(scores, end, newScore);
            1 <= entry.end <= |amended| &&
            Amend(amended, entry.end, entry.oldScore).0 == scores
  {
    var (amended, entry) := Amend(scores, end, newScore);
    var undone := Amend(amended, entry.end, entry.oldScore).0;
    assert |undone| == |scores|;
    forall i | 0 <= i < |scores| ensures undone[i] == scores[i] {
    }
  }

  /** A game held in memory by one of the two pages. */
  class Game {
    const gameId: string
    const date: int
    var scores: seq<int>
    var logs: Option<seq<LogEntry>>

    /** The value that is written to storage. */
    function Record(): (r: GameRecord)
      reads this
    {
      GameRecord(gameId, date, scores, logs)
    }

    /** A game parsed from its stored record, or a new game built from one. */
    constructor FromRecord(r: GameRecord)
      ensures Record() == r
    {
      gameId, date := r.gameId, r.date;
      scores, logs := r.scores, r.logs;
    }
  }

  /** The browser's key-value store, reduced to its "currentGame" key. */
  class LocalStore {
    var currentGame: Option<GameRecord>

    constructor (item: Option<GameRecord>)
      ensures currentGame == item
    {
      currentGame := item;
    }
  }
}
