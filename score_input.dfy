/** The score-entry page: it loads the game, keeps its own running counters
    beside the ledger, and appends one end per confirmed entry. */
module ScoreInput {
  import opened Ledger
  import opened Aggregate

  /** The element whose click handler `buttonPressed` runs. */
  datatype ScoreLabel = HomeScoreLabel | AwayScoreLabel | OtherLabel

  /** The element a click on the score panel's number pad lands on: a number
      key or the tie key, each with the value of its data attribute, or
      anything else. */
  datatype PadTarget = NumButton(value: nat) | TieButton(value: nat) | OtherTarget

  class ScoreInputPage {
    /** Storage, shared with the scorecard page. */
    const store: LocalStore

    var endCount: int
    var homeScore: int
    var awayScore: int
    var currentGame: Game?

    /** The side whose score label opened the score panel; None is null. */
    var sidePicked: Option<Side>
    /** The value of the key pressed on the score panel; None is null. */
    var numPressed: Option<nat>
    /** The score panel's confirm button is enabled. */
    var confirmEnabled: bool

    /** The counters the page keeps agree with the totals derived from the
        ledger, and the end count with its length. */
    ghost predicate CountersAgree()
      reads this, currentGame
    {
      && currentGame != null
      && homeScore == HomeTotal(currentGame.scores)
      && awayScore == AwayTotal(currentGame.scores)
      && endCount == |currentGame.scores|
    }

    /** The page as it is first loaded, with the score panel closed. */
    constructor (store: LocalStore)
      ensures this.store == store
      ensures endCount == 0 && homeScore == 0 && awayScore == 0 && currentGame == null
      ensures sidePicked == None && numPressed == None && !confirmEnabled
    {
      this.store := store;
      endCount, homeScore, awayScore := 0, 0, 0;
      currentGame := null;
      sidePicked, numPressed, confirmEnabled := None, None, false;
    }

    /** refreshScores: load the stored game and derive the counters from its
        ledger; with no stored game, start a new one identified by `newId`
        and dated `now`, leaving the counters as they were. */
    method RefreshScores(newId: string, now: int)
      modifies this
      ensures currentGame != null && fresh(currentGame)
      ensures store.currentGame.Some? ==>
                currentGame.Record() == store.currentGame.value && CountersAgree()
      ensures store.currentGame.None? ==>
                && currentGame.Record() == GameRecord(newId, now, [], None)
                && endCount == old(endCount) && homeScore == old(homeScore)
                && awayScore == old(awayScore)
      ensures sidePicked == old(sidePicked) && numPressed == old(numPressed)
      ensures confirmEnabled == old(confirmEnabled)
    {
      if store.currentGame.Some? {
        currentGame := new Game.FromRecord(store.currentGame.value);
        homeScore := Sum(Positives(currentGame.scores));
        awayScore := Sum(Negated(Negatives(currentGame.scores)));
        endCount := |currentGame.scores|;
      } else {
        currentGame := new Game.FromRecord(GameRecord(newId, now, [], None));
      }
    }

    /** buttonPressed: a score label picks the side whose end is entered. */
    method ButtonPressed(pressed: ScoreLabel)
      modifies this
      ensures pressed == HomeScoreLabel ==> sidePicked == Some(Home)
      ensures pressed == AwayScoreLabel ==> sidePicked == Some(Away)
      ensures pressed == OtherLabel ==> sidePicked == old(sidePicked)
      ensures numPressed == old(numPressed) && confirmEnabled == old(confirmEnabled)
      ensures currentGame == old(currentGame) && endCount == old(endCount)
      ensures homeScore == old(homeScore) && awayScore == old(awayScore)
    {
      match pressed
      case HomeScoreLabel => sidePicked := Some(Home);
      case AwayScoreLabel => sidePicked := Some(Away);
      case OtherLabel =>
    }

    /** recordScore: a number key or the tie key is remembered and enables
        confirm; a click anywhere else on the pad is ignored. */
    method RecordScore(target: PadTarget)
      modifies this
      ensures target.OtherTarget? ==>
                numPressed == old(numPressed) && confirmEnabled == old(confirmEnabled)
      ensures !target.OtherTarget? ==> numPressed == Some(target.value) && confirmEnabled
      ensures sidePicked == old(sidePicked) && currentGame == old(currentGame)
      ensures endCount == old(endCount) && homeScore == old(homeScore)
      ensures awayScore == old(awayScore)
    {
      if target.OtherTarget? {
        return;
      }
      numPressed := Some(target.value);
      confirmEnabled := true;
    }

    /** closeScorePanel: forget the key and the side, disable confirm. */
    method CloseScorePanel()
      modifies this
      ensures numPressed == None && sidePicked == None && !confirmEnabled
      ensures currentGame == old(currentGame) && endCount == old(endCount)
      ensures homeScore == old(homeScore) && awayScore == old(awayScore)
    {
      numPressed := None;
      sidePicked := None;
      confirmEnabled := false;
    }

    /** confirmScoreInput: count the end, append the pressed value signed by
        the picked side and add it to that side's counter, report whether the
        end count still matches the ledger, save the game and close the panel.
        With no valid side nothing is appended, yet the end is counted. */
    method ConfirmScoreInput() returns (inSync: bool)
      requires currentGame != null && numPressed.Some?
      modifies this, currentGame, store
      ensures currentGame == old(currentGame)
      ensures endCount == old(endCount) + 1
      ensures old(sidePicked) == Some(Home) ==>
                && currentGame.scores == old(currentGame.scores) + [old(numPressed.value)]
                && homeScore == old(homeScore) + old(numPressed.value)
                && awayScore == old(awayScore)
      ensures old(sidePicked) == Some(Away) ==>
                && currentGame.scores == old(currentGame.scores) + [-(old(numPressed.value) as int)]
                && awayScore == old(awayScore) + old(numPressed.value)
                && homeScore == old(homeScore)
      ensures old(sidePicked) != Some(Home) && old(sidePicked) != Some(Away) ==>
                && currentGame.scores == old(currentGame.scores)
                && homeScore == old(homeScore) && awayScore == old(awayScore)
      ensures currentGame.logs == old(currentGame.logs)
      ensures inSync <==> endCount == |currentGame.scores|
      ensures store.currentGame == Some(currentGame.Record())
      ensures numPressed == None && sidePicked == None && !confirmEnabled
      // the counters stay in step with the ledger exactly when a side was picked
      ensures old(CountersAgree()) && old(sidePicked) in {Some(Home), Some(Away)} ==>
                CountersAgree() && inSync
      ensures old(CountersAgree()) && old(sidePicked) !in {Some(Home), Some(Away)} ==>
                !inSync
    {
      var endScore := numPressed.value;
      ghost var before := currentGame.scores;
      endCount := endCount + 1;

      if sidePicked == Some(Home) {
        currentGame.scores := currentGame.scores + [endScore];
        homeScore := homeScore + endScore;
        TotalsAppend(before, endScore);
      } else if sidePicked == Some(Away) {
        currentGame.scores := currentGame.scores + [-(endScore as int)];
        awayScore := awayScore + endScore;
        TotalsAppend(before, -(endScore as int));
      }

      inSync := endCount == |currentGame.scores|;

      store.currentGame := Some(currentGame.Record());
      CloseScorePanel();
    }
  }
}
