/** The scorecard page: it lists every end with running totals and lets a
    past end be corrected through an edit panel, logging each correction. */
module Scorecard {
  import opened Ledger
  import opened Aggregate

  /** The element a click on the edit panel's side selector lands on. */
  datatype SideButton = HomeBtn | TieBtn | AwayBtn | OtherSideTarget

  /** The element a click on the edit panel's number pad lands on: a number
      key with the value of its data attribute, or anything else. */
  datatype NumPadTarget = NumKey(value: nat) | OtherNumPadTarget

  predicate HomeOrAway(side: Option<Side>)
  {
    side == Some(Home) || side == Some(Away)
  }

  /** The loop of getResult: one row per end, carrying the end number, the
      end's two cells and both running totals in one accumulator. */
  method EndRows(scores: seq<int>) returns (rows: seq<Row>)
    ensures rows == ScoreRows(scores)
    ensures |rows| == |scores|
    ensures forall i :: 0 <= i < |rows| ==>
              && rows[i].end == i + 1
              && rows[i].home == HomeCell(scores[i])
              && rows[i].away == AwayCell(scores[i])
              && rows[i].aggHome == HomeTotal(scores[..i + 1])
              && rows[i].aggAway == AwayTotal(scores[..i + 1])
  {
    var end, home, away, aggHome, aggAway := 0, 0, 0, 0, 0;
    rows := [];
    for i := 0 to |scores|
      invariant end == i && |rows| == i
      invariant aggHome == HomeTotal(scores[..i]) && aggAway == AwayTotal(scores[..i])
      invariant forall k :: 0 <= k < i ==> rows[k] == RowAt(scores, k)
    {
      var score := scores[i];
      end := end + 1;
      if score > 0 {
        home, away := score, 0;
        aggHome := aggHome + score;
      } else if score < 0 {
        home, away := 0, -score;
        aggAway := aggAway + -score;
      } else if score == 0 {
        home, away := 0, 0;
      }
      RowAtFromTotals(scores, i);
      assert Row(end, home, away, aggHome, aggAway) == RowAt(scores, i);
      rows := rows + [Row(end, home, away, aggHome, aggAway)];
    }
    assert scores[..|scores|] == scores;
    assert rows == ScoreRows(scores);
  }

  /** The state the edit panel's elements hold between events. */
  class EditPanel {
    /** The side selector's data-side; None is "". */
    var side: Option<Side>
    /** The value of the number key picked; None is null. */
    var numPicked: Option<nat>
    /** Every number key is enabled (they are always switched together). */
    var numKeysEnabled: bool
    /** The confirm button is enabled. */
    var confirmEnabled: bool
    /** The score confirm would write; None is undefined. */
    var newScore: Option<int>
    /** The number of the end being edited, and its score when the panel opened. */
    var editedEnd: int
    var oldScore: int
    /** The before-score display: its side and the magnitude it shows. */
    var beforeSide: Side
    var beforeValue: nat
    /** The after-score display: its side and the number it shows; None is "". */
    var afterSide: Option<Side>
    var afterValue: Option<nat>

    /** Nothing picked, every number key and the confirm button disabled. */
    ghost predicate Closed()
      reads this
    {
      numPicked == None && !numKeysEnabled && !confirmEnabled
    }

    /** The open panel's invariant: the number keys are enabled exactly while
        home or away is chosen; confirm is enabled exactly when a tie, or a
        side and a number, is chosen, and then the pending score is that
        number signed by the side; the after-score shows the choice. */
    ghost predicate Valid()
      reads this
    {
      && (numKeysEnabled <==> HomeOrAway(side))
      && (numPicked.Some? ==> HomeOrAway(side))
      && (confirmEnabled <==> side == Some(Tie) || numPicked.Some?)
      && (confirmEnabled ==>
            newScore == Some(Signed(side.value, if numPicked.Some? then numPicked.value else 0)))
      && afterSide == side
      && afterValue == (if side == Some(Tie) then Some(0) else numPicked)
    }

    /** The panel as the page starts, closed. */
    constructor ()
      ensures Closed() && side == None && newScore == None
      ensures afterSide == None && afterValue == None
    {
      side, numPicked, numKeysEnabled, confirmEnabled := None, None, false, false;
      newScore := None;
      editedEnd, oldScore := 0, 0;
      beforeSide, beforeValue := Tie, 0;
      afterSide, afterValue := None, None;
    }

    /** sideBtnPressed: choosing home or away enables the number keys if they
        were off and signs the picked number, if any, by the side; choosing a
        tie disables them, drops the picked number and makes the pending score
        0. A click beside the three buttons changes nothing. */
    method SideBtnPressed(target: SideButton)
      modifies this
      ensures target == OtherSideTarget ==>
                && side == old(side) && numPicked == old(numPicked)
                && numKeysEnabled == old(numKeysEnabled) && confirmEnabled == old(confirmEnabled)
                && newScore == old(newScore)
                && afterSide == old(afterSide) && afterValue == old(afterValue)
      ensures target == HomeBtn || target == AwayBtn ==>
                && side == Some(if target == HomeBtn then Home else Away)
                && afterSide == side
                && numKeysEnabled == (old(side) == None || old(side) == Some(Tie) || old(numKeysEnabled))
                && numPicked == old(numPicked)
                && afterValue == numPicked
                && confirmEnabled == numPicked.Some?
                && newScore == (if numPicked.Some? then Some(Signed(side.value, numPicked.value)) else None)
      ensures target == TieBtn ==>
                && side == Some(Tie) && afterSide == Some(Tie)
                && numKeysEnabled == (!HomeOrAway(old(side)) && old(numKeysEnabled))
                && numPicked == None
                && afterValue == Some(0)
                && confirmEnabled && newScore == Some(0)
      ensures editedEnd == old(editedEnd) && oldScore == old(oldScore)
      ensures beforeSide == old(beforeSide) && beforeValue == old(beforeValue)
      ensures old(Valid()) ==> Valid()
      // moving between home and away keeps the magnitude and flips the sign
      ensures old(Valid()) && old(HomeOrAway(side)) && old(confirmEnabled)
              && (target == HomeBtn || target == AwayBtn) ==>
                && confirmEnabled && newScore.Some?
                && Abs(newScore.value) == Abs(old(newScore.value))
                && (side != old(side) ==> newScore.value == -old(newScore.value))
    {
      match target
      case HomeBtn =>
        if side == None || side == Some(Tie) {
          numKeysEnabled := true;
        } else {
          assert HomeOrAway(side) by { assert side.value.Home? || side.value.Away?; }
        }
        side := Some(Home);
        afterSide := Some(Home);
        if numPicked.Some? {
          afterValue := numPicked;
          newScore := Some(numPicked.value);
          confirmEnabled := true;
        } else {
          afterValue := None;
          newScore := None;
          confirmEnabled := false;
        }
      case TieBtn =>
        if side == Some(Home) || side == Some(Away) {
          numKeysEnabled := false;
        }
        side := Some(Tie);
        numPicked := None;
        afterSide := Some(Tie);
        afterValue := Some(0);
        confirmEnabled := true;
        newScore := Some(0);
      case AwayBtn =>
        if side == None || side == Some(Tie) {
          numKeysEnabled := true;
        } else {
          assert HomeOrAway(side) by { assert side.value.Home? || side.value.Away?; }
        }
        side := Some(Away);
        afterSide := Some(Away);
        if numPicked.Some? {
          afterValue := numPicked;
          newScore := Some(-(numPicked.value as int));
          confirmEnabled := true;
        } else {
          afterValue := None;
          newScore := None;
          confirmEnabled := false;
        }
      case OtherSideTarget =>
    }

    /** numKeyPressed: a number key becomes the picked number, is shown as
        the after-score, is signed by the chosen side into the pending score,
        and enables confirm. A click beside the keys changes nothing. */
    method NumKeyPressed(target: NumPadTarget)
      modifies this
      ensures target.OtherNumPadTarget? ==>
                && numPicked == old(numPicked) && confirmEnabled == old(confirmEnabled)
                && newScore == old(newScore) && afterValue == old(afterValue)
      ensures target.NumKey? ==>
                && numPicked == Some(target.value) && afterValue == Some(target.value)
                && confirmEnabled
                && newScore == (if old(side).Some? then Some(Signed(old(side).value, target.value))
                                else old(newScore))
      ensures side == old(side) && numKeysEnabled == old(numKeysEnabled)
      ensures afterSide == old(afterSide)
      ensures editedEnd == old(editedEnd) && oldScore == old(oldScore)
      ensures beforeSide == old(beforeSide) && beforeValue == old(beforeValue)
      // the keys deliver clicks only while enabled, and then the panel stays valid
      ensures old(Valid()) && old(numKeysEnabled) ==> Valid()
    {
      if !target.NumKey? {
        return;
      }
      numPicked := Some(target.value);
      afterValue := Some(target.value);
      if side == Some(Home) {
        newScore := Some(target.value);
      } else if side == Some(Away) {
        newScore := Some(-(target.value as int));
      } else if side == Some(Tie) {
        newScore := Some(0);
      }
      confirmEnabled := true;
    }
  }

  class ScorecardPage {
    /** Storage, shared with the score-entry page. */
    const store: LocalStore
    const panel: EditPanel
    var currentGame: Game?
    /** The rows on display. */
    var rows: seq<Row>

    constructor (store: LocalStore)
      ensures this.store == store && fresh(panel) && panel.Closed()
      ensures currentGame == null && rows == []
    {
      this.store := store;
      panel := new EditPanel();
      currentGame := null;
      rows := [];
    }

    /** getResult: load the stored game and rebuild the rows from its ledger;
        with no stored game, leave everything as it is. */
    method GetResult()
      modifies this
      ensures store.currentGame.None? ==> currentGame == old(currentGame) && rows == old(rows)
      ensures store.currentGame.Some? ==>
                && currentGame != null && fresh(currentGame)
                && currentGame.Record() == store.currentGame.value
                && rows == ScoreRows(currentGame.scores)
    {
      if store.currentGame.None? {
        return;
      }
      currentGame := new Game.FromRecord(store.currentGame.value);
      rows := EndRows(currentGame.scores);
    }

    /** editEnd: open the panel on end number `editingEnd` (taken from a
        displayed row): show which side took it and by how much, remember its
        score, and clear the side, the picked number and the after-score. */
    method EditEnd(editingEnd: int)
      requires currentGame != null && 1 <= editingEnd <= |currentGame.scores|
      modifies panel
      ensures panel.editedEnd == editingEnd
      ensures panel.oldScore == currentGame.scores[editingEnd - 1]
      ensures panel.beforeSide == SideOf(panel.oldScore)
      ensures panel.beforeValue == Abs(panel.oldScore)
      ensures panel.side == None && panel.numPicked == None
      ensures panel.afterSide == None && panel.afterValue == None
      ensures panel.numKeysEnabled == old(panel.numKeysEnabled)
      ensures panel.confirmEnabled == old(panel.confirmEnabled)
      ensures panel.newScore == old(panel.newScore)
      // the panel is only valid when it was closed before
      ensures old(panel.Closed()) ==> panel.Valid()
    {
      var endScore := currentGame.scores[editingEnd - 1];
      if endScore > 0 {
        panel.beforeSide := Home;
      } else if endScore < 0 {
        panel.beforeSide := Away;
      } else {
        panel.beforeSide := Tie;
      }
      panel.beforeValue := Abs(endScore);
      panel.afterSide, panel.afterValue := None, None;
      panel.side := None;
      panel.numPicked := None;
      panel.editedEnd := editingEnd;
      panel.oldScore := endScore;
    }

    /** closeEditPanel: drop the picked number, disable every number key and
        the confirm button, then reload the game and its rows. The selector's
        side is left as it is: the source clears a property other than the
        one it reads, and editEnd clears the right one on the next opening. */
    method CloseEditPanel()
      modifies this, panel
      ensures panel.Closed()
      ensures panel.side == old(panel.side) && panel.newScore == old(panel.newScore)
      ensures panel.editedEnd == old(panel.editedEnd) && panel.oldScore == old(panel.oldScore)
      ensures panel.beforeSide == old(panel.beforeSide) && panel.beforeValue == old(panel.beforeValue)
      ensures panel.afterSide == old(panel.afterSide) && panel.afterValue == old(panel.afterValue)
      ensures store.currentGame.None? ==> currentGame == old(currentGame) && rows == old(rows)
      ensures store.currentGame.Some? ==>
                && currentGame != null && fresh(currentGame)
                && currentGame.Record() == store.currentGame.value
                && rows == ScoreRows(currentGame.scores)
    {
      panel.numPicked := None;
      panel.numKeysEnabled := false;
      panel.confirmEnabled := false;
      GetResult();
    }

    /** confirmChange: log the correction, overwrite the edited end with the
        pending score, save the game, and close the panel, which reloads the
        saved game and its rows. */
    method ConfirmChange()
      requires currentGame != null
      requires panel.confirmEnabled && panel.newScore.Some?
      requires 1 <= panel.editedEnd <= |currentGame.scores|
      modifies this, currentGame, store, panel
      ensures currentGame != null && fresh(currentGame)
      ensures currentGame.gameId == old(currentGame.gameId) && currentGame.date == old(currentGame.date)
      ensures currentGame.scores ==
                Amend(old(currentGame.scores), old(panel.editedEnd), old(panel.newScore.value)).0
      ensures currentGame.logs ==
                PushLog(old(currentGame.logs),
                        LogEntry(old(panel.editedEnd), old(panel.oldScore), old(panel.newScore.value)))
      // when the panel was opened on the current ledger, the entry is the amendment's own
      ensures old(panel.oldScore == currentGame.scores[panel.editedEnd - 1]) ==>
                currentGame.logs ==
                  PushLog(old(currentGame.logs),
                          Amend(old(currentGame.scores), old(panel.editedEnd), old(panel.newScore.value)).1)
      ensures store.currentGame == Some(currentGame.Record())
      ensures rows == ScoreRows(currentGame.scores)
      ensures panel.Closed()
      ensures panel.side == old(panel.side) && panel.newScore == old(panel.newScore)
      ensures panel.editedEnd == old(panel.editedEnd) && panel.oldScore == old(panel.oldScore)
      ensures panel.beforeSide == old(panel.beforeSide) && panel.beforeValue == old(panel.beforeValue)
      ensures panel.afterSide == old(panel.afterSide) && panel.afterValue == old(panel.afterValue)
    {
      var editingEnd := panel.editedEnd;
      var entry := LogEntry(editingEnd, panel.oldScore, panel.newScore.value);
      if currentGame.logs.Some? {
        currentGame.logs := Some(currentGame.logs.value + [entry]);
      } else {
        currentGame.logs := Some([entry]);
      }
      currentGame.scores := currentGame.scores[editingEnd - 1 := panel.newScore.value];
      store.currentGame := Some(currentGame.Record());
      CloseEditPanel();
    }
  }
}
