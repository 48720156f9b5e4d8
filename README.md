# WeBowl scoring engine in Dafny

WeBowl keeps score of a two-sided game played in ends (a bowls or curling
match). The game's ledger is a list `scores` with one signed integer per end.
A positive score means home took the end by that many points. A negative
score means away took it by the magnitude. Zero is a tie.

Two browser pages share the game through local storage:

- The **score-entry page** (`scripts/score-input.js`) shows both totals and
  appends one end per confirmed entry. Beside the ledger it keeps its own
  counters `homeScore`, `awayScore` and `endCount`.
- The **scorecard page** (`scripts/scorecard.js`) lists every end with
  running totals. An edit panel corrects a past end in place and pushes
  `[end, oldScore, newScore]` onto the game's `logs`.

This project models the scoring logic of both pages without the DOM:

- `ledger.dfy`, module `Ledger`: sides, signing and classifying scores, log
  entries, the stored game record, a `Game` class (its `scores` and `logs` are
  reassigned in place) and a `LocalStore` class for the storage key
  `currentGame`.
- `aggregate.dfy`, module `Aggregate`: the totals as `refreshScores` derives
  them and the per-end rows. `Reduce` is `reduce`, `Positives` and `Negatives`
  are the two `filter`s, and `Negated` is the `map`. `ScoreRows` is a
  reference definition: row i carries the totals of the first i + 1 ends,
  computed from scratch. This module also holds the lemmas about totals and
  rows.
- `score_input.dfy`, module `ScoreInput`: the score-entry page as a class
  whose fields are the page's module-level variables, with one method per
  handler.
- `scorecard.dfy`, module `Scorecard`:
  - `EndRows` is getResult's accumulator loop, proved equal to `ScoreRows`.
  - `EditPanel` holds the edit panel's state: the selector's side, the picked
    number, the enabled flags, the pending `newScore` and the before/after
    displays. It is a class with the two event handlers.
  - `ScorecardPage` covers loading, opening the panel, confirming and closing.

The model keeps the code's own behaviour, including where it departs from a
strict ledger with validated operations:

- The code never rejects input. Ending an end on the score panel signs the
  pressed key's value by the picked side. A correction writes whatever the
  panel holds to the end number taken from a displayed row. The model keeps
  the conditions under which these writes are meaningful as the callers'
  guarantees (`requires`). "## Left out" names each one, together with the
  paths on which the code goes on without them.
- The edit log records the 1-based end number. It does not exist until the
  first correction; `None` stands for the absent field.
- The code does keep totals as separate counters on the score-entry page.
  `ScoreInputPage.CountersAgree` states when they agree with the ledger, and
  `ConfirmScoreInput` proves when they stay in step.
- `closeEditPanel` clears `sideSelector.side` while every other function reads
  `sideSelector.dataset.side`. So closing leaves the selector's side as it was.
  `editEnd` clears it on the next opening, so nothing observable follows.
- `editEnd` resets neither the pending score nor the confirm and number-key
  flags. It relies on the panel having been closed. `EditEnd` therefore
  promises `Valid()` only from a `Closed()` panel.

## Model

| member | source | states |
|---|---|---|
| `Ledger.SideOf` | scripts/scorecard.js:174-183 | a score classifies as home when above 0, away when below 0, and tie otherwise, as the before-score display is set |
| `Ledger.Signed` | scripts/scorecard.js:328-337 | a key value becomes the pending score by side: itself for home, its negation for away, 0 for a tie |
| `Ledger.Game.Record` | scripts/scorecard.js:136 | the value saved under "currentGame": the game's id, date, ledger and log |
| `Ledger.LocalStore.constructor` | scripts/score-input.js:315 | the store holds the given "currentGame" item, or none |
| `Aggregate.Reduce` | scripts/score-input.js:101-102 | the items are added to a running value one by one from the left |
| `Aggregate.Sum` | scripts/score-input.js:101-102 | the reduce from the initial value 0 |
| `Aggregate.HomeTotal` | scripts/score-input.js:95-102 | the derived `homeScore`: the sum of the positive scores |
| `Aggregate.AwayTotal` | scripts/score-input.js:95-102 | the derived `awayScore`: the sum of the magnitudes of the negative scores |
| `Aggregate.HomeCell` | scripts/scorecard.js:86-98 | a row's home cell: the score when home took the end, else 0 |
| `Aggregate.AwayCell` | scripts/scorecard.js:86-98 | a row's away cell: the magnitude when away took the end, else 0 |
| `Ledger.SignedSideOf` | scripts/scorecard.js:173-184 | the before-score's side (home above 0, away below 0, tie otherwise) and its absolute value give back the end's score |
| `Ledger.SideOfSigned` | scripts/scorecard.js:328-337 | a number signed by a side has that number as magnitude (0 for a tie) and, unless it is 0, classifies back to that side |
| `Ledger.PushLog` | scripts/scorecard.js:366-370 | the log grows by exactly one entry, the new entry last and the old entries kept; a missing log becomes a one-entry log |
| `Ledger.Amend` | scripts/scorecard.js:363-371 | the corrected end holds the new score, every other end and the length are unchanged, and the entry records the end number, its previous and its new score |
| `Ledger.LogEntryUndoesAmend` | scripts/scorecard.js:367-371 | writing a log entry's old score back at its end number restores the ledger from before the correction |
| `Ledger.Game.FromRecord` | scripts/score-input.js:113-118 | a game built from a record (parsed, or a new one) is exactly that record |
| `Aggregate.Positives` | scripts/score-input.js:95 | the home winnings are all positive and no more numerous than the ends |
| `Aggregate.Negatives` | scripts/score-input.js:96-97 | the away losses are all negative and no more numerous than the ends |
| `Aggregate.Negated` | scripts/score-input.js:98 | the map negates each element, keeping the length |
| `Aggregate.CellsOfScore` | scripts/scorecard.js:85-100 | a row's home cell minus its away cell is the end's score; only the side that took the end has a non-zero cell; a tie shows 0 and 0 |
| `Aggregate.ReduceAccumulates` | scripts/score-input.js:101-102 | the reduce from a start value is the start value plus the sum |
| `Aggregate.SumOfOne` | scripts/score-input.js:101-102 | the reduce of a single item is that item |
| `Aggregate.SumConcat` | scripts/score-input.js:101-102 | the reduce-sum of two joined lists is the sum of their sums |
| `Aggregate.SumNonNegative` | scripts/score-input.js:101-102 | a sum of non-negative items is non-negative |
| `Aggregate.PositivesConcat` | scripts/score-input.js:95 | filtering joined lists for positives joins the filtered lists |
| `Aggregate.NegativesConcat` | scripts/score-input.js:96-97 | filtering joined lists for negatives joins the filtered lists |
| `Aggregate.NegatedConcat` | scripts/score-input.js:98 | negating joined lists joins the negated lists |
| `Aggregate.TotalsConcat` | scripts/score-input.js:95-102 | both derived totals of a split ledger are the sums of the parts' totals |
| `Aggregate.TotalsOfOne` | scripts/score-input.js:95-102 | a one-end ledger totals that end's home cell and away cell |
| `Aggregate.TotalsAppend` | scripts/score-input.js:232-241 | appending an end adds its positive score to the home total, its magnitude when negative to the away total, and a tie to neither |
| `Aggregate.TotalsNonNegative` | scripts/score-input.js:95-102 | both derived totals are never negative |
| `Aggregate.NetMargin` | scripts/score-input.js:95-102 | home total minus away total is the sum of all the scores |
| `Aggregate.TiesCountForNeither` | scripts/score-input.js:95-102 | removing a tied end leaves both totals unchanged |
| `Aggregate.TotalsAfterAmend` | scripts/scorecard.js:371 | correcting an end changes each total by exactly that end's new cell minus its old cell |
| `Aggregate.RowAtFromTotals` | scripts/scorecard.js:85-99 | a row's running totals are the totals of the ends before it plus the row's own cells |
| `Aggregate.LastRowTotals` | scripts/scorecard.js:85-99 | the last row's running totals are the derived home and away totals of the whole ledger |
| `Aggregate.RunningTotalsStep` | scripts/scorecard.js:85-99 | each row's running totals are the previous row's plus this row's cells; a tied end leaves both unchanged |
| `Aggregate.RunningTotalsMonotone` | scripts/scorecard.js:89-99 | running totals never decrease down the rows |
| `Scorecard.EndRows` | scripts/scorecard.js:66-100 | the accumulator loop yields the reference rows: one row per end, row i numbered i + 1, the end's two cells, and the totals of the first i + 1 ends |
| `Scorecard.EditPanel.constructor` | scripts/scorecard.js:34-37 | the panel starts closed: nothing picked, number keys and confirm disabled, no side and no pending score |
| `Scorecard.EditPanel.SideBtnPressed` | scripts/scorecard.js:215-303 | home or away enables the number keys when the side was unset or a tie, and sets the pending score to the picked number signed, enabling confirm, or leaves it undefined with confirm disabled; tie disables the keys when the side was home or away, drops the number, sets the score to 0 and enables confirm; other targets change nothing; the panel invariant is kept; switching between home and away keeps the magnitude and flips the sign |
| `Scorecard.EditPanel.NumKeyPressed` | scripts/scorecard.js:312-339 | non-key targets change nothing; a key becomes the picked number and the after-score, the pending score is +v, -v or 0 by the side (unchanged with no side), confirm is enabled; the invariant is kept when the keys were enabled |
| `Scorecard.ScorecardPage.constructor` | scripts/scorecard.js:5-6 | the page starts with no game, no rows and a closed panel |
| `Scorecard.ScorecardPage.GetResult` | scripts/scorecard.js:44-123 | with a stored game, the page holds a fresh copy of it and the reference rows of its ledger; with none, nothing changes |
| `Scorecard.ScorecardPage.EditEnd` | scripts/scorecard.js:166-207 | the panel remembers the end number and its current score, shows its side and magnitude, and clears the side, the picked number and the after-score; a closed panel becomes a valid open one |
| `Scorecard.ScorecardPage.CloseEditPanel` | scripts/scorecard.js:384-419 | the picked number is cleared, the number keys and confirm are disabled, and the stored game and its rows are reloaded; the selector's side, the pending score, the edited end, its old score and both the before and after displays are left as they were |
| `Scorecard.ScorecardPage.ConfirmChange` | scripts/scorecard.js:361-376 | the edited end holds the pending score with every other end unchanged, the log gains exactly the entry (end, old score, new score), the game is saved, the reloaded rows match it, and the panel is closed with its side, pending score, edited end, old score and both displays left as they were |
| `ScoreInput.ScoreInputPage.constructor` | scripts/score-input.js:11-18 | counters at 0, no game, no side or key picked, confirm disabled |
| `ScoreInput.ScoreInputPage.RefreshScores` | scripts/score-input.js:84-121 | with a stored game: a fresh copy of it, the home counter the sum of positive scores, the away counter the sum of negative magnitudes, the end count the ledger's length; with none: a new game with no ends, no log, the given id and date, counters unchanged |
| `ScoreInput.ScoreInputPage.ButtonPressed` | scripts/score-input.js:149-171 | the home or away score label picks that side; other targets leave it |
| `ScoreInput.ScoreInputPage.RecordScore` | scripts/score-input.js:286-305 | a number key or the tie key is recorded and enables confirm; other targets change nothing |
| `ScoreInput.ScoreInputPage.CloseScorePanel` | scripts/score-input.js:265-279 | the key and the side are reset to none and confirm is disabled |
| `ScoreInput.ScoreInputPage.ConfirmScoreInput` | scripts/score-input.js:222-258 | the end count grows by one; home appends v and adds v to the home counter, away appends -v and adds v to the away counter, any other side appends nothing; the sync flag compares the end count with the ledger length; the game is saved and the panel closed; counters that agreed with the ledger still agree when a side was picked, and the sync check fails when none was |

## Left out

- DOM work: rendering rows and labels as HTML, the "pressed" highlight, opening and closing dialogs, and adding or removing event listeners. The model keeps only the state these read back (data attributes, disabled flags, displayed values).
- `openEditPanel`: it finds the row element under a long press. `EditEnd` takes the end number it reads from that row.
- The `this.id` guards of `cancelScoreInput`, `confirmScoreInput` and `cancelEdit`. They only check which button fired. Cancel then calls the close operation, and both close operations are modelled.
- `buttonPressed`'s navigation to the scorecard page, `window.history.back`, and the `pageshow` events that reload each page.
- Persistence: `localStorage.getItem` and `setItem`, and JSON parsing and stringifying. They become reads and writes of `LocalStore.currentGame`, and the JSON round trip is the identity on `GameRecord`. The branches for a browser without local storage are not modelled.
- `_uuid` and `Date.now`: `RefreshScores` takes the new game's id and date as parameters.
- `refreshUI`, `refreshViewHeight`, `screenRotated`, the `confirm("Delete existing Storage?")` prompt and every `console.log` diagnostic. The end-count sync check is kept as `ConfirmScoreInput`'s result.
- Number width: JavaScript numbers are doubles, so `homeScore += endScore` and the summing `reduce` are exact only up to 2^53, while the model's `int` is unbounded. A game's scores never come near that bound, so no observable behaviour is lost.
- Converting data attributes and labels to numbers. Key values are natural numbers and end numbers are integers. JavaScript's `-0` for an away end worth 0 is 0 here.
- The pages' HTML is not part of this model. Both panels' starting state (keys and confirm disabled) is assumed in the constructors. The value carried by the score panel's tie key is a parameter of `TieButton`.
- ScoreInput.ScoreInputPage.ConfirmScoreInput: requires a loaded game and a pressed key. Without them the source throws a TypeError. Confirm is only enabled by `recordScore`, and the game is loaded when the page loads.
- Scorecard.ScorecardPage.ConfirmChange: requires the confirm button to be enabled, because a disabled button delivers no clicks. The end number must lie within the ledger; this holds because it comes from a displayed row. It also requires a defined pending score, and the code does not guarantee one. The edit sheet opened by `showModal()` can be dismissed, with Escape or the back gesture, without `closeEditPanel` running. `editEnd` then opens a panel that is not `Closed()`: the number keys can still be enabled while the side is "". A key press then enables confirm with no pending score. Confirming writes `undefined` into the ledger and the log, which storage saves as null. The model has only integer scores, so this path is not modelled: `EditEnd` promises `Valid()` only from a `Closed()` panel, and `ConfirmChange` is specified only for a defined pending score.
- Scorecard.EditPanel.NumKeyPressed: keeps `Valid()` only when the keys were enabled. The handler itself does not check this; it relies on disabled keys delivering no clicks.
