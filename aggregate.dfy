/** Totals and scorecard rows derived from the ledger. Everything here is a
    function of the scores alone. */
module Aggregate {
  import opened Ledger

  /** Adds the items of `s` one by one, from the left, to the running value
      `acc`, as the totals are accumulated. */
  function Reduce(acc: int, s: seq<int>): (r: int)
    decreases |s|
  {
    if s == [] then acc else Reduce(acc + s[0], s[1..])
  }

  /** The sum of `s`, accumulated from 0. */
  function Sum(s: seq<int>): (r: int)
  {
    Reduce(0, s)
  }

  /** The scores of the ends home won, kept in ledger order. */
  function Positives(scores: seq<int>): (w: seq<int>)
    ensures |w| <= |scores|
    ensures forall i :: 0 <= i < |w| ==> w[i] > 0
  {
    if scores == [] then []
    else (if scores[0] > 0 then [scores[0]] else []) + Positives(scores[1..])
  }

  /** The scores of the ends away won, kept in ledger order. */
  function Negatives(scores: seq<int>): (l: seq<int>)
    ensures |l| <= |scores|
    ensures forall i :: 0 <= i < |l| ==> l[i] < 0
  {
    if scores == [] then []
    else (if scores[0] < 0 then [scores[0]] else []) + Negatives(scores[1..])
  }

  /** Every item of `s` with its sign flipped, in the same order. */
  function Negated(s: seq<int>): (r: seq<int>)
    ensures |r| == |s|
    ensures forall i :: 0 <= i < |s| ==> r[i] == -s[i]
  {
    if s == [] then [] else [-s[0]] + Negated(s[1..])
  }

  /** The home total: the sum of the positive entries. */
  function HomeTotal(scores: seq<int>): (total: int)
  {
    Sum(Positives(scores))
  }

  /** The away total: the sum of the magnitudes of the negative entries. */
  function AwayTotal(scores: seq<int>): (total: int)
  {
    Sum(Negated(Negatives(scores)))
  }

  /** What an end adds to the home side: its score if home won it, else 0. */
  function HomeCell(score: int): (c: nat)
  {
    if score > 0 then score else 0
  }

  /** What an end adds to the away side: its magnitude if away won it, else 0. */
  function AwayCell(score: int): (c: nat)
  {
    if score < 0 then -score else 0
  }

  /** The two cells of a row give back the end's score; at most one of them
      is non-zero, the one of the side that took the end, and a tie shows
      zero on both. */
  lemma CellsOfScore(score: int)
    ensures HomeCell(score) - AwayCell(score) == score
    ensures HomeCell(score) == 0 || AwayCell(score) == 0
    ensures HomeCell(score) > 0 <==> SideOf(score) == Home
    ensures AwayCell(score) > 0 <==> SideOf(score) == Away
    ensures HomeCell(score) == AwayCell(score) == 0 <==> SideOf(score) == Tie
    ensures HomeCell(score) + AwayCell(score) == Abs(score)
  {
  }

  lemma {:induction false} ReduceAccumulates(acc: int, s: seq<int>)
    ensures Reduce(acc, s) == acc + Sum(s)
    decreases |s|
  {
    if s != [] {
      ReduceAccumulates(acc + s[0], s[1..]);
      ReduceAccumulates(s[0], s[1..]);
    }
  }

  lemma SumOfOne(x: int)
    ensures Sum([x]) == x
  {
    assert [x][1..] == [];
    assert Reduce(0, [x]) == Reduce(x, []);
  }

  lemma {:induction false} SumConcat(a: seq<int>, b: seq<int>)
    ensures Sum(a + b) == Sum(a) + Sum(b)
    decreases |a|
  {
    if a == [] {
      assert a + b == b;
    } else {
      assert (a + b)[0] == a[0];
      assert (a + b)[1..] == a[1..] + b;
      SumConcat(a[1..], b);
      ReduceAccumulates(a[0], a[1..] + b);
      ReduceAccumulates(a[0], a[1..]);
    }
  }

  lemma {:induction false} SumNonNegative(s: seq<int>)
    requires forall i :: 0 <= i < |s| ==> s[i] >= 0
    ensures Sum(s) >= 0
    decreases |s|
  {
    if s != [] {
      assert s == [s[0]] + s[1..];
      SumConcat([s[0]], s[1..]);
      SumOfOne(s[0]);
      SumNonNegative(s[1..]);
    }
  }

  lemma {:induction false} PositivesConcat(a: seq<int>, b: seq<int>)
    ensures Positives(a + b) == Positives(a) + Positives(b)
    decreases |a|
  {
    if a == [] {
      assert a + b == b;
    } else {
      assert (a + b)[0] == a[0];
      assert (a + b)[1..] == a[1..] + b;
      PositivesConcat(a[1..], b);
    }
  }

  lemma {:induction false} NegativesConcat(a: seq<int>, b: seq<int>)
    ensures Negatives(a + b) == Negatives(a) + Negatives(b)
    decreases |a|
  {
    if a == [] {
      assert a + b == b;
    } else {
      assert (a + b)[0] == a[0];
      assert (a + b)[1..] == a[1..] + b;
      NegativesConcat(a[1..], b);
    }
  }

  lemma {:induction false} NegatedConcat(a: seq<int>, b: seq<int>)
    ensures Negated(a + b) == Negated(a) + Negated(b)
    decreases |a|
  {
    if a == [] {
      assert a + b == b;
    } else {
      assert (a + b)[0] == a[0];
      assert (a + b)[1..] == a[1..] + b;
      NegatedConcat(a[1..], b);
    }
  }

  /** Totals are additive over a split of the ledger. */
  lemma TotalsConcat(a: seq<int>, b: seq<int>)
    ensures HomeTotal(a + b) == HomeTotal(a) + HomeTotal(b)
    ensures AwayTotal(a + b) == AwayTotal(a) + AwayTotal(b)
  {
    PositivesConcat(a, b);
    SumConcat(Positives(a), Positives(b));
    NegativesConcat(a, b);
    NegatedConcat(Negatives(a), Negatives(b));
    SumConcat(Negated(Negatives(a)), Negated(Negatives(b)));
  }

  /** The totals of a single end are that end's two cells. */
  lemma TotalsOfOne(score: int)
    ensures HomeTotal([score]) == HomeCell(score)
    ensures AwayTotal([score]) == AwayCell(score)
  {
    assert [score][1..] == [];
    assert Positives([score]) == if score > 0 then [score] else [];
    assert Negatives([score]) == if score < 0 then [score] else [];
    if score > 0 {
      SumOfOne(score);
    } else if score < 0 {
      assert Negated([score]) == [-score];
      SumOfOne(-score);
    }
  }

  /** Appending an end adds its cells to the totals: the home score to the
      home total, the away magnitude to the away total, and a tie to neither. */
  lemma TotalsAppend(scores: seq<int>, score: int)
    ensures HomeTotal(scores + [score]) == HomeTotal(scores) + HomeCell(score)
    ensures AwayTotal(scores + [score]) == AwayTotal(scores) + AwayCell(score)
  {
    TotalsConcat(scores, [score]);
    TotalsOfOne(score);
  }

  lemma TotalsNonNegative(scores: seq<int>)
    ensures HomeTotal(scores) >= 0 && AwayTotal(scores) >= 0
  {
    SumNonNegative(Positives(scores));
    var away := Negated(Negatives(scores));
    assert forall i :: 0 <= i < |away| ==> away[i] > 0;
    SumNonNegative(away);
  }

  /** The difference of the two totals is the net score of the ledger. */
  lemma {:induction false} NetMargin(scores: seq<int>)
    ensures HomeTotal(scores) - AwayTotal(scores) == Sum(scores)
    decreases |scores|
  {
    if scores != [] {
      assert scores == [scores[0]] + scores[1..];
      TotalsConcat([scores[0]], scores[1..]);
      TotalsOfOne(scores[0]);
      SumConcat([scores[0]], scores[1..]);
      SumOfOne(scores[0]);
      NetMargin(scores[1..]);
    }
  }

  /** A tied end counts for neither side: taking it out of the ledger leaves
      both totals unchanged. */
  lemma TiesCountForNeither(scores: seq<int>, k: int)
    requires 0 <= k < |scores| && scores[k] == 0
    ensures HomeTotal(scores[..k] + scores[k + 1..]) == HomeTotal(scores)
    ensures AwayTotal(scores[..k] + scores[k + 1..]) == AwayTotal(scores)
  {
    assert scores == scores[..k] + [scores[k]] + scores[k + 1..];
    TotalsConcat(scores[..k] + [scores[k]], scores[k + 1..]);
    TotalsAppend(scores[..k], scores[k]);
    TotalsConcat(scores[..k], scores[k + 1..]);
  }

  /** Correcting an end changes each total by the difference between that
      end's new and old cells, and by nothing else. */
  lemma TotalsAfterAmend(scores: seq<int>, end: int, newScore: int)
    requires 1 <= end <= |scores|
    ensures var amended := Amend(scores, end, newScore).0;
            && HomeTotal(amended) == HomeTotal(scores) - HomeCell(scores[end - 1]) + HomeCell(newScore)
            && AwayTotal(amended) == AwayTotal(scores) - AwayCell(scores[end - 1]) + AwayCell(newScore)
  {
    var k := end - 1;
    var amended := Amend(scores, end, newScore).0;
    assert scores == scores[..k] + [scores[k]] + scores[k + 1..];
    assert amended == scores[..k] + [newScore] + scores[k + 1..];
    TotalsConcat(scores[..k] + [scores[k]], scores[k + 1..]);
    TotalsConcat(scores[..k] + [newScore], scores[k + 1..]);
    TotalsAppend(scores[..k], scores[k]);
    TotalsAppend(scores[..k], newScore);
  }

  /** One scorecard row: the 1-based end number, the two cells of the end,
      and the running totals of both sides up to and including it. */
  datatype Row = Row(end: nat, home: nat, away: nat, aggHome: int, aggAway: int)

  function RowAt(scores: seq<int>, i: int): (row: Row)
    requires 0 <= i < |scores|
  {
    Row(i + 1, HomeCell(scores[i]), AwayCell(scores[i]),
        HomeTotal(scores[..i + 1]), AwayTotal(scores[..i + 1]))
  }

  /** Row i is the running totals of the rows before it plus end i's cells. */
  lemma RowAtFromTotals(scores: seq<int>, i: int)
    requires 0 <= i < |scores|
    ensures RowAt(scores, i) ==
              Row(i + 1, HomeCell(scores[i]), AwayCell(scores[i]),
                  HomeTotal(scores[..i]) + HomeCell(scores[i]),
                  AwayTotal(scores[..i]) + AwayCell(scores[i]))
  {
    assert scores[..i + 1] == scores[..i] + [scores[i]];
    TotalsAppend(scores[..i], scores[i]);
  }

  /** The reference scorecard: row i carries the totals of the first i + 1
      ends, computed from scratch. */
  function ScoreRows(scores: seq<int>): (rows: seq<Row>)
  {
    seq(|scores|, i requires 0 <= i < |scores| => RowAt(scores, i))
  }

  /** The last row's running totals are the ledger's totals. */
  lemma LastRowTotals(scores: seq<int>)
    requires |scores| > 0
    ensures ScoreRows(scores)[|scores| - 1].aggHome == HomeTotal(scores)
    ensures ScoreRows(scores)[|scores| - 1].aggAway == AwayTotal(scores)
  {
    assert scores[..|scores|] == scores;
  }

  /** Each row's running totals are the previous row's plus this row's
      cells; a tied end leaves both running totals as they were. */
  lemma RunningTotalsStep(scores: seq<int>, i: int)
    requires 0 < i < |scores|
    ensures var rows := ScoreRows(scores);
            && rows[i].aggHome == rows[i - 1].aggHome + rows[i].home
            && rows[i].aggAway == rows[i - 1].aggAway + rows[i].away
            && (scores[i] == 0 ==>
                  rows[i].aggHome == rows[i - 1].aggHome && rows[i].aggAway == rows[i - 1].aggAway)
  {
    assert scores[..i + 1] == scores[..i] + [scores[i]];
    TotalsAppend(scores[..i], scores[i]);
  }

  /** Running totals never decrease down the scorecard. */
  lemma RunningTotalsMonotone(scores: seq<int>, i: int, j: int)
    requires 0 <= i <= j < |scores|
    ensures ScoreRows(scores)[i].aggHome <= ScoreRows(scores)[j].aggHome
    ensures ScoreRows(scores)[i].aggAway <= ScoreRows(scores)[j].aggAway
  {
    assert scores[..j + 1] == scores[..i + 1] + scores[i + 1..j + 1];
    TotalsConcat(scores[..i + 1], scores[i + 1..j + 1]);
    TotalsNonNegative(scores[i + 1..j + 1]);
  }
}
