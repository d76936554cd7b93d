/** The whole `getMinMaxSMA` pipeline (labeler.py lines 3-151): feature
    lookup, smoothing, extrema detection, the take-profit sweep and the
    choice of the best take-profit. The profit-per-day score of a labeling
    is a parameter. */
module Labeler {
  import opened Common
  import opened Features
  import opened Smoother
  import opened Detector
  import opened GreedyLabeler

  /** Why the pipeline produced no labeling: an unknown feature name (the
      source returns an empty array), or no take-profit scoring above 0 (the
      source then reads `max_tp` before assigning it). */
  datatype LabelError = InvalidFeature | NoProfitableTakeProfit

  /** The winning take-profit percentage and its score. */
  datatype Choice = Choice(takeProfit: real, score: real)

  /** Marks, extreme prices and the winning take-profit. */
  datatype Labeling = Labeling(extremes: Extremes, best: Choice)

  /** The score of one labeling: profit per day from the buy markers and the
      take-profit percentage. */
  type Scorer = (seq<int>, real) -> real

  /** The swept take-profit percentages 0.15, 0.20, ..., 1.45: a half-open
      range from 0.15 to 1.5 in steps of 0.05, in increasing order. */
  function TakeProfitGrid(): (g: seq<real>)
    ensures |g| == 27
    ensures forall k :: 0 <= k < |g| ==> 0.15 <= g[k] < 1.5
    ensures forall k :: 0 < k < |g| ==> g[k] == g[k - 1] + 0.05
    ensures forall a, b :: 0 <= a < b < |g| ==> g[a] < g[b]
    ensures g[0] == 0.15
  {
    seq(27, k => (15 + 5 * k) as real / 100.0)
  }

  /** The score of every swept take-profit, in sweep order. */
  function Scores(marks: seq<int>, prices: seq<real>, grid: seq<real>, score: Scorer): (s: seq<real>)
    requires Inputs(marks, prices)
    ensures |s| == |grid|
    ensures forall k :: 0 <= k < |grid| ==> s[k] == score(BuyLocs(marks, prices, grid[k]), grid[k])
  {
    seq(|grid|, k requires 0 <= k < |grid| => score(BuyLocs(marks, prices, grid[k]), grid[k]))
  }

  /** After scanning `scores[..k]` the selection holds the running maximum
      `best`, starting from 0, and `pick` is the earliest index reaching it. */
  predicate BestSoFar(scores: seq<real>, k: nat, best: real, pick: Option<nat>)
  {
    && k <= |scores|
    && (pick.None? ==> best == 0.0 && forall j :: 0 <= j < k ==> scores[j] <= 0.0)
    && (pick.Some? ==>
          && pick.value < k && scores[pick.value] == best && best > 0.0
          && (forall j :: 0 <= j < k ==> scores[j] <= best)
          && (forall j :: 0 <= j < pick.value ==> scores[j] < best))
  }

  /** The selection loop from index `k` on, with a strict `>` comparison. */
  function BestFrom(scores: seq<real>, k: nat, best: real, pick: Option<nat>): (r: Option<nat>)
    requires BestSoFar(scores, k, best, pick)
    ensures r.None? ==> forall j :: 0 <= j < |scores| ==> scores[j] <= 0.0
    ensures r.Some? ==>
      && r.value < |scores| && scores[r.value] > 0.0
      && (forall j :: 0 <= j < |scores| ==> scores[j] <= scores[r.value])
      && (forall j :: 0 <= j < r.value ==> scores[j] < scores[r.value])
    decreases |scores| - k
  {
    if k == |scores| then pick
    else if scores[k] > best then BestFrom(scores, k + 1, scores[k], Some(k))
    else BestFrom(scores, k + 1, best, pick)
  }

  /** The earliest index of a maximal score, provided some score exceeds 0;
      `None` exactly when no score does. */
  function SelectBest(scores: seq<real>): (r: Option<nat>)
    ensures r.None? <==> forall j :: 0 <= j < |scores| ==> scores[j] <= 0.0
    ensures r.Some? ==>
      && r.value < |scores| && scores[r.value] > 0.0
      && (forall j :: 0 <= j < |scores| ==> scores[j] <= scores[r.value])
      && (forall j :: 0 <= j < r.value ==> scores[j] < scores[r.value])
  {
    BestFrom(scores, 0, 0.0, None)
  }

  /** The best take-profit of the sweep: the smallest swept percentage whose
      labeling scores highest, or `None` when no labeling scores above 0. */
  function ChooseTakeProfit(marks: seq<int>, prices: seq<real>, score: Scorer): (c: Option<Choice>)
    requires Inputs(marks, prices)
    ensures var g := TakeProfitGrid();
      c.None? <==> forall k :: 0 <= k < |g| ==> score(BuyLocs(marks, prices, g[k]), g[k]) <= 0.0
    ensures var g := TakeProfitGrid();
      c.Some? ==>
        && c.value.takeProfit in g
        && c.value.score == score(BuyLocs(marks, prices, c.value.takeProfit), c.value.takeProfit)
        && c.value.score > 0.0
        && (forall k :: 0 <= k < |g| ==> score(BuyLocs(marks, prices, g[k]), g[k]) <= c.value.score)
        && (forall k :: 0 <= k < |g| && g[k] < c.value.takeProfit ==>
              score(BuyLocs(marks, prices, g[k]), g[k]) < c.value.score)
  {
    var g := TakeProfitGrid();
    var s := Scores(marks, prices, g, score);
    match SelectBest(s)
    case None => None
    case Some(k) =>
      assert forall j :: 0 <= j < |g| && g[j] < g[k] ==> j < k;
      Some(Choice(g[k], s[k]))
  }

  /** Open and close prices are positive, so every recorded low is. */
  predicate BodiesPositive(data: seq<Row>)
    requires WellFormed(data)
  {
    forall r :: 0 <= r < |data| ==> data[r][OpenField] > 0.0 && data[r][CloseField] > 0.0
  }

  /** Marks and prices of the smoothed column `col`; the detector's output
      always suits the labeler: every low has a positive price. */
  function ExtremesOf(data: seq<Row>, col: nat, period: int, shift: int): (e: Extremes)
    requires WellFormed(data) && col < NumFields && ValidSmaParams(|data|, period, shift)
    requires BodiesPositive(data)
    ensures Inputs(e.marks, e.prices)
    ensures e == Detect(data, Sma(data, col, period, shift))
  {
    var e := Detect(data, Sma(data, col, period, shift));
    assert forall j :: 0 <= j < |e.marks| && e.marks[j] == -1 ==> e.prices[j] > 0.0 by {
      forall j | 0 <= j < |e.marks| && e.marks[j] == -1
        ensures e.prices[j] > 0.0
      {
        assert e.prices[j] == Min(data[j][OpenField], data[j][CloseField]);
      }
    }
    e
  }

  /** The pipeline: an unknown feature fails with `InvalidFeature`; otherwise
      the marks and prices are those of the smoothed chosen column, and the
      winning take-profit is the best one of the sweep, or the pipeline fails
      with `NoProfitableTakeProfit` when no take-profit scores above 0. */
  function GetMinMaxSma(data: seq<Row>, period: int, shift: int, feature: string, score: Scorer)
    : (r: Result<Labeling, LabelError>)
    requires WellFormed(data) && ValidSmaParams(|data|, period, shift) && BodiesPositive(data)
    ensures r == Failure(InvalidFeature) <==> feature !in FeatureNames
    ensures feature in FeatureNames ==>
      var e := ExtremesOf(data, FeatureColumn(feature).value, period, shift);
      && (r == Failure(NoProfitableTakeProfit) <==> ChooseTakeProfit(e.marks, e.prices, score).None?)
      && (r.Success? ==> r.value == Labeling(e, ChooseTakeProfit(e.marks, e.prices, score).value))
  {
    match FeatureColumn(feature)
    case None => Failure(InvalidFeature)
    case Some(col) =>
      var e := ExtremesOf(data, col, period, shift);
      match ChooseTakeProfit(e.marks, e.prices, score)
      case None => Failure(NoProfitableTakeProfit)
      case Some(c) => Success(Labeling(e, c))
  }

  /** The sweep loop as the source writes it: one labeling per swept
      take-profit, from the sweep's copy of the labeler, and its score. */
  method SweepScores(marks: seq<int>, prices: seq<real>, grid: seq<real>, score: Scorer) returns (scores: seq<real>)
    requires Inputs(marks, prices)
    ensures |scores| == |grid|
    ensures forall k :: 0 <= k < |grid| ==> scores[k] == score(BuyLocs(marks, prices, grid[k]), grid[k])
    ensures scores == Scores(marks, prices, grid, score)
  {
    scores := [];
    var i := 0;
    while i < |grid|
      invariant 0 <= i <= |grid| && |scores| == i
      invariant forall k :: 0 <= k < i ==> scores[k] == score(BuyLocs(marks, prices, grid[k]), grid[k])
    {
      var buyLocs := SweepLabels(marks, prices, grid[i]);
      scores := scores + [score(buyLocs, grid[i])];
      i := i + 1;
    }
  }

  /** The selection loop as the source writes it: a running maximum starting
      from 0 that moves only on a strictly larger score. */
  method ScanBest(scores: seq<real>) returns (pick: Option<nat>)
    ensures pick == SelectBest(scores)
  {
    var maxPrft := 0.0;
    pick := None;
    var i := 0;
    while i < |scores|
      invariant 0 <= i <= |scores|
      invariant BestSoFar(scores, i, maxPrft, pick)
      invariant BestFrom(scores, i, maxPrft, pick) == SelectBest(scores)
    {
      if scores[i] > maxPrft {
        maxPrft := scores[i];
        pick := Some(i);
      }
      i := i + 1;
    }
  }

  /** The sweep followed by the selection chooses what `ChooseTakeProfit` chooses. */
  method OptimizeTakeProfit(marks: seq<int>, prices: seq<real>, score: Scorer) returns (best: Option<Choice>)
    requires Inputs(marks, prices)
    ensures best == ChooseTakeProfit(marks, prices, score)
  {
    var grid := TakeProfitGrid();
    var scores := SweepScores(marks, prices, grid, score);
    var pick := ScanBest(scores);
    best := if pick.None? then None else Some(Choice(grid[pick.value], scores[pick.value]));
  }

  /** The unwritten last position of the smoothed curve stays 0: even on a
      rising, positive column the default shift of -1 yields a top three bars
      before the end. */
  lemma RisingColumnStillMarksTop(data: seq<Row>, col: nat, period: int)
    requires WellFormed(data) && col < NumFields && period >= 1
    requires |data| >= period + 1 && |data| >= 3
    requires forall r :: 0 <= r < |data| ==> data[r][col] > 0.0
    requires forall r :: 0 <= r < |data| - 1 ==> data[r][col] <= data[r + 1][col]
    ensures Detect(data, Sma(data, col, period, -1)).marks[|data| - 3] == 1
  {
    var n := |data|;
    var sma := Sma(data, col, period, -1);
    if n >= period + 2 {
      RisingTail(data, col, period);
    } else {
      ShortTail(data, col, period);
    }
    assert IsTop(sma, n - 3);
    var e := Detect(data, sma);
    assert e.marks[n - 3] == 1;
  }

  /** With one bar more than the window, only position `len - 2` is written:
      a positive value between two unwritten zeros. */
  lemma ShortTail(data: seq<Row>, col: nat, period: int)
    requires WellFormed(data) && col < NumFields && period >= 1
    requires |data| == period + 1 && |data| >= 3
    requires forall r :: 0 <= r < |data| ==> data[r][col] > 0.0
    ensures var sma := Sma(data, col, period, -1);
      sma[|data| - 3] == 0.0 && sma[|data| - 1] == 0.0 && sma[|data| - 2] > 0.0
  {
    var n := |data|;
    var w := Window(data, col, 0, n - 1);
    SumPositive(w);
    var sma := Sma(data, col, period, -1);
    assert sma[n - 1] == SmaValue(data, col, period, -1, n - 1);
    assert sma[n - 2] == SmaValue(data, col, period, -1, n - 2) == Mean(w);
    assert sma[n - 3] == SmaValue(data, col, period, -1, n - 3);
  }

  lemma RisingTail(data: seq<Row>, col: nat, period: int)
    requires WellFormed(data) && col < NumFields && period >= 1 && |data| >= period + 2
    requires forall r :: 0 <= r < |data| ==> data[r][col] > 0.0
    requires forall r :: 0 <= r < |data| - 1 ==> data[r][col] <= data[r + 1][col]
    ensures var sma := Sma(data, col, period, -1);
      sma[|data| - 3] <= sma[|data| - 2] && sma[|data| - 1] < sma[|data| - 2]
  {
    var n := |data|;
    var late := Window(data, col, n - 1 - period, n - 1);
    var early := Window(data, col, n - 2 - period, n - 2);
    assert forall t :: 0 <= t < |early| ==> early[t] <= late[t] by {
      forall t | 0 <= t < |early|
        ensures early[t] <= late[t]
      {
        assert early[t] == data[n - 2 - period + t][col];
        assert late[t] == data[n - 2 - period + t + 1][col];
      }
    }
    SumMonotone(early, late);
    SumPositive(late);
    MeanOrdered(early, late);
    var sma := Sma(data, col, period, -1);
    assert sma[n - 1] == SmaValue(data, col, period, -1, n - 1);
    assert sma[n - 2] == SmaValue(data, col, period, -1, n - 2);
    assert sma[n - 3] == SmaValue(data, col, period, -1, n - 3);
  }

  lemma MeanOrdered(early: seq<real>, late: seq<real>)
    requires |early| == |late| > 0 && Sum(early) <= Sum(late) && Sum(late) > 0.0
    ensures Mean(early) <= Mean(late) && Mean(late) > 0.0
  {
  }
}
