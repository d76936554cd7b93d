/** The stateless labeler of labeler.py `getLabelsQuick` (lines 197-207): bar
    `j` is marked when the high/low ratio between it and the next bar clears
    a percentage threshold. */
module QuickLabeler {
  import opened Common

  /** The largest dimension of the two-dimensional input, which sizes the result. */
  function ShapeMax(data: seq<Row>): nat
  {
    if |data| >= NumFields then |data| else NumFields
  }

  /** The input has at least as many rows as columns, so the loop runs over
      rows only, and every low it divides by is positive. */
  predicate QuickInputs(data: seq<Row>, short: bool)
  {
    && WellFormed(data) && |data| >= NumFields
    && (if short then forall i :: 1 <= i < |data| ==> data[i][LowField] > 0.0
        else forall i :: 0 <= i < |data| - 1 ==> data[i][LowField] > 0.0)
  }

  /** The ratio compared at bar `j`: this bar's high over the next bar's low
      when `short`, the next bar's high over this bar's low otherwise. */
  function Ratio(data: seq<Row>, short: bool, j: nat): real
    requires QuickInputs(data, short) && j + 1 < |data|
  {
    if short then data[j][HighField] / data[j + 1][LowField]
    else data[j + 1][HighField] / data[j][LowField]
  }

  /** Reference reading of the labels: bar `j` is 1 exactly when it has a
      successor and its ratio reaches `1 + thresh/100`. */
  function QuickLabels(data: seq<Row>, short: bool, thresh: real): (locs: seq<int>)
    requires QuickInputs(data, short)
    ensures |locs| == |data|
  {
    seq(|data|, j requires 0 <= j < |data| =>
      if j + 1 < |data| && Ratio(data, short, j) >= 1.0 + thresh / 100.0 then 1 else 0)
  }

  /** The labeling loop as the source writes it: iteration `i` compares bars
      `i - 1` and `i` and may set position `i - 1`. The result has one entry
      per row, each 0 or 1, is 1 exactly where the ratio clears the
      threshold, and always ends in 0. */
  method GetLabelsQuick(data: seq<Row>, short: bool, thresh: real) returns (locs: seq<int>)
    requires QuickInputs(data, short)
    ensures |locs| == ShapeMax(data)
    ensures forall j :: 0 <= j < |locs| ==> locs[j] == 0 || locs[j] == 1
    ensures forall j :: 0 <= j < |locs| ==>
      (locs[j] == 1 <==> j + 1 < |data| && Ratio(data, short, j) >= 1.0 + thresh / 100.0)
    ensures locs[|locs| - 1] == 0
    ensures locs == QuickLabels(data, short, thresh)
  {
    var n := ShapeMax(data);
    locs := Zeros(n, 0);
    var thres := 1.0 + thresh / 100.0;
    var i := 1;
    while i < n
      invariant 1 <= i <= n
      invariant |locs| == n
      invariant forall j :: 0 <= j < n ==>
        locs[j] == if j + 1 < i && Ratio(data, short, j) >= thres then 1 else 0
    {
      var delta := if short then data[i - 1][HighField] / data[i][LowField]
                   else data[i][HighField] / data[i - 1][LowField];
      if delta >= thres {
        locs := locs[i - 1 := 1];
      }
      i := i + 1;
    }
  }

  /** Raising the threshold never turns a 0 into a 1. */
  lemma QuickThresholdMonotone(data: seq<Row>, short: bool, low: real, high: real)
    requires QuickInputs(data, short) && low <= high
    ensures forall j :: 0 <= j < |data| ==> QuickLabels(data, short, high)[j] <= QuickLabels(data, short, low)[j]
  {
  }

  /** A short-side ratio of 1.005 clears the default threshold of 0.4 percent. */
  lemma ShortRatioExample(data: seq<Row>, j: nat)
    requires QuickInputs(data, true) && j + 1 < |data|
    requires data[j][HighField] == 1.005 * data[j + 1][LowField]
    ensures QuickLabels(data, true, 0.4)[j] == 1
  {
  }
}
