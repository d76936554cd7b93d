/** The simple moving average over one column, shifted by `sma_shift`
    (labeler.py lines 42 and 51-55). */
module Smoother {
  import opened Common

  function Sum(xs: seq<real>): real
  {
    if |xs| == 0 then 0.0 else Sum(xs[..|xs| - 1]) + xs[|xs| - 1]
  }

  function Mean(xs: seq<real>): real
    requires |xs| > 0
  {
    Sum(xs) / (|xs| as real)
  }

  /** The values of column `col` over rows `lo .. hi-1`. */
  function Window(data: seq<Row>, col: nat, lo: nat, hi: nat): (w: seq<real>)
    requires WellFormed(data) && col < NumFields && lo <= hi <= |data|
    ensures |w| == hi - lo
    ensures forall t :: 0 <= t < hi - lo ==> w[t] == data[lo + t][col]
  {
    seq(hi - lo, t requires 0 <= t < hi - lo => data[lo + t][col])
  }

  /** The averaging loop stays inside the series: a window of at least one
      row, and, whenever the loop body runs at all, a shift that moves each
      average back by at most the window length. */
  predicate ValidSmaParams(n: nat, period: int, shift: int)
  {
    period >= 1 && (n <= period || (shift <= 0 && period + shift >= 0))
  }

  /** The smoothed series after the averaging loop has run for `i` in
      `period .. n-1`: iteration `i` writes position `i + shift`. */
  function SmaLoop(data: seq<Row>, col: nat, period: int, shift: int, n: nat): (s: seq<real>)
    requires WellFormed(data) && col < NumFields && ValidSmaParams(|data|, period, shift)
    requires n <= |data|
    ensures |s| == |data|
    ensures forall k :: 0 <= k < |data| && (k - shift >= n || k - shift < period) ==> s[k] == 0.0
    decreases n
  {
    if n <= period then Zeros(|data|, 0.0)
    else
      var i := n - 1;
      SmaLoop(data, col, period, shift, i)[i + shift := Mean(Window(data, col, i - period, i))]
  }


  /** Reference reading of one smoothed position: position `k` holds the mean
      of the `period` rows before `k - shift` when that source index is one
      the loop visits, and stays 0 otherwise. */
  function SmaValue(data: seq<Row>, col: nat, period: int, shift: int, k: int): real
    requires WellFormed(data) && col < NumFields && ValidSmaParams(|data|, period, shift)
  {
    var i := k - shift;
    if period <= i < |data| then Mean(Window(data, col, i - period, i)) else 0.0
  }

  lemma {:induction false} SmaLoopValue(data: seq<Row>, col: nat, period: int, shift: int, n: nat, k: nat)
    requires WellFormed(data) && col < NumFields && ValidSmaParams(|data|, period, shift)
    requires n <= |data| && k < |data|
    ensures SmaLoop(data, col, period, shift, n)[k]
            == if period <= k - shift < n then Mean(Window(data, col, k - shift - period, k - shift)) else 0.0
    decreases n
  {
    if n > period {
      SmaLoopValue(data, col, period, shift, n - 1, k);
    }
  }

  /** The smoothed column of the whole series: every position is either the
      window mean the loop wrote there or the initial 0, and each position is
      written at most once. */
  function Sma(data: seq<Row>, col: nat, period: int, shift: int): (s: seq<real>)
    requires WellFormed(data) && col < NumFields && ValidSmaParams(|data|, period, shift)
    ensures |s| == |data|
    ensures forall k :: 0 <= k < |data| ==> s[k] == SmaValue(data, col, period, shift, k)
  {
    var s := SmaLoop(data, col, period, shift, |data|);
    assert forall k :: 0 <= k < |data| ==> s[k] == SmaValue(data, col, period, shift, k) by {
      forall k | 0 <= k < |data| {
        SmaLoopValue(data, col, period, shift, |data|, k);
      }
    }
    s
  }

  /** With the default shift of -1 the last position is never written. */
  lemma SmaTailUnwritten(data: seq<Row>, col: nat, period: int)
    requires WellFormed(data) && col < NumFields && ValidSmaParams(|data|, period, -1)
    requires |data| > 0
    ensures Sma(data, col, period, -1)[|data| - 1] == 0.0
  {
  }

  lemma {:induction false} SumMonotone(a: seq<real>, b: seq<real>)
    requires |a| == |b|
    requires forall t :: 0 <= t < |a| ==> a[t] <= b[t]
    ensures Sum(a) <= Sum(b)
    decreases |a|
  {
    if |a| > 0 {
      SumMonotone(a[..|a| - 1], b[..|b| - 1]);
    }
  }

  lemma {:induction false} SumPositive(a: seq<real>)
    requires |a| > 0
    requires forall t :: 0 <= t < |a| ==> a[t] > 0.0
    ensures Sum(a) > 0.0
    decreases |a|
  {
    if |a| > 1 {
      SumPositive(a[..|a| - 1]);
    }
  }
}
