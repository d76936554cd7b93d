/** The greedy take-profit labeler (labeler.py `getBuyLocs`, lines 153-195,
    and its copy inside the take-profit sweep, lines 82-113). */
module GreedyLabeler {
  import opened Common

  /** The stop-loss percentage is fixed at 0 in both copies of the loop. */
  const StopLossPercent: real := 0.0

  /** A later low replaces the held one only when their price ratio is at most this. */
  const StopLossRatio: real := 1.0 - StopLossPercent / 100.0

  /** The price ratio a top must reach over the held low to trigger. */
  function TakeProfitRatio(takeProfit: real): real
  {
    1.0 + takeProfit / 100.0
  }

  /** The state machine: the held low (the source's `last_dwn`, `None` for
      `-1`) and the buy markers written so far. */
  datatype LabelState = LabelState(held: Option<nat>, out: seq<int>)

  /** Marks and prices are aligned, and every low has a positive price, so
      the ratios against a held low are defined. */
  predicate Inputs(marks: seq<int>, prices: seq<real>)
  {
    |marks| == |prices| && forall j :: 0 <= j < |marks| && marks[j] == -1 ==> prices[j] > 0.0
  }

  /** A held low is an earlier index that carries a -1 mark. */
  predicate HeldBefore(marks: seq<int>, held: Option<nat>, i: nat)
  {
    held.Some? ==> held.value < i && held.value < |marks| && marks[held.value] == -1
  }

  /** Index `k` is a low or a neighbour of one. */
  predicate NearLow(marks: seq<int>, k: nat)
    requires k < |marks|
  {
    marks[k] == -1 || (k > 0 && marks[k - 1] == -1) || (k + 1 < |marks| && marks[k + 1] == -1)
  }

  /** Sets `h` and its in-range neighbours to 1. */
  function Cluster(out: seq<int>, h: nat): (r: seq<int>)
    requires h < |out|
    ensures |r| == |out|
    ensures forall k :: 0 <= k < |out| ==> r[k] == if h <= k + 1 && k <= h + 1 then 1 else out[k]
  {
    var r0 := out[h := 1];
    var r1 := if h >= 1 then r0[h - 1 := 1] else r0;
    if h + 1 < |r1| then r1[h + 1 := 1] else r1
  }

  /** One iteration of the loop at index `i`: the held low stays an earlier
      low, and the only markers it changes are set to 1, by a top. */
  function Step(marks: seq<int>, prices: seq<real>, tp: real, i: nat, s: LabelState): (t: LabelState)
    requires Inputs(marks, prices) && i < |marks| && |s.out| == |marks| && HeldBefore(marks, s.held, i)
    ensures |t.out| == |s.out| && HeldBefore(marks, t.held, i + 1)
    ensures forall k :: 0 <= k < |s.out| && t.out[k] != s.out[k] ==> t.out[k] == 1 && marks[i] == 1
  {
    var held :=
      if marks[i] == -1 && ((s.held.Some? && prices[i] / prices[s.held.value] <= StopLossRatio) || s.held.None?)
      then Some(i) else s.held;
    if marks[i] == 1 && held.Some? && prices[i] / prices[held.value] >= tp
    then LabelState(None, Cluster(s.out, held.value))
    else LabelState(held, s.out)
  }

  /** The state after the first `n` iterations. */
  function LabelLoop(marks: seq<int>, prices: seq<real>, tp: real, n: nat): (s: LabelState)
    requires Inputs(marks, prices) && n <= |marks|
    ensures |s.out| == |marks| && HeldBefore(marks, s.held, n)
    ensures forall k :: 0 <= k < |marks| ==> s.out[k] == 0 || s.out[k] == 1
    ensures forall k :: 0 <= k < |marks| && s.out[k] == 1 ==> NearLow(marks, k)
    decreases n
  {
    if n == 0 then LabelState(None, Zeros(|marks|, 0))
    else Step(marks, prices, tp, n - 1, LabelLoop(marks, prices, tp, n - 1))
  }

  /** The buy markers for a take-profit percentage: same length as the
      marks, every entry 0 or 1, and every 1 at or next to a low. */
  function BuyLocs(marks: seq<int>, prices: seq<real>, takeProfit: real): (r: seq<int>)
    requires Inputs(marks, prices)
    ensures |r| == |marks|
    ensures forall k :: 0 <= k < |r| ==> r[k] == 0 || r[k] == 1
    ensures forall k :: 0 <= k < |r| && r[k] == 1 ==> NearLow(marks, k)
  {
    LabelLoop(marks, prices, TakeProfitRatio(takeProfit), |marks|).out
  }

  /** The transitions of one iteration: a low becomes the held low iff none is
      held or the stop-loss ratio is reached; a top at or above the take-profit
      ratio over a held low marks that low's cluster and clears the hold;
      everything else leaves the state as it was. */
  lemma StepSemantics(marks: seq<int>, prices: seq<real>, tp: real, i: nat, s: LabelState)
    requires Inputs(marks, prices) && i < |marks| && |s.out| == |marks| && HeldBefore(marks, s.held, i)
    ensures var t := Step(marks, prices, tp, i, s);
      && (marks[i] == -1 ==>
            t.out == s.out
            && (t.held == Some(i) <==> s.held.None? || prices[i] / prices[s.held.value] <= StopLossRatio)
            && (t.held != Some(i) ==> t.held == s.held))
      && (marks[i] == 1 && s.held.Some? && prices[i] / prices[s.held.value] >= tp ==>
            t == LabelState(None, Cluster(s.out, s.held.value)))
      && (marks[i] == 1 && !(s.held.Some? && prices[i] / prices[s.held.value] >= tp) ==> t == s)
      && (marks[i] != 1 && marks[i] != -1 ==> t == s)
  {
  }

  /** A 1 once written is never cleared by later iterations. */
  lemma {:induction false} OnesPersist(marks: seq<int>, prices: seq<real>, tp: real, n: nat, m: nat, k: nat)
    requires Inputs(marks, prices) && n <= m <= |marks| && k < |marks|
    requires LabelLoop(marks, prices, tp, n).out[k] == 1
    ensures LabelLoop(marks, prices, tp, m).out[k] == 1
    decreases m - n
  {
    if n < m {
      OnesPersist(marks, prices, tp, n + 1, m, k);
    }
  }

  /** When the top at `i` triggers on the held low `h`, the final markers
      hold the whole three-wide cluster around `h`. */
  lemma TriggerLeavesCluster(marks: seq<int>, prices: seq<real>, takeProfit: real, i: nat)
    requires Inputs(marks, prices) && i < |marks|
    requires var s := LabelLoop(marks, prices, TakeProfitRatio(takeProfit), i);
      marks[i] == 1 && s.held.Some? && prices[i] / prices[s.held.value] >= TakeProfitRatio(takeProfit)
    ensures var h := LabelLoop(marks, prices, TakeProfitRatio(takeProfit), i).held.value;
      var r := BuyLocs(marks, prices, takeProfit);
      r[h] == 1 && (h > 0 ==> r[h - 1] == 1) && (h + 1 < |r| ==> r[h + 1] == 1)
  {
    var tp := TakeProfitRatio(takeProfit);
    var h := LabelLoop(marks, prices, tp, i).held.value;
    var after := LabelLoop(marks, prices, tp, i + 1);
    assert after.out == Cluster(LabelLoop(marks, prices, tp, i).out, h);
    OnesPersist(marks, prices, tp, i + 1, |marks|, h);
    if h > 0 {
      OnesPersist(marks, prices, tp, i + 1, |marks|, h - 1);
    }
    if h + 1 < |marks| {
      OnesPersist(marks, prices, tp, i + 1, |marks|, h + 1);
    }
  }

  /** Reference reading of a marker: the top at `i` clears the take-profit
      ratio over the low held when it is reached, and `k` is that low or one
      of its neighbours. */
  predicate TriggerCovers(marks: seq<int>, prices: seq<real>, tp: real, i: nat, k: int)
    requires Inputs(marks, prices) && i < |marks|
  {
    var s := LabelLoop(marks, prices, tp, i);
    && marks[i] == 1 && s.held.Some?
    && prices[i] / prices[s.held.value] >= tp
    && s.held.value - 1 <= k <= s.held.value + 1
  }

  /** Every 1 written in the first `n` iterations lies in the cluster of a
      top among them that cleared the take-profit over its held low. */
  lemma {:induction false} OnesFromTriggers(marks: seq<int>, prices: seq<real>, tp: real, n: nat, k: nat)
    requires Inputs(marks, prices) && n <= |marks| && k < |marks|
    requires LabelLoop(marks, prices, tp, n).out[k] == 1
    ensures exists i :: 0 <= i < n && TriggerCovers(marks, prices, tp, i, k)
    decreases n
  {
    var s := LabelLoop(marks, prices, tp, n - 1);
    if s.out[k] == 1 {
      OnesFromTriggers(marks, prices, tp, n - 1, k);
      var i :| 0 <= i < n - 1 && TriggerCovers(marks, prices, tp, i, k);
      assert 0 <= i < n && TriggerCovers(marks, prices, tp, i, k);
    } else {
      assert TriggerCovers(marks, prices, tp, n - 1, k);
    }
  }

  /** The buy markers are exactly the clusters of the triggering tops: a
      marker is 1 iff some top clears the take-profit ratio over the low held
      when it is reached and the marker is that low or one of its neighbours. */
  lemma BuyLocsSpec(marks: seq<int>, prices: seq<real>, takeProfit: real, k: nat)
    requires Inputs(marks, prices) && k < |marks|
    ensures BuyLocs(marks, prices, takeProfit)[k] == 1
            <==> exists i :: 0 <= i < |marks| && TriggerCovers(marks, prices, TakeProfitRatio(takeProfit), i, k)
  {
    var tp := TakeProfitRatio(takeProfit);
    if BuyLocs(marks, prices, takeProfit)[k] == 1 {
      OnesFromTriggers(marks, prices, tp, |marks|, k);
    }
    if exists i :: 0 <= i < |marks| && TriggerCovers(marks, prices, tp, i, k) {
      var i :| 0 <= i < |marks| && TriggerCovers(marks, prices, tp, i, k);
      TriggerLeavesCluster(marks, prices, takeProfit, i);
    }
  }

  /** The top at `i` clears the take-profit ratio over the low held when it
      is reached, which clears the hold. */
  predicate Fires(marks: seq<int>, prices: seq<real>, tp: real, i: nat)
    requires Inputs(marks, prices) && i < |marks|
  {
    var s := LabelLoop(marks, prices, tp, i);
    marks[i] == 1 && s.held.Some? && prices[i] / prices[s.held.value] >= tp
  }

  /** Reference reading of the held low over a stretch `start .. n-1` that
      begins with nothing held. A low is held iff the stretch has one. The
      held low `h` is a low of the stretch that is no higher than any earlier
      low of the stretch, and every later low of the stretch is strictly
      higher than `h`. */
  predicate LatestRecordLow(marks: seq<int>, prices: seq<real>, start: nat, n: nat, held: Option<nat>)
    requires |marks| == |prices| && start <= n <= |marks|
  {
    && (held.None? <==> forall j :: start <= j < n ==> marks[j] != -1)
    && (held.Some? ==>
          && start <= held.value < n && marks[held.value] == -1
          && (forall j :: start <= j < held.value && marks[j] == -1 ==> prices[held.value] <= prices[j])
          && (forall j :: held.value < j < n && marks[j] == -1 ==> prices[j] > prices[held.value]))
  }

  /** Taking a low that is not higher than the current record keeps the
      reading true one index further. */
  lemma ExtendRecordLow(marks: seq<int>, prices: seq<real>, start: nat, i: nat, held: Option<nat>)
    requires |marks| == |prices| && start <= i < |marks|
    requires LatestRecordLow(marks, prices, start, i, held)
    ensures LatestRecordLow(marks, prices, start, i + 1,
      if marks[i] == -1 && (held.None? || prices[i] <= prices[held.value]) then Some(i) else held)
  {
  }

  /** In a stretch that begins with nothing held and in which no top fires,
      the held low is the latest record low of the stretch. With a stop-loss
      of 0, a later low replaces the held one only when it is not higher. */
  lemma {:induction false} HeldIsLatestRecordLow(marks: seq<int>, prices: seq<real>, tp: real, start: nat, n: nat)
    requires Inputs(marks, prices) && start <= n <= |marks|
    requires LabelLoop(marks, prices, tp, start).held.None?
    requires forall i :: start <= i < n ==> !Fires(marks, prices, tp, i)
    ensures LatestRecordLow(marks, prices, start, n, LabelLoop(marks, prices, tp, n).held)
    decreases n - start
  {
    if n > start {
      var i := n - 1;
      HeldIsLatestRecordLow(marks, prices, tp, start, i);
      var s := LabelLoop(marks, prices, tp, i);
      assert !Fires(marks, prices, tp, i);
      if marks[i] == -1 && s.held.Some? {
        RatioAtMostOne(prices[i], prices[s.held.value]);
      }
      ExtendRecordLow(marks, prices, start, i, s.held);
      assert LabelLoop(marks, prices, tp, n).held
             == if marks[i] == -1 && (s.held.None? || prices[i] <= prices[s.held.value]) then Some(i) else s.held;
    }
  }

  lemma RatioAtMostOne(a: real, b: real)
    requires b > 0.0
    ensures a / b <= 1.0 <==> a <= b
  {
  }

  /** A second low that is higher than the held one does not replace it, so
      the earlier, lower low is the one that pays off. */
  lemma HigherLowKeptExample()
    ensures BuyLocs([-1, -1, 1], [100.0, 102.0, 105.0], 4.0) == [1, 1, 0]
  {
    var marks, prices := [-1, -1, 1], [100.0, 102.0, 105.0];
    var tp := TakeProfitRatio(4.0);
    assert LabelLoop(marks, prices, tp, 1) == LabelState(Some(0), [0, 0, 0]);
    assert !(102.0 / 100.0 <= StopLossRatio);
    assert LabelLoop(marks, prices, tp, 2) == LabelState(Some(0), [0, 0, 0]);
    assert 105.0 / 100.0 >= tp;
  }

  /** Without a low to buy at, nothing is ever held. */
  lemma {:induction false} NoLowNeverHolds(marks: seq<int>, prices: seq<real>, tp: real, n: nat)
    requires Inputs(marks, prices) && n <= |marks|
    requires forall j :: 0 <= j < |marks| ==> marks[j] != -1
    ensures LabelLoop(marks, prices, tp, n) == LabelState(None, Zeros(|marks|, 0))
    decreases n
  {
    if n > 0 {
      NoLowNeverHolds(marks, prices, tp, n - 1);
    }
  }

  /** Without a top to sell at, nothing ever triggers. */
  lemma {:induction false} NoTopNeverTriggers(marks: seq<int>, prices: seq<real>, tp: real, n: nat)
    requires Inputs(marks, prices) && n <= |marks|
    requires forall j :: 0 <= j < |marks| ==> marks[j] != 1
    ensures LabelLoop(marks, prices, tp, n).out == Zeros(|marks|, 0)
    decreases n
  {
    if n > 0 {
      NoTopNeverTriggers(marks, prices, tp, n - 1);
    }
  }

  /** A series without a top or without a bottom gets no buy marker. */
  lemma NoPairNoBuys(marks: seq<int>, prices: seq<real>, takeProfit: real)
    requires Inputs(marks, prices)
    requires (forall j :: 0 <= j < |marks| ==> marks[j] != 1) || (forall j :: 0 <= j < |marks| ==> marks[j] != -1)
    ensures BuyLocs(marks, prices, takeProfit) == Zeros(|marks|, 0)
  {
    var tp := TakeProfitRatio(takeProfit);
    if forall j :: 0 <= j < |marks| ==> marks[j] != 1 {
      NoTopNeverTriggers(marks, prices, tp, |marks|);
    } else {
      NoLowNeverHolds(marks, prices, tp, |marks|);
    }
  }

  /** A low at 100 followed by a top at 105 clears a 4% take-profit; the
      cluster is clamped at the start of the series. */
  lemma TakeProfitExample()
    ensures BuyLocs([-1, 0, 1], [100.0, 0.0, 105.0], 4.0) == [1, 1, 0]
  {
    var marks, prices := [-1, 0, 1], [100.0, 0.0, 105.0];
    var tp := TakeProfitRatio(4.0);
    assert LabelLoop(marks, prices, tp, 1) == LabelState(Some(0), [0, 0, 0]);
    assert LabelLoop(marks, prices, tp, 2) == LabelState(Some(0), [0, 0, 0]);
    assert 105.0 / 100.0 >= tp;
  }

  /** A top only 3% above the held low does not clear a 4% take-profit, so
      nothing is marked. */
  lemma TakeProfitMissExample()
    ensures BuyLocs([-1, 0, 1], [100.0, 0.0, 103.0], 4.0) == [0, 0, 0]
  {
    var marks, prices := [-1, 0, 1], [100.0, 0.0, 103.0];
    var tp := TakeProfitRatio(4.0);
    assert LabelLoop(marks, prices, tp, 1) == LabelState(Some(0), [0, 0, 0]);
    assert LabelLoop(marks, prices, tp, 2) == LabelState(Some(0), [0, 0, 0]);
    assert !(103.0 / 100.0 >= tp);
  }

  /** The copy of the labeling loop inside the take-profit sweep, written as
      the source writes it (an index with -1 for "no low held"); it computes
      exactly what `BuyLocs` computes. */
  method SweepLabels(marks: seq<int>, prices: seq<real>, takeProfit: real) returns (buyLocs: seq<int>)
    requires Inputs(marks, prices)
    ensures buyLocs == BuyLocs(marks, prices, takeProfit)
  {
    buyLocs := Zeros(|marks|, 0);
    var lastDwn: int := -1;
    var tp := 1.0 + takeProfit / 100.0;
    var sl := 1.0 - StopLossPercent / 100.0;
    var i := 0;
    while i < |marks|
      invariant 0 <= i <= |marks| && -1 <= lastDwn < i
      invariant LabelLoop(marks, prices, tp, i)
                == LabelState(if lastDwn < 0 then None else Some(lastDwn), buyLocs)
    {
      if marks[i] == -1 {
        if (lastDwn >= 0 && prices[i] / prices[lastDwn] <= sl) || lastDwn < 0 {
          lastDwn := i;
        }
      }
      if marks[i] == 1 {
        if lastDwn >= 0 {
          if prices[i] / prices[lastDwn] >= tp {
            buyLocs := buyLocs[lastDwn := 1];
            if lastDwn - 1 >= 0 {
              buyLocs := buyLocs[lastDwn - 1 := 1];
            }
            if lastDwn + 1 < |marks| {
              buyLocs := buyLocs[lastDwn + 1 := 1];
            }
            lastDwn := -1;
          }
        }
      }
      i := i + 1;
    }
  }
}
