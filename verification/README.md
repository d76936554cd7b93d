# Extrema labeler — a Dafny model

This project models `labeler.py`, which labels minute bars of market data for model
training. The model covers four components:

- **Smoother and extrema detector** (`getMinMaxSMA`). A simple moving average of one named
  column, shifted back by `sma_shift`. Each bar gets a mark: +1 for a top of the smoothed
  curve, -1 for a bottom, 0 otherwise. Each marked bar also records its body high
  (`max(open, close)`) or body low (`min(open, close)`).
- **Greedy take-profit labeler** (`getBuyLocs`, and the copy of it inside the take-profit
  sweep). A small state machine holds the latest qualifying low. When a later top clears
  the take-profit ratio, it writes a three-wide cluster of buy markers around that low.
- **Take-profit optimiser** (the rest of `getMinMaxSMA`). It runs the labeler for 27
  take-profit percentages (0.15, 0.20, …, 1.45) and keeps the first one with the strictly
  highest score.
- **Quick labeler** (`getLabelsQuick`). Marks a bar when the high/low ratio between it and
  the next bar reaches `1 + thresh/100`.

Prices and averages are Dafny `real`s, so the comparisons are exact. Python's `-1`
"no low held" sentinel is modelled as `Option`. The score of a labeling is a function
parameter (`Labeler.Scorer`).

How each source loop is modelled:

- **Averaging and detection loops.** Each is a fold over the number of completed
  iterations (`Smoother.SmaLoop`, `Detector.DetectLoop`). A lemma relates each fold to an
  independent reference reading: `Smoother.SmaValue` and `Detector.IsTop`/`IsBottom`.
- **Greedy labeling loop.** A fold over the number of completed iterations
  (`GreedyLabeler.LabelLoop`).
  - `GreedyLabeler.BuyLocsSpec` shows the output is exactly the clusters of the tops that
    fire. A top fires when it clears the take-profit over the low held at that point,
    taken from the fold's own state.
  - `GreedyLabeler.HeldIsLatestRecordLow` pins that held low with an independent reading.
    In a stretch that starts with nothing held and in which no top fires, the held low is
    the latest low no higher than every earlier low of the stretch.
  - `GreedyLabeler.StepSemantics` states the same rule one step at a time.
- **The labeling loop copied inside the sweep.** It is an imperative loop
  (`GreedyLabeler.SweepLabels`), proved equal to the fold.
- **The sweep.** A loop (`Labeler.SweepScores`), proved equal to the reference sequence
  `Labeler.Scores`, which holds one score per take-profit.
- **The selection scan.** A recursive function (`Labeler.BestFrom`) and a loop
  (`Labeler.ScanBest`), both proved to pick the earliest strict maximum.
- **The quick labeler.** A loop (`QuickLabeler.GetLabelsQuick`), proved equal to a
  pointwise reference reading (`QuickLabeler.QuickLabels`).

Modules: `Common` (shared types and field positions), `Features` (the name table),
`Smoother`, `Detector`, `GreedyLabeler`, `Labeler` (sweep, selection and the whole
pipeline) and `QuickLabeler`.

Some behaviours of the code are worth noting, and the model keeps them as written:

- **A rising series still gets a top mark.** With the default `sma_shift = -1`, the last
  smoothed position is never written and stays 0. Take a smoothed column that is positive
  and non-decreasing, on a series with at least `sma_period + 1` bars and at least 3 bars.
  That column still gets a top mark three bars before the end.
  `Labeler.RisingColumnStillMarksTop` proves this. With exactly `sma_period + 1` bars,
  the column only needs to be positive.
- **A new low does not always replace the held low.** With `stop_loss = 0`, a new low
  replaces the held low only when its price is not higher than the held low's price.
- **No mark is overwritten.** Each detection iteration writes only position `i - 2`, so
  every position is written at most once.
- **Turns use XOR.** A turn is the exclusive or of the two "falling" flags. So tops are
  exactly the rising edges of the "smoothed curve falls here" sequence, and bottoms are
  exactly its falling edges.

## Model

| member | source | states |
|---|---|---|
| `Features.FeatureColumn` | labeler.py:21-40 | A name outside the twelve-name table yields no column. Any other name yields a column below 12 whose listed name is that name. |
| `Features.FeatureNamesRoundTrip` | labeler.py:21-34 | Each of the twelve names maps back to its own position in the column order. |
| `Features.FeatureColumnInjective` | labeler.py:21-38 | Two names that select the same column are the same name. |
| `Smoother.SmaLoop` | labeler.py:51-55 | The averaging loop after its iterations up to `n`. It keeps the input's length. A position that no iteration so far has written stays 0: that is, when `k - shift >= n` or `k - shift < period`. |
| `Smoother.SmaLoopValue` | labeler.py:42-55 | After the loop has run up to `n`, position `k` holds the window mean when `period <= k - shift < n`, and 0 otherwise. |
| `Smoother.Sma` | labeler.py:42-55 | The smoothed series has the input's length. Position `i + shift` holds the mean of the column over rows `i - period .. i - 1` for `period <= i < len`. Every other position is 0. |
| `Smoother.SmaTailUnwritten` | labeler.py:42-55 | With `sma_shift = -1` the last smoothed position stays 0. |
| `Detector.DetectLoop` | labeler.py:57-77 | The detection loop after its iterations up to `n`. It keeps the input's length, and every mark is -1, 0 or 1. Positions `j` with `j + 2 >= n` are still unmarked with price 0. |
| `Detector.DetectLoopAt` | labeler.py:57-77 | After the loop has run up to `n`, position `j` is marked only when `j + 2 < n`. The mark is +1 at a top and -1 at a bottom, and the price is the body high, the body low or 0 accordingly. |
| `Detector.Detect` | labeler.py:45-77 | Marks and prices have the input's length. A mark is +1 iff `sma[j+1] >= sma[j]` and `sma[j+2] < sma[j+1]`, and -1 iff `sma[j+1] < sma[j]` and `sma[j+2] >= sma[j+1]`; otherwise it is 0. The last two positions are 0. The price is `max(open, close)` at +1, `min(open, close)` at -1 and 0 elsewhere. |
| `Detector.TopBottomExclusive` | labeler.py:63-66 | No position is both a top and a bottom. |
| `Detector.FallingEdge` | labeler.py:60-66 | If the curve falls at `a` and does not fall at a later `b`, a bottom lies in `[a, b)`. |
| `Detector.RisingEdge` | labeler.py:60-66 | If the curve does not fall at `a` and falls at a later `b`, a top lies in `[a, b)`. |
| `Detector.MarksAlternate` | labeler.py:57-77 | Skipping zeros, the marks strictly alternate: between any two equal nonzero marks lies an opposite one. |
| `GreedyLabeler.Cluster` | labeler.py:186-192 | Sets the held index and its in-range neighbours to 1 and leaves every other entry unchanged. |
| `GreedyLabeler.Step` | labeler.py:176-193 | One iteration. The held low stays an earlier index marked -1. A marker that changes becomes 1, and only at a +1 mark. |
| `GreedyLabeler.LabelLoop` | labeler.py:162-193 | After any number of iterations, the markers have the input's length and hold only 0s and 1s. Every 1 is at or next to a -1 mark. The held low is an earlier index marked -1. |
| `GreedyLabeler.BuyLocs` | labeler.py:153-195 | The buy markers have the length of the marks and hold only 0s and 1s. Every 1 lies within distance 1 of a -1 mark. |
| `GreedyLabeler.OnesFromTriggers` | labeler.py:176-193 | Every 1 written in the first `n` iterations lies within distance 1 of a held low. That low is one over which an earlier top cleared the take-profit ratio. |
| `GreedyLabeler.BuyLocsSpec` | labeler.py:153-195 | A buy marker is 1 iff some +1 mark clears the take-profit ratio over the low held when it is reached, and the marker is that low or one of its neighbours. |
| `GreedyLabeler.ExtendRecordLow` | labeler.py:177-180 | Taking the next low when it is not higher than the held one, and keeping the held one otherwise, preserves the latest-record-low reading one index further. |
| `GreedyLabeler.HeldIsLatestRecordLow` | labeler.py:176-193 | Take a stretch that starts with nothing held and in which no top fires. A low is held iff the stretch has one. The held low is a low no higher than every earlier low of the stretch, and every later low of the stretch is strictly higher. |
| `GreedyLabeler.HigherLowKeptExample` | labeler.py:176-195 | Marks `[-1, -1, 1]`, prices `[100, 102, 105]` and a take-profit of 4 give `[1, 1, 0]`. The higher second low does not replace the first. |
| `GreedyLabeler.StepSemantics` | labeler.py:176-193 | A -1 mark becomes the held low iff no low is held or the price ratio to the held low is at most `1 - stop_loss/100`. A +1 mark whose ratio to a held low is at least the take-profit ratio writes the cluster and clears the hold. Every other case leaves the state unchanged. |
| `GreedyLabeler.OnesPersist` | labeler.py:176-193 | Once a marker is 1, no later iteration clears it. |
| `GreedyLabeler.TriggerLeavesCluster` | labeler.py:185-193 | When a top triggers on held low `h`, the final markers are 1 at `h`, `h - 1` and `h + 1`, where those are in range. |
| `GreedyLabeler.NoLowNeverHolds` | labeler.py:176-193 | Without a -1 mark, no low is ever held and no marker is written. |
| `GreedyLabeler.NoTopNeverTriggers` | labeler.py:176-193 | Without a +1 mark, no marker is ever written. |
| `GreedyLabeler.NoPairNoBuys` | labeler.py:162-195 | The output is all zeros when there is no +1 mark or no -1 mark. |
| `GreedyLabeler.TakeProfitExample` | labeler.py:176-195 | Marks `[-1, 0, 1]`, prices `[100, 0, 105]` and a take-profit of 4 give `[1, 1, 0]`. |
| `GreedyLabeler.TakeProfitMissExample` | labeler.py:176-195 | Marks `[-1, 0, 1]`, prices `[100, 0, 103]` and a take-profit of 4 give `[0, 0, 0]`. |
| `GreedyLabeler.SweepLabels` | labeler.py:82-113 | The copy of the loop inside the sweep, with its `-1` sentinel index, returns exactly the `getBuyLocs` markers for the same take-profit. |
| `Labeler.TakeProfitGrid` | labeler.py:81 | The sweep covers 27 percentages. They start at 0.15, rise in steps of 0.05 and stay below 1.5. |
| `Labeler.SweepScores` | labeler.py:81-127 | The sweep loop, which uses the sweep's own copy of the labeler, yields for each take-profit the score of its `getBuyLocs` labeling. The result equals the reference sequence `Labeler.Scores`. |
| `Labeler.ScanBest` | labeler.py:129-135 | The scan, which starts from a running maximum of 0 and uses a strict `>`, picks exactly the earliest strict maximum that `SelectBest` characterises. |
| `Labeler.BestFrom` | labeler.py:129-135 | Continuing the selection scan from any consistent running maximum ends with the earliest strict maximum, or with none when no score exceeds 0. |
| `Labeler.SelectBest` | labeler.py:129-135 | No index is selected iff no score exceeds 0. Otherwise the selected index has a positive score, no score is higher, and every earlier score is strictly lower. |
| `Labeler.ChooseTakeProfit` | labeler.py:79-135 | The chosen take-profit is a swept one. Its labeling's score is positive and maximal among the 27 candidates, and every smaller take-profit scores strictly lower. Nothing is chosen iff every candidate scores at most 0. |
| `Labeler.ExtremesOf` | labeler.py:68-77 | When open and close are positive, every recorded low has a positive price. The labeler's division by the held low is therefore defined. |
| `Labeler.GetMinMaxSma` | labeler.py:3-151 | An unknown feature name fails with `InvalidFeature`. Otherwise the result holds the marks and prices of the smoothed chosen column, together with the chosen take-profit. It fails with `NoProfitableTakeProfit` exactly when no candidate scores above 0. |
| `Labeler.OptimizeTakeProfit` | labeler.py:79-135 | The sweep loop followed by the selection scan chooses exactly what `ChooseTakeProfit` chooses. |
| `Labeler.RisingTail` | labeler.py:42-55 | Take a non-decreasing positive column with shift -1 and at least `period + 2` bars. The smoothed values rise (or stay equal) into `len - 2`, then drop to the unwritten 0. |
| `Labeler.ShortTail` | labeler.py:42-55 | With exactly `period + 1` bars, a positive column and shift -1, only position `len - 2` is written. It is positive and lies between two zeros. |
| `Labeler.RisingColumnStillMarksTop` | labeler.py:42-77 | Take a non-decreasing positive column with shift -1, at least `period + 1` bars and at least 3 bars. It still gets a +1 mark at `len - 3`. |
| `QuickLabeler.GetLabelsQuick` | labeler.py:197-207 | The result has length `max(data.shape)` and holds only 0s and 1s, and its last entry is 0. `locs[j] = 1` iff the ratio reaches `1 + thresh/100`. The ratio is `high[j]/low[j+1]` when `short` and `high[j+1]/low[j]` otherwise. |
| `QuickLabeler.QuickThresholdMonotone` | labeler.py:200-205 | Raising the threshold never turns a 0 into a 1. |
| `QuickLabeler.ShortRatioExample` | labeler.py:203-205 | In short mode, a ratio of 1.005 clears the default threshold of 0.4 percent. |

## Left out

- The profit score (labeler.py:115-127) is left out. It uses `sin`, real-valued exponents
  and a day count, which is floating-point arithmetic. The model takes it as the `Scorer`
  parameter, which also absorbs `fudge_acc`.
- Labeler.Labeling: the returned metric record keeps only the take-profit and its score.
  `data_den`, `accuracy_adj` and `percent_profit` are intermediate terms of that score.
- Empty input: scoring an empty series divides by a day count of 0 in the source. The
  opaque scorer does not model this.
- The `np.arange(0.15, 1.5, 0.05)` float grid is modelled as the exact values
  `(15 + 5k)/100` for `k` in 0..26. Those are the same 27 candidates in the same order.
- Float rounding in `np.mean` and in the ratio comparisons is not modelled. The exact
  reals can decide threshold-boundary cases differently from IEEE arithmetic.
- The unused `fees`/`fee` and `state` variables have no effect on any output.
- The commented-out diagnostics and prints are not modelled.
- The source's default arguments (`sma_period=5`, `sma_shift=-1`, `fudge_acc=2`,
  `target_feature='open'`, `short=True`, `thresh=0.4`) are not modelled. Every model
  operation takes these values explicitly, since Dafny functions have no default
  arguments.
- Smoother.Sma: `sma_period <= 0` is excluded by `ValidSmaParams`, not modelled. In the
  source it need not raise. With `sma_period = 0` the averaged slice is empty and
  `np.mean` yields `nan`. A negative period starts the loop at negative indices, which
  wrap around.
- Smoother.Sma: Python's negative-index wrap-around (`sma_period + sma_shift < 0`) and
  the IndexError for a positive shift are ruled out by `ValidSmaParams`, not modelled.
  `ValidSmaParams` only constrains the shift when the averaging loop runs.
- Labeler.GetMinMaxSma requires positive open and close prices in every row. The source
  only divides by the prices recorded at bottoms. A zero there gives IEEE `inf`/`nan` in
  numpy rather than an error, and the model does not include that.
- GreedyLabeler.BuyLocs requires a positive price at every -1 mark. This excludes the
  same IEEE division by zero.
- QuickLabeler.GetLabelsQuick requires at least as many rows as columns. With fewer rows,
  the source's loop runs past the last row and raises IndexError. It also requires the
  lows it divides by to be positive.
- The result dictionary keyed by take-profit is modelled as a sequence in sweep order.
  The float keys are distinct, so insertion order is sweep order.
