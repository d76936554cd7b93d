/** Turning points of the smoothed curve (labeler.py lines 45-77): a mark of
    +1 (top) or -1 (bottom) per bar, with the bar's body high or low. */
module Detector {
  import opened Common

  /** Marks in {-1, 0, 1} and the extreme price recorded at each mark. */
  datatype Extremes = Extremes(marks: seq<int>, prices: seq<real>)

  /** Reference reading of a top at `j`: the curve rises (or stays) into
      `j + 1` and falls into `j + 2`. */
  predicate IsTop(sma: seq<real>, j: nat)
    requires j + 2 < |sma|
  {
    sma[j + 1] >= sma[j] && sma[j + 2] < sma[j + 1]
  }

  /** Reference reading of a bottom at `j`: the curve falls into `j + 1` and
      rises (or stays) into `j + 2`. */
  predicate IsBottom(sma: seq<real>, j: nat)
    requires j + 2 < |sma|
  {
    sma[j + 1] < sma[j] && sma[j + 2] >= sma[j + 1]
  }

  /** The detection loop after iterations `i` in `2 .. n-1`, each of which
      decides about position `i - 2` only. */
  function DetectLoop(data: seq<Row>, sma: seq<real>, n: nat): (e: Extremes)
    requires WellFormed(data) && |sma| == |data| && n <= |data|
    ensures |e.marks| == |data| && |e.prices| == |data|
    ensures forall j :: 0 <= j < |data| ==> e.marks[j] == 0 || e.marks[j] == 1 || e.marks[j] == -1
    ensures forall j :: 0 <= j < |data| && j + 2 >= n ==> e.marks[j] == 0 && e.prices[j] == 0.0
    decreases n
  {
    if n <= 2 then Extremes(Zeros(|data|, 0), Zeros(|data|, 0.0))
    else
      var e := DetectLoop(data, sma, n - 1);
      var i := n - 1;
      var inTop := sma[i] - sma[i - 1] < 0.0;
      var inBot := sma[i - 1] - sma[i - 2] < 0.0;
      // a turn is a change of the "falling" flag between the two slopes
      var isTurn := if inTop then !inBot else inBot;
      var isBot := isTurn && inBot;
      var isTop := isTurn && inTop;
      var j := i - 2;
      var high := Max(data[j][OpenField], data[j][CloseField]);
      var low := Min(data[j][OpenField], data[j][CloseField]);
      if isTop then Extremes(e.marks[j := 1], e.prices[j := high])
      else if isBot then Extremes(e.marks[j := -1], e.prices[j := low])
      else e
  }

  /** No position is both a top and a bottom. */
  lemma TopBottomExclusive(sma: seq<real>, j: nat)
    requires j + 2 < |sma|
    ensures !(IsTop(sma, j) && IsBottom(sma, j))
  {
  }

  lemma {:induction false} DetectLoopAt(data: seq<Row>, sma: seq<real>, n: nat, j: nat)
    requires WellFormed(data) && |sma| == |data| && n <= |data| && j < |data|
    ensures var e := DetectLoop(data, sma, n);
      && (e.marks[j] == 1 <==> j + 2 < n && IsTop(sma, j))
      && (e.marks[j] == -1 <==> j + 2 < n && IsBottom(sma, j))
      && (e.marks[j] == 0 || e.marks[j] == 1 || e.marks[j] == -1)
      && e.prices[j] == (if e.marks[j] == 1 then Max(data[j][OpenField], data[j][CloseField])
                         else if e.marks[j] == -1 then Min(data[j][OpenField], data[j][CloseField])
                         else 0.0)
    decreases n
  {
    if n > 2 {
      DetectLoopAt(data, sma, n - 1, j);
    }
  }

  /** Marks and extreme prices for the whole series. A mark is +1 exactly at
      the tops and -1 exactly at the bottoms of the smoothed curve, the last
      two positions are never marked, and the price is the bar's body high at
      a top, its body low at a bottom and 0 elsewhere. */
  function Detect(data: seq<Row>, sma: seq<real>): (e: Extremes)
    requires WellFormed(data) && |sma| == |data|
    ensures |e.marks| == |data| && |e.prices| == |data|
    ensures forall j :: 0 <= j < |data| ==>
      && (e.marks[j] == 1 <==> j + 2 < |data| && IsTop(sma, j))
      && (e.marks[j] == -1 <==> j + 2 < |data| && IsBottom(sma, j))
      && (e.marks[j] == 0 || e.marks[j] == 1 || e.marks[j] == -1)
      && e.prices[j] == (if e.marks[j] == 1 then Max(data[j][OpenField], data[j][CloseField])
                         else if e.marks[j] == -1 then Min(data[j][OpenField], data[j][CloseField])
                         else 0.0)
  {
    var e := DetectLoop(data, sma, |data|);
    assert forall j :: 0 <= j < |data| ==>
      && (e.marks[j] == 1 <==> j + 2 < |data| && IsTop(sma, j))
      && (e.marks[j] == -1 <==> j + 2 < |data| && IsBottom(sma, j))
      && (e.marks[j] == 0 || e.marks[j] == 1 || e.marks[j] == -1)
      && e.prices[j] == (if e.marks[j] == 1 then Max(data[j][OpenField], data[j][CloseField])
                         else if e.marks[j] == -1 then Min(data[j][OpenField], data[j][CloseField])
                         else 0.0)
    by {
      forall j | 0 <= j < |data| {
        DetectLoopAt(data, sma, |data|, j);
      }
    }
    e
  }

  /** Skipping zeros, the nonzero marks alternate: between two equal marks
      there is an opposite one. */
  predicate Alternating(m: seq<int>)
  {
    forall a, b :: 0 <= a < b < |m| && m[a] != 0 && m[a] == m[b] ==>
      exists c :: a < c < b && m[c] == -m[a]
  }

  /** The curve falls at `a` but not at `b > a`: somewhere between, a fall is
      followed by a non-fall, which is a bottom. */
  lemma {:induction false} FallingEdge(sma: seq<real>, a: nat, b: nat)
    requires a < b && b + 1 < |sma|
    requires sma[a + 1] < sma[a] && !(sma[b + 1] < sma[b])
    ensures exists c :: a <= c < b && IsBottom(sma, c)
    decreases b - a
  {
    if !(sma[a + 2] < sma[a + 1]) {
      assert IsBottom(sma, a);
    } else {
      FallingEdge(sma, a + 1, b);
    }
  }

  /** The curve does not fall at `a` but falls at `b > a`: somewhere between,
      a non-fall is followed by a fall, which is a top. */
  lemma {:induction false} RisingEdge(sma: seq<real>, a: nat, b: nat)
    requires a < b && b + 1 < |sma|
    requires !(sma[a + 1] < sma[a]) && sma[b + 1] < sma[b]
    ensures exists c :: a <= c < b && IsTop(sma, c)
    decreases b - a
  {
    if sma[a + 2] < sma[a + 1] {
      assert IsTop(sma, a);
    } else {
      RisingEdge(sma, a + 1, b);
    }
  }

  /** Tops and bottoms strictly alternate along the series. */
  lemma MarksAlternate(data: seq<Row>, sma: seq<real>)
    requires WellFormed(data) && |sma| == |data|
    ensures Alternating(Detect(data, sma).marks)
  {
    var m := Detect(data, sma).marks;
    forall a, b | 0 <= a < b < |m| && m[a] != 0 && m[a] == m[b]
      ensures exists c :: a < c < b && m[c] == -m[a]
    {
      if m[a] == 1 {
        // a rises then falls at a + 1; b does not fall at b
        BottomBetweenTops(sma, a, b);
        var c :| a < c < b && IsBottom(sma, c);
        assert m[c] == -1;
      } else {
        TopBetweenBottoms(sma, a, b);
        var c :| a < c < b && IsTop(sma, c);
        assert m[c] == 1;
      }
    }
  }

  lemma BottomBetweenTops(sma: seq<real>, a: nat, b: nat)
    requires a < b && b + 2 < |sma| && IsTop(sma, a) && IsTop(sma, b)
    ensures exists c :: a < c < b && IsBottom(sma, c)
  {
    FallingEdge(sma, a + 1, b);
  }

  lemma TopBetweenBottoms(sma: seq<real>, a: nat, b: nat)
    requires a < b && b + 2 < |sma| && IsBottom(sma, a) && IsBottom(sma, b)
    ensures exists c :: a < c < b && IsTop(sma, c)
  {
    RisingEdge(sma, a + 1, b);
  }
}
