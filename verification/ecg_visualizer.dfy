/** The ECG strip chart: samples become an SVG polyline over a fixed grid
    with a dashed baseline at amplitude zero. The canvas size, padding and
    grid line counts are parameters; the component's own values are the
    constants `Strip`, `HorizontalLines` and `VerticalLines`. */
module EcgVisualizer {
  import opened Common
  import opened Chart

  /** The component's 800 by 200 canvas with padding 20. */
  const Strip: Viewport := Viewport(800.0, 200.0, 20.0)
  const HorizontalLines: nat := 6
  const VerticalLines: nat := 20

  /** The simulated trace (P wave, QRS complex, T wave) drawn when the
      component receives no data. */
  const DefaultSamples: seq<real> := [
    0.0, 0.1, 0.2, 0.3, 0.2, 0.1, 0.0, -0.1,
    -0.2, 0.0, 0.5, 1.0, -0.5, -0.2, 0.0,
    0.2, 0.4, 0.3, 0.2, 0.1, 0.0
  ]

  /** `data || default`: a missing `data` prop selects the simulated trace;
      any array, the empty one included, is truthy and is used as given. */
  function SimulatedData(data: Option<seq<real>>): (s: seq<real>)
    ensures data.Some? ==> s == data.value
    ensures data.None? ==> s == DefaultSamples
  {
    match data
    case Some(d) => d
    case None => DefaultSamples
  }

  function Abs(x: real): real
  {
    if x < 0.0 then -x else x
  }

  /** `Math.max(...s.map(Math.abs))` for a non-empty `s`. */
  function MaxAbs(s: seq<real>): (m: real)
    requires |s| > 0
    ensures forall i :: 0 <= i < |s| ==> Abs(s[i]) <= m
    ensures exists i :: 0 <= i < |s| && Abs(s[i]) == m
    decreases |s|
  {
    if |s| == 1 then Abs(s[0])
    else
      var rest := MaxAbs(s[1..]);
      assert forall i :: 1 <= i < |s| ==> s[i] == s[1..][i - 1];
      if Abs(s[0]) >= rest then Abs(s[0]) else rest
  }

  /** The vertical scale `maxValue`: 1.2 times the largest absolute
      sample. It is zero exactly when every sample is zero. */
  function MaxValue(s: seq<real>): (m: real)
    requires |s| > 0
    ensures forall i :: 0 <= i < |s| ==> 1.2 * Abs(s[i]) <= m
    ensures exists i :: 0 <= i < |s| && 1.2 * Abs(s[i]) == m
    ensures m == 0.0 <==> forall i :: 0 <= i < |s| ==> s[i] == 0.0
  {
    MaxAbs(s) * 1.2
  }

  /** x of sample `i` of `n`: `padding + i * xStep` with
      `xStep = (width - 2 * padding) / (n - 1)`, so the first sample sits
      on the left edge of the padded box and the last on its right edge. */
  function StripX(vp: Viewport, i: nat, n: nat): (x: real)
    requires n >= 2
    ensures i == 0 ==> x == vp.padding
    ensures i == n - 1 ==> x == vp.width - vp.padding
  {
    var span, d := vp.width - 2.0 * vp.padding, (n - 1) as real;
    DivideCancel(span, d);
    assert d * (span / d) == (span / d) * d;
    vp.padding + (i as real) * (span / d)
  }

  /** y of a sample of value `v`: inverted and scaled about the mid-line,
      so zero sits at half the height. */
  function StripY(vp: Viewport, v: real, maxValue: real): (y: real)
    requires maxValue != 0.0
    ensures v == 0.0 ==> y == vp.height / 2.0
  {
    vp.height / 2.0 - (v / maxValue) * (vp.height / 2.0 - vp.padding)
  }

  /** `generatePath`: one command per sample, in sample order. A single
      sample gets x = NaN (`0 * Infinity`) and an all-zero trace gets
      y = NaN (`0 / 0`), as in the JavaScript arithmetic. */
  function GeneratePath(vp: Viewport, s: seq<real>): (path: seq<Command>)
    ensures |path| == |s|
    ensures MoveThenLines(path)
  {
    var n := |s|;
    var maxValue := if n > 0 then MaxValue(s) else 0.0;
    seq(n, i requires 0 <= i < n =>
      Command(if i == 0 then M else L,
              if n >= 2 then Num(StripX(vp, i, n)) else NaN,
              if maxValue != 0.0 then Num(StripY(vp, s[i], maxValue)) else NaN))
  }

  /** The sample x positions are the evenly spaced positions of n - 1
      intervals across the padded width. */
  lemma StripXEvenly(vp: Viewport, i: nat, n: nat)
    requires n >= 2
    ensures StripX(vp, i, n) == Evenly(vp.padding, vp.width - 2.0 * vp.padding, i, n - 1)
  {
    var span := vp.width - 2.0 * vp.padding;
    var d := (n - 1) as real;
    assert (i as real) * (span / d) == (i as real) * span / d;
  }

  /** With at least two samples the x coordinates are the evenly spaced
      positions of n - 1 intervals: they run from `padding` to
      `width - padding` and strictly increase with the sample index. */
  lemma PathX(vp: Viewport, s: seq<real>)
    requires vp.Valid() && |s| >= 2
    ensures var path := GeneratePath(vp, s);
      (forall i :: 0 <= i < |s| ==>
        path[i].x == Num(Evenly(vp.padding, vp.width - 2.0 * vp.padding, i, |s| - 1))) &&
      path[0].x == Num(vp.padding) &&
      path[|s| - 1].x == Num(vp.width - vp.padding) &&
      (forall i, j :: 0 <= i < j < |s| ==> path[i].x.value < path[j].x.value)
  {
    var path := GeneratePath(vp, s);
    var n := |s|;
    var span := vp.width - 2.0 * vp.padding;
    forall i | 0 <= i < n
      ensures path[i].x == Num(Evenly(vp.padding, span, i, n - 1))
    {
      StripXEvenly(vp, i, n);
    }
    EvenlySpaced(vp.padding, span, 0, n - 1);
    forall i, j | 0 <= i < j < n
      ensures path[i].x.value < path[j].x.value
    {
      EvenlyIncreasing(vp.padding, span, i, j, n - 1);
    }
  }

  /** A sample no larger in magnitude than `maxValue / 1.2` lands strictly
      inside the padded box. */
  lemma StripYWithin(vp: Viewport, v: real, maxValue: real)
    requires vp.Valid() && maxValue > 0.0 && 1.2 * Abs(v) <= maxValue
    ensures vp.padding < StripY(vp, v, maxValue) < vp.height - vp.padding
  {
    var half := vp.height / 2.0 - vp.padding;
    var q := v / maxValue;
    assert half > 0.0;
    assert q * maxValue == v;
    assert -1.0 < q < 1.0 by {
      if q >= 1.0 {
        assert false;
      } else if q <= -1.0 {
        assert false;
      }
    }
    assert -half < q * half < half by {
      if q >= 0.0 {
        assert q * half <= half - (1.0 - q) * half;
      } else {
        assert -q * half < half;
      }
    }
  }

  /** A larger sample is drawn strictly higher (smaller y). */
  lemma StripYDecreasing(vp: Viewport, v1: real, v2: real, maxValue: real)
    requires vp.Valid() && maxValue > 0.0 && v1 < v2
    ensures StripY(vp, v2, maxValue) < StripY(vp, v1, maxValue)
  {
    ScaledIncreasing(v1, v2, maxValue, vp.height / 2.0 - vp.padding);
    StripYForm(vp, v1, maxValue);
    StripYForm(vp, v2, maxValue);
  }

  /** `StripY` is the mid-line less the scaled sample. */
  lemma StripYForm(vp: Viewport, v: real, maxValue: real)
    requires maxValue != 0.0
    ensures StripY(vp, v, maxValue) == vp.height / 2.0 - (v / maxValue) * (vp.height / 2.0 - vp.padding)
  {
  }

  /** With some non-zero sample every y is a number strictly inside the
      padded box, the order of the samples is reversed in y, and a zero
      sample sits at the mid-line `height / 2`. */
  lemma PathY(vp: Viewport, s: seq<real>)
    requires vp.Valid() && exists k :: 0 <= k < |s| && s[k] != 0.0
    ensures var path := GeneratePath(vp, s);
      (forall i :: 0 <= i < |s| ==>
        path[i].y.Num? && vp.padding < path[i].y.value < vp.height - vp.padding) &&
      (forall i, j :: 0 <= i < |s| && 0 <= j < |s| && s[i] < s[j] ==>
        path[j].y.value < path[i].y.value) &&
      (forall i :: 0 <= i < |s| && s[i] == 0.0 ==> path[i].y == Num(vp.height / 2.0))
  {
    var path := GeneratePath(vp, s);
    var m := MaxValue(s);
    assert m > 0.0;
    forall i | 0 <= i < |s|
      ensures path[i].y.Num? && vp.padding < path[i].y.value < vp.height - vp.padding
    {
      StripYWithin(vp, s[i], m);
    }
    forall i, j | 0 <= i < |s| && 0 <= j < |s| && s[i] < s[j]
      ensures path[j].y.value < path[i].y.value
    {
      StripYDecreasing(vp, s[i], s[j], m);
    }
  }

  /** The dashed baseline: a horizontal line across the padded width at
      the height where a zero sample is drawn, whatever the scale. */
  function Baseline(vp: Viewport): (b: Segment)
    ensures b.y1 == b.y2
    ensures b.x1 == vp.padding && b.x2 == vp.width - vp.padding
    ensures forall maxValue: real :: maxValue != 0.0 ==> StripY(vp, 0.0, maxValue) == b.y1
  {
    Segment(vp.padding, vp.height / 2.0, vp.width - vp.padding, vp.height / 2.0)
  }

  /** Horizontal grid line `i` of `n` intervals: keyed `h-i`, spanning
      the padded width at a height inside the padded box. */
  function HorizontalLine(vp: Viewport, n: nat, i: nat): (e: GridElement)
    requires n > 0
    ensures e.GridLine? && e.key == Key(Horizontal, i, false)
    ensures e.seg.y1 == e.seg.y2 && e.seg.x1 == vp.padding && e.seg.x2 == vp.width - vp.padding
    ensures vp.Valid() && i <= n ==> vp.padding <= e.seg.y1 <= vp.height - vp.padding
  {
    var y := Evenly(vp.padding, vp.height - 2.0 * vp.padding, i, n);
    EvenlyWithin(vp.padding, vp.height - 2.0 * vp.padding, i, n);
    GridLine(Key(Horizontal, i, false), Segment(vp.padding, y, vp.width - vp.padding, y))
  }

  /** Vertical grid line `i` of `n` intervals: keyed `v-i`, spanning the
      padded height at an x inside the padded box. */
  function VerticalLine(vp: Viewport, n: nat, i: nat): (e: GridElement)
    requires n > 0
    ensures e.GridLine? && e.key == Key(Vertical, i, false)
    ensures e.seg.x1 == e.seg.x2 && e.seg.y1 == vp.padding && e.seg.y2 == vp.height - vp.padding
    ensures vp.Valid() && i <= n ==> vp.padding <= e.seg.x1 <= vp.width - vp.padding
  {
    var x := Evenly(vp.padding, vp.width - 2.0 * vp.padding, i, n);
    EvenlyWithin(vp.padding, vp.width - 2.0 * vp.padding, i, n);
    GridLine(Key(Vertical, i, false), Segment(x, vp.padding, x, vp.height - vp.padding))
  }

  /** The grid the component draws: `h + 1` horizontal lines `h-0 .. h-n`
      top to bottom, then `v + 1` vertical lines `v-0 .. v-m` left to
      right. */
  function Grid(vp: Viewport, h: nat, v: nat): (g: seq<GridElement>)
    requires h > 0 && v > 0
    ensures |g| == (h + 1) + (v + 1)
    ensures forall k :: 0 <= k < |g| ==> g[k].GridLine?
    ensures forall k :: 0 <= k <= h ==> g[k].key == Key(Horizontal, k, false)
    ensures forall k :: h < k < |g| ==> g[k].key == Key(Vertical, k - h - 1, false)
  {
    seq(h + 1, i requires 0 <= i <= h => HorizontalLine(vp, h, i)) +
    seq(v + 1, i requires 0 <= i <= v => VerticalLine(vp, v, i))
  }

  /** No two grid lines share a React key. */
  lemma GridKeysDistinct(vp: Viewport, h: nat, v: nat)
    requires h > 0 && v > 0
    ensures var g := Grid(vp, h, v);
      forall k1, k2 :: 0 <= k1 < k2 < |g| ==> g[k1].key != g[k2].key
  {
    var g := Grid(vp, h, v);
    forall k1, k2 | 0 <= k1 < k2 < |g|
      ensures g[k1].key != g[k2].key
    {
      if k2 <= h {
        assert g[k1].key.index == k1;
      } else if h < k1 {
        assert g[k1].key.index == k1 - h - 1;
      } else {
        assert g[k1].key.orientation == Horizontal != g[k2].key.orientation;
      }
    }
  }

  /** `generateGrid`: two counting loops pushing line elements. */
  method GenerateGrid(vp: Viewport, horizontalLines: nat, verticalLines: nat)
    returns (gridLines: seq<GridElement>)
    requires horizontalLines > 0 && verticalLines > 0
    ensures gridLines == Grid(vp, horizontalLines, verticalLines)
  {
    gridLines := [];
    var i := 0;
    while i <= horizontalLines
      invariant 0 <= i <= horizontalLines + 1
      invariant |gridLines| == i
      invariant forall k :: 0 <= k < i ==> gridLines[k] == HorizontalLine(vp, horizontalLines, k)
    {
      var y := Evenly(vp.padding, vp.height - 2.0 * vp.padding, i, horizontalLines);
      gridLines := gridLines + [GridLine(Key(Horizontal, i, false), Segment(vp.padding, y, vp.width - vp.padding, y))];
      i := i + 1;
    }
    ghost var hs := gridLines;
    ghost var vs: seq<GridElement> := [];
    i := 0;
    while i <= verticalLines
      invariant 0 <= i <= verticalLines + 1
      invariant gridLines == hs + vs
      invariant |vs| == i
      invariant forall k :: 0 <= k < i ==> vs[k] == VerticalLine(vp, verticalLines, k)
    {
      var x := Evenly(vp.padding, vp.width - 2.0 * vp.padding, i, verticalLines);
      var line := GridLine(Key(Vertical, i, false), Segment(x, vp.padding, x, vp.height - vp.padding));
      gridLines := gridLines + [line];
      vs := vs + [line];
      i := i + 1;
    }
    assert hs == seq(horizontalLines + 1, k requires 0 <= k <= horizontalLines => HorizontalLine(vp, horizontalLines, k));
    assert vs == seq(verticalLines + 1, k requires 0 <= k <= verticalLines => VerticalLine(vp, verticalLines, k));
  }

  /** The grid covers exactly the padded box: horizontal lines run from
      `padding` to `width - padding` at strictly increasing y from `padding`
      to `height - padding`, and vertical lines likewise across the width. */
  lemma GridCoversBox(vp: Viewport, h: nat, v: nat, i: nat, j: nat)
    requires vp.Valid() && h > 0 && v > 0 && i < h && j < v
    ensures HorizontalLine(vp, h, 0).seg.y1 == vp.padding
    ensures HorizontalLine(vp, h, h).seg.y1 == vp.height - vp.padding
    ensures HorizontalLine(vp, h, i).seg.y1 < HorizontalLine(vp, h, i + 1).seg.y1
    ensures HorizontalLine(vp, h, i).seg.x1 == vp.padding
    ensures HorizontalLine(vp, h, i).seg.x2 == vp.width - vp.padding
    ensures VerticalLine(vp, v, 0).seg.x1 == vp.padding
    ensures VerticalLine(vp, v, v).seg.x1 == vp.width - vp.padding
    ensures VerticalLine(vp, v, j).seg.x1 < VerticalLine(vp, v, j + 1).seg.x1
    ensures VerticalLine(vp, v, j).seg.y1 == vp.padding
    ensures VerticalLine(vp, v, j).seg.y2 == vp.height - vp.padding
  {
    EvenlySpaced(vp.padding, vp.height - 2.0 * vp.padding, i, h);
    EvenlySpaced(vp.padding, vp.width - 2.0 * vp.padding, j, v);
  }

  /** The baseline is where a zero sample is drawn, and with an even number
      of horizontal intervals it lies on the middle grid line. */
  lemma BaselineAtZero(vp: Viewport, h: nat, maxValue: real)
    requires h > 0 && h % 2 == 0 && maxValue != 0.0
    ensures StripY(vp, 0.0, maxValue) == Baseline(vp).y1 == Baseline(vp).y2
    ensures HorizontalLine(vp, h, h / 2).seg == Baseline(vp)
  {
    var span := vp.height - 2.0 * vp.padding;
    EvenlyHalfway(vp.padding, span, h);
    assert HorizontalLine(vp, h, h / 2).seg.y1 == Evenly(vp.padding, span, h / 2, h);
    assert vp.padding + span / 2.0 == vp.height / 2.0;
  }

  /** The simulated trace has 21 samples, starts at 0 and peaks at 1.0 as
      its twelfth sample, so `maxValue` is 1.2. */
  lemma DefaultMaxValue()
    ensures var s := SimulatedData(None);
      |s| == 21 && s[0] == 0.0 && s[11] == 1.0 && MaxValue(s) == 1.2
  {
    var s := DefaultSamples;
    assert Abs(s[11]) == 1.0;
    forall i | 0 <= i < |s| ensures Abs(s[i]) <= 1.0 {
    }
  }

  /** The component's defaults: 21 commands from x = 20 to x = 780, the
      zero first sample on the baseline y = 100, and the peak sample 1.0
      at y = 100 - (1.0 / 1.2) * 80 = 100 / 3. */
  lemma DefaultStrip()
    ensures var path := GeneratePath(Strip, SimulatedData(None));
      |path| == 21 &&
      path[0] == Command(M, Num(20.0), Num(100.0)) &&
      path[20].x == Num(780.0) &&
      path[11] == Command(L, Num(438.0), Num(100.0 / 3.0))
  {
    DefaultMaxValue();
    StripCheckpoints(SimulatedData(None));
  }

  /** Any 21-sample trace starting at 0 whose twelfth sample 1.0 is its
      peak lands where the default strip does. */
  lemma StripCheckpoints(s: seq<real>)
    requires |s| == 21 && s[0] == 0.0 && s[11] == 1.0 && MaxValue(s) == 1.2
    ensures var path := GeneratePath(Strip, s);
      |path| == 21 &&
      path[0] == Command(M, Num(20.0), Num(100.0)) &&
      path[20].x == Num(780.0) &&
      path[11] == Command(L, Num(438.0), Num(100.0 / 3.0))
  {
    PathAt(Strip, s, 0);
    PathAt(Strip, s, 11);
    PathAt(Strip, s, 20);
    StripPoints();
  }

  /** The canvas positions the default strip's checkpoints land on. */
  lemma StripPoints()
    ensures StripX(Strip, 0, 21) == 20.0 && StripX(Strip, 20, 21) == 780.0 && StripX(Strip, 11, 21) == 438.0
    ensures StripY(Strip, 0.0, 1.2) == 100.0 && StripY(Strip, 1.0, 1.2) == 100.0 / 3.0
  {
  }

  /** Command `i` of a trace of two or more samples that are not all zero.
      An unfolding step for the concrete traces below, not a property of
      its own: it spells out `GeneratePath` at one index. */
  lemma PathAt(vp: Viewport, s: seq<real>, i: nat)
    requires |s| >= 2 && i < |s| && MaxValue(s) != 0.0
    ensures GeneratePath(vp, s)[i] ==
      Command(if i == 0 then M else L, Num(StripX(vp, i, |s|)), Num(StripY(vp, s[i], MaxValue(s))))
  {
  }

  /** A four-sample trace [0, 1.0, -0.5, 0] on the component's canvas:
      first point (20, 100), the 1.0 sample at y = 100 / 3 and the -0.5
      sample below the baseline. */
  lemma ShortTrace()
    ensures var path := GeneratePath(Strip, [0.0, 1.0, -0.5, 0.0]);
      path[0] == Command(M, Num(20.0), Num(100.0)) &&
      path[1].y == Num(100.0 / 3.0) &&
      path[2].y == Num(100.0 + 100.0 / 3.0) &&
      path[3] == Command(L, Num(780.0), Num(100.0))
  {
    var s: seq<real> := [0.0, 1.0, -0.5, 0.0];
    assert Abs(s[1]) == 1.0;
    assert MaxValue(s) == 1.2;
  }

  /** The degenerate traces, on any canvas: x is NaN exactly for a
      single sample, its step being `0 * Infinity`, and y is NaN on every
      sample exactly when the trace is all zeros, `0 / 0`. */
  lemma NaNEdges(vp: Viewport, s: seq<real>)
    ensures var path := GeneratePath(vp, s);
      forall i :: 0 <= i < |s| ==> (path[i].x == NaN <==> |s| == 1)
    ensures var path := GeneratePath(vp, s);
      (forall i :: 0 <= i < |s| ==> s[i] == 0.0) <==> (forall i :: 0 <= i < |s| ==> path[i].y == NaN)
  {
    var path := GeneratePath(vp, s);
    if |s| > 0 && forall i :: 0 <= i < |s| ==> path[i].y == NaN {
      assert path[0].y == NaN;
    }
  }

  /** Two instances on the component's canvas: `[0.5]` is drawn at
      x = NaN, y = 100 / 3, and `[0, 0]` at y = NaN on both samples. */
  lemma NaNTraces()
    ensures GeneratePath(Strip, [0.5]) == [Command(M, NaN, Num(100.0 / 3.0))]
    ensures GeneratePath(Strip, [0.0, 0.0]) == [Command(M, Num(20.0), NaN), Command(L, Num(780.0), NaN)]
  {
    var one: seq<real> := [0.5];
    assert MaxValue(one) == 0.6;
    var zeros: seq<real> := [0.0, 0.0];
    assert MaxValue(zeros) == 0.0;
  }

  /** The component's grid: 7 horizontal lines, then 21 vertical ones. */
  method StripGrid() returns (gridLines: seq<GridElement>)
    ensures |gridLines| == 28
    ensures forall k :: 0 <= k < 28 ==> (gridLines[k].key.orientation == Horizontal <==> k < 7)
    ensures gridLines[0] == GridLine(Key(Horizontal, 0, false), Segment(20.0, 20.0, 780.0, 20.0))
    ensures gridLines[3] == GridLine(Key(Horizontal, 3, false), Baseline(Strip))
    ensures gridLines[6] == GridLine(Key(Horizontal, 6, false), Segment(20.0, 180.0, 780.0, 180.0))
    ensures gridLines[27] == GridLine(Key(Vertical, 20, false), Segment(780.0, 20.0, 780.0, 180.0))
  {
    gridLines := GenerateGrid(Strip, HorizontalLines, VerticalLines);
    BaselineAtZero(Strip, HorizontalLines, 1.2);
    GridCoversBox(Strip, HorizontalLines, VerticalLines, 0, VerticalLines - 1);
  }
}
