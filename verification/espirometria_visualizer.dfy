/** The flow-volume chart of a spirometry: curve points (volume, flow)
    become an SVG polyline over a labelled grid with two axes, next to a
    table of measured values. The canvas and the axis maxima are
    parameters; the component's own values are `Loop`, `HorizontalLines`
    and `VerticalLines`. */
module EspirometriaVisualizer {
  import opened Common
  import opened Chart

  /** A canvas together with the fixed axis maxima (litres, litres per
      second) that the chart is read against. */
  datatype Scale = Scale(vp: Viewport, maxVolumen: real, maxFlujo: real)
  {
    predicate Valid()
    {
      vp.Valid() && maxVolumen > 0.0 && maxFlujo > 0.0
    }
  }

  /** The component's 600 by 400 canvas, padding 40, volume up to 6 L and
      flow up to 10 L/s. */
  const Loop: Scale := Scale(Viewport(600.0, 400.0, 40.0), 6.0, 10.0)
  const HorizontalLines: nat := 5
  const VerticalLines: nat := 6

  datatype Point = Point(volumen: real, flujo: real)

  /** The `data` prop: the curve and the measured values by name. */
  datatype Data = Data(curva: seq<Point>, valores: map<string, real>)

  const DefaultCurve: seq<Point> := [
    Point(0.0, 0.0), Point(0.5, 2.0), Point(1.0, 5.0), Point(1.5, 7.0),
    Point(2.0, 6.0), Point(2.5, 4.0), Point(3.0, 2.5), Point(3.5, 1.5),
    Point(4.0, 0.8), Point(4.5, 0.3), Point(5.0, 0.0)
  ]

  const DefaultValues: map<string, real> :=
    map["fvc" := 5.0, "fev1" := 4.2, "fev1_fvc" := 84.0, "pef" := 7.5, "fef2575" := 4.8]

  /** `data || default`: a missing `data` prop selects the simulated curve
      and values; a given object is used as it is. */
  function SimulatedData(data: Option<Data>): (d: Data)
    ensures data.Some? ==> d == data.value
    ensures data.None? ==> d == Data(DefaultCurve, DefaultValues)
  {
    match data
    case Some(given) => given
    case None => Data(DefaultCurve, DefaultValues)
  }

  /** `volumenToX`: volume scaled affinely onto the padded width. */
  function VolumenToX(sc: Scale, volumen: real): real
    requires sc.maxVolumen != 0.0
  {
    sc.vp.padding + (volumen / sc.maxVolumen) * (sc.vp.width - 2.0 * sc.vp.padding)
  }

  /** `flujoToY`: flow scaled affinely onto the padded height, inverted so
      that zero flow is at the bottom. */
  function FlujoToY(sc: Scale, flujo: real): real
    requires sc.maxFlujo != 0.0
  {
    sc.vp.height - sc.vp.padding - (flujo / sc.maxFlujo) * (sc.vp.height - 2.0 * sc.vp.padding)
  }

  /** Reading a volume off the chart: the inverse of `VolumenToX`. */
  function XToVolumen(sc: Scale, x: real): real
    requires sc.Valid()
  {
    (x - sc.vp.padding) / (sc.vp.width - 2.0 * sc.vp.padding) * sc.maxVolumen
  }

  /** Reading a flow off the chart: the inverse of `FlujoToY`. */
  function YToFlujo(sc: Scale, y: real): real
    requires sc.Valid()
  {
    (sc.vp.height - sc.vp.padding - y) / (sc.vp.height - 2.0 * sc.vp.padding) * sc.maxFlujo
  }

  /** More volume is drawn further right; more flow is drawn higher up. */
  lemma Monotone(sc: Scale, a: real, b: real)
    requires sc.Valid() && a < b
    ensures VolumenToX(sc, a) < VolumenToX(sc, b)
    ensures FlujoToY(sc, b) < FlujoToY(sc, a)
  {
    var w := sc.vp.width - 2.0 * sc.vp.padding;
    var h := sc.vp.height - 2.0 * sc.vp.padding;
    ScaledIncreasing(a, b, sc.maxVolumen, w);
    ScaledIncreasing(a, b, sc.maxFlujo, h);
  }

  /** The axis ranges map onto the padded box: volume 0 and the maximum to
      the left and right edges, flow 0 to the bottom and the maximum to
      the top. */
  lemma AxisEnds(sc: Scale)
    requires sc.Valid()
    ensures VolumenToX(sc, 0.0) == sc.vp.padding
    ensures VolumenToX(sc, sc.maxVolumen) == sc.vp.width - sc.vp.padding
    ensures FlujoToY(sc, 0.0) == sc.vp.height - sc.vp.padding
    ensures FlujoToY(sc, sc.maxFlujo) == sc.vp.padding
  {
  }

  /** Mapping a value onto the chart and reading it back gives the value,
      and the other way round: both maps are bijections. */
  lemma RoundTrip(sc: Scale, v: real, f: real, x: real, y: real)
    requires sc.Valid()
    ensures XToVolumen(sc, VolumenToX(sc, v)) == v
    ensures YToFlujo(sc, FlujoToY(sc, f)) == f
    ensures VolumenToX(sc, XToVolumen(sc, x)) == x
    ensures FlujoToY(sc, YToFlujo(sc, y)) == y
  {
    var w := sc.vp.width - 2.0 * sc.vp.padding;
    var h := sc.vp.height - 2.0 * sc.vp.padding;
    var a, b := v / sc.maxVolumen, f / sc.maxFlujo;
    assert VolumenToX(sc, v) - sc.vp.padding == a * w;
    ScaleCancel(a, w);
    DivideCancel(v, sc.maxVolumen);
    assert sc.vp.height - sc.vp.padding - FlujoToY(sc, f) == b * h;
    ScaleCancel(b, h);
    DivideCancel(f, sc.maxFlujo);
    var c, d := (x - sc.vp.padding) / w, (sc.vp.height - sc.vp.padding - y) / h;
    ScaleCancel(c, sc.maxVolumen);
    DivideCancel(x - sc.vp.padding, w);
    ScaleCancel(d, sc.maxFlujo);
    DivideCancel(sc.vp.height - sc.vp.padding - y, h);
  }

  /** A point within the axis ranges is drawn inside the padded box. */
  lemma InsideBox(sc: Scale, pt: Point)
    requires sc.Valid()
    requires 0.0 <= pt.volumen <= sc.maxVolumen && 0.0 <= pt.flujo <= sc.maxFlujo
    ensures sc.vp.padding <= VolumenToX(sc, pt.volumen) <= sc.vp.width - sc.vp.padding
    ensures sc.vp.padding <= FlujoToY(sc, pt.flujo) <= sc.vp.height - sc.vp.padding
  {
    var w := sc.vp.width - 2.0 * sc.vp.padding;
    var h := sc.vp.height - 2.0 * sc.vp.padding;
    var qv := pt.volumen / sc.maxVolumen;
    var qf := pt.flujo / sc.maxFlujo;
    assert 0.0 <= qv <= 1.0 && 0.0 <= qf <= 1.0;
    assert qv * w <= w && qf * h <= h;
  }

  /** The component's scale: volume 0 at x = 40 and 6 at x = 560, flow 0
      at y = 360 and 10 at y = 40; the point (3 L, 2.5 L/s) at (300, 280). */
  lemma LoopScale()
    ensures VolumenToX(Loop, 0.0) == 40.0 && VolumenToX(Loop, 6.0) == 560.0
    ensures FlujoToY(Loop, 0.0) == 360.0 && FlujoToY(Loop, 10.0) == 40.0
    ensures VolumenToX(Loop, 3.0) == 300.0 && FlujoToY(Loop, 2.5) == 280.0
  {
  }

  /** `generatePath`: one command per curve point, in curve order. */
  function GeneratePath(sc: Scale, curva: seq<Point>): (path: seq<Command>)
    requires sc.maxVolumen != 0.0 && sc.maxFlujo != 0.0
    ensures |path| == |curva|
    ensures MoveThenLines(path)
    ensures forall i :: 0 <= i < |path| ==> path[i].x.Num? && path[i].y.Num?
  {
    seq(|curva|, i requires 0 <= i < |curva| =>
      Command(if i == 0 then M else L,
              Num(VolumenToX(sc, curva[i].volumen)),
              Num(FlujoToY(sc, curva[i].flujo))))
  }

  /** The volumes of the curve never decrease. */
  predicate VolumeNonDecreasing(curva: seq<Point>)
  {
    forall i, j :: 0 <= i < j < |curva| ==> curva[i].volumen <= curva[j].volumen
  }

  /** The path loses nothing: every command reads back as its curve point.
      A curve whose volume never decreases gives a path whose x never
      decreases, and a curve within the axis ranges stays in the box. */
  lemma PathFollowsCurve(sc: Scale, curva: seq<Point>)
    requires sc.Valid()
    ensures var path := GeneratePath(sc, curva);
      (forall i :: 0 <= i < |curva| ==>
        Point(XToVolumen(sc, path[i].x.value), YToFlujo(sc, path[i].y.value)) == curva[i]) &&
      (VolumeNonDecreasing(curva) ==>
        forall i, j :: 0 <= i < j < |curva| ==> path[i].x.value <= path[j].x.value) &&
      ((forall i :: 0 <= i < |curva| ==>
          0.0 <= curva[i].volumen <= sc.maxVolumen && 0.0 <= curva[i].flujo <= sc.maxFlujo) ==>
        forall i :: 0 <= i < |curva| ==>
          sc.vp.padding <= path[i].x.value <= sc.vp.width - sc.vp.padding &&
          sc.vp.padding <= path[i].y.value <= sc.vp.height - sc.vp.padding)
  {
    var path := GeneratePath(sc, curva);
    forall i | 0 <= i < |curva|
      ensures Point(XToVolumen(sc, path[i].x.value), YToFlujo(sc, path[i].y.value)) == curva[i]
    {
      RoundTrip(sc, curva[i].volumen, curva[i].flujo, 0.0, 0.0);
    }
    if VolumeNonDecreasing(curva) {
      forall i, j | 0 <= i < j < |curva|
        ensures path[i].x.value <= path[j].x.value
      {
        if curva[i].volumen < curva[j].volumen {
          Monotone(sc, curva[i].volumen, curva[j].volumen);
        }
      }
    }
    if forall i :: 0 <= i < |curva| ==>
         0.0 <= curva[i].volumen <= sc.maxVolumen && 0.0 <= curva[i].flujo <= sc.maxFlujo {
      forall i | 0 <= i < |curva|
        ensures sc.vp.padding <= path[i].x.value <= sc.vp.width - sc.vp.padding
        ensures sc.vp.padding <= path[i].y.value <= sc.vp.height - sc.vp.padding
      {
        InsideBox(sc, curva[i]);
      }
    }
  }

  /** The simulated curve: 11 points, volume rising from 0 to 5 L without
      ever decreasing, flow within 0..7 L/s, so its path starts at the
      origin (40, 360), never moves left and stays inside the box. */
  lemma DefaultCurveShape()
    ensures |DefaultCurve| == 11
    ensures DefaultCurve[0].volumen == 0.0 && DefaultCurve[10].volumen == 5.0
    ensures VolumeNonDecreasing(DefaultCurve)
    ensures forall i :: 0 <= i < 11 ==>
      0.0 <= DefaultCurve[i].volumen <= 6.0 && 0.0 <= DefaultCurve[i].flujo <= 10.0
    ensures GeneratePath(Loop, DefaultCurve)[0] == Command(M, Num(40.0), Num(360.0))
  {
    forall i, j | 0 <= i < j < 11
      ensures DefaultCurve[i].volumen <= DefaultCurve[j].volumen
    {
      assert DefaultCurve[i].volumen == (i as real) * 0.5;
      assert DefaultCurve[j].volumen == (j as real) * 0.5;
    }
  }

  /** The simulated curve's path: 11 commands that never move left and
      stay inside the box [40, 560] x [40, 360]. */
  lemma DefaultPath()
    ensures var path := GeneratePath(Loop, DefaultCurve);
      |path| == 11 &&
      (forall i, j :: 0 <= i < j < 11 ==> path[i].x.value <= path[j].x.value) &&
      (forall i :: 0 <= i < 11 ==> 40.0 <= path[i].x.value <= 560.0 && 40.0 <= path[i].y.value <= 360.0)
  {
    DefaultCurveShape();
    PathFollowsCurve(Loop, DefaultCurve);
  }

  /** Horizontal grid line `i` of `n`: at the height of flow `(i / n) * maxFlujo`. */
  function HorizontalFlujo(sc: Scale, n: nat, i: nat): real
    requires n > 0
  {
    ((i as real) / (n as real)) * sc.maxFlujo
  }

  /** Vertical grid line `i` of `n`: at the position of volume `(i / n) * maxVolumen`. */
  function VerticalVolumen(sc: Scale, n: nat, i: nat): real
    requires n > 0
  {
    ((i as real) / (n as real)) * sc.maxVolumen
  }

  /** Element `k` of the horizontal block: line `k / 2` when `k` is even,
      its flow label (left of the axis) when `k` is odd. The line spans
      the padded width; the label sits at the height of the flow it shows. */
  function HorizontalElement(sc: Scale, n: nat, k: nat): (e: GridElement)
    requires n > 0 && sc.maxFlujo != 0.0
    ensures e.key == Key(Horizontal, k / 2, k % 2 == 1)
    ensures e.GridLine? <==> k % 2 == 0
    ensures e.GridLine? ==>
      e.seg.y1 == e.seg.y2 && e.seg.x1 == sc.vp.padding && e.seg.x2 == sc.vp.width - sc.vp.padding
    ensures e.Label? ==> e.x == sc.vp.padding - 10.0 && e.y == FlujoToY(sc, e.value)
  {
    var i := k / 2;
    var flujo := HorizontalFlujo(sc, n, i);
    var y := FlujoToY(sc, flujo);
    if k % 2 == 0 then GridLine(Key(Horizontal, i, false), Segment(sc.vp.padding, y, sc.vp.width - sc.vp.padding, y))
    else Label(Key(Horizontal, i, true), sc.vp.padding - 10.0, y, flujo)
  }

  /** Element `k` of the vertical block: line `k / 2` when `k` is even,
      its volume label (below the axis) when `k` is odd. The line spans
      the padded height; the label sits at the position of the volume it
      shows. */
  function VerticalElement(sc: Scale, n: nat, k: nat): (e: GridElement)
    requires n > 0 && sc.maxVolumen != 0.0
    ensures e.key == Key(Vertical, k / 2, k % 2 == 1)
    ensures e.GridLine? <==> k % 2 == 0
    ensures e.GridLine? ==>
      e.seg.x1 == e.seg.x2 && e.seg.y1 == sc.vp.padding && e.seg.y2 == sc.vp.height - sc.vp.padding
    ensures e.Label? ==> e.x == VolumenToX(sc, e.value) && e.y == sc.vp.height - sc.vp.padding + 20.0
  {
    var i := k / 2;
    var volumen := VerticalVolumen(sc, n, i);
    var x := VolumenToX(sc, volumen);
    if k % 2 == 0 then GridLine(Key(Vertical, i, false), Segment(x, sc.vp.padding, x, sc.vp.height - sc.vp.padding))
    else Label(Key(Vertical, i, true), x, sc.vp.height - sc.vp.padding + 20.0, volumen)
  }

  /** The labelled grid: every horizontal line followed by its label, then
      every vertical line followed by its label. */
  function Grid(sc: Scale, h: nat, v: nat): (g: seq<GridElement>)
    requires h > 0 && v > 0 && sc.maxVolumen != 0.0 && sc.maxFlujo != 0.0
    ensures |g| == 2 * (h + 1) + 2 * (v + 1)
    ensures forall k :: 0 <= k < |g| ==> (g[k].GridLine? <==> k % 2 == 0)
    ensures forall k :: 0 <= k < 2 * (h + 1) ==> g[k].key == Key(Horizontal, k / 2, k % 2 == 1)
    ensures forall k :: 2 * (h + 1) <= k < |g| ==> g[k].key == Key(Vertical, (k - 2 * (h + 1)) / 2, k % 2 == 1)
  {
    seq(2 * (h + 1), k requires 0 <= k < 2 * (h + 1) => HorizontalElement(sc, h, k)) +
    seq(2 * (v + 1), k requires 0 <= k < 2 * (v + 1) => VerticalElement(sc, v, k))
  }

  /** No two elements of the labelled grid share a React key: a line and
      its label differ in the `text` part, and lines of one block differ in
      their index. */
  lemma GridKeysDistinct(sc: Scale, h: nat, v: nat)
    requires h > 0 && v > 0 && sc.maxVolumen != 0.0 && sc.maxFlujo != 0.0
    ensures var g := Grid(sc, h, v);
      forall k1, k2 :: 0 <= k1 < k2 < |g| ==> g[k1].key != g[k2].key
  {
    BlockKeysDistinct(Grid(sc, h, v), 2 * (h + 1));
  }

  /** Keys laid out as in `Grid`, pairs of a line and a label keyed by
      the pair's index, horizontal up to `b` and vertical from there, are
      pairwise distinct. */
  lemma BlockKeysDistinct(g: seq<GridElement>, b: nat)
    requires b % 2 == 0
    requires forall k :: 0 <= k < b && k < |g| ==> g[k].key == Key(Horizontal, k / 2, k % 2 == 1)
    requires forall k :: b <= k < |g| ==> g[k].key == Key(Vertical, (k - b) / 2, k % 2 == 1)
    ensures forall k1, k2 :: 0 <= k1 < k2 < |g| ==> g[k1].key != g[k2].key
  {
    forall k1, k2 | 0 <= k1 < k2 < |g|
      ensures g[k1].key != g[k2].key
    {
      if k2 < b {
        assert g[k1].key.index != g[k2].key.index || g[k1].key.text != g[k2].key.text;
      } else if b <= k1 {
        assert (k1 - b) % 2 == k1 % 2 && (k2 - b) % 2 == k2 % 2;
      } else {
        assert g[k1].key.orientation == Horizontal != g[k2].key.orientation;
      }
    }
  }

  /** Elements `2i` and `2i + 1` of the horizontal block: line `i` and
      its label. */
  lemma HorizontalPair(sc: Scale, n: nat, i: nat)
    requires n > 0 && sc.maxFlujo != 0.0
    ensures var flujo := HorizontalFlujo(sc, n, i);
      var y := FlujoToY(sc, flujo);
      HorizontalElement(sc, n, 2 * i) ==
        GridLine(Key(Horizontal, i, false), Segment(sc.vp.padding, y, sc.vp.width - sc.vp.padding, y)) &&
      HorizontalElement(sc, n, 2 * i + 1) == Label(Key(Horizontal, i, true), sc.vp.padding - 10.0, y, flujo)
  {
    assert (2 * i) / 2 == i && (2 * i) % 2 == 0;
    assert (2 * i + 1) / 2 == i && (2 * i + 1) % 2 == 1;
  }

  /** Elements `2i` and `2i + 1` of the vertical block: line `i` and its
      label. */
  lemma VerticalPair(sc: Scale, n: nat, i: nat)
    requires n > 0 && sc.maxVolumen != 0.0
    ensures var volumen := VerticalVolumen(sc, n, i);
      var x := VolumenToX(sc, volumen);
      VerticalElement(sc, n, 2 * i) ==
        GridLine(Key(Vertical, i, false), Segment(x, sc.vp.padding, x, sc.vp.height - sc.vp.padding)) &&
      VerticalElement(sc, n, 2 * i + 1) == Label(Key(Vertical, i, true), x, sc.vp.height - sc.vp.padding + 20.0, volumen)
  {
    assert (2 * i) / 2 == i && (2 * i) % 2 == 0;
    assert (2 * i + 1) / 2 == i && (2 * i + 1) % 2 == 1;
  }

  /** `generateGrid`: two counting loops, each pushing a line and then its
      label. */
  method GenerateGrid(sc: Scale, horizontalLines: nat, verticalLines: nat)
    returns (gridLines: seq<GridElement>)
    requires horizontalLines > 0 && verticalLines > 0
    requires sc.maxVolumen != 0.0 && sc.maxFlujo != 0.0
    ensures gridLines == Grid(sc, horizontalLines, verticalLines)
  {
    gridLines := [];
    var i := 0;
    while i <= horizontalLines
      invariant 0 <= i <= horizontalLines + 1
      invariant |gridLines| == 2 * i
      invariant forall k :: 0 <= k < 2 * i ==> gridLines[k] == HorizontalElement(sc, horizontalLines, k)
    {
      var flujo := HorizontalFlujo(sc, horizontalLines, i);
      var y := FlujoToY(sc, flujo);
      HorizontalPair(sc, horizontalLines, i);
      gridLines := gridLines + [GridLine(Key(Horizontal, i, false), Segment(sc.vp.padding, y, sc.vp.width - sc.vp.padding, y))];
      gridLines := gridLines + [Label(Key(Horizontal, i, true), sc.vp.padding - 10.0, y, flujo)];
      i := i + 1;
    }
    ghost var hs := gridLines;
    ghost var vs: seq<GridElement> := [];
    i := 0;
    while i <= verticalLines
      invariant 0 <= i <= verticalLines + 1
      invariant gridLines == hs + vs
      invariant |vs| == 2 * i
      invariant forall k :: 0 <= k < 2 * i ==> vs[k] == VerticalElement(sc, verticalLines, k)
    {
      var volumen := VerticalVolumen(sc, verticalLines, i);
      var x := VolumenToX(sc, volumen);
      VerticalPair(sc, verticalLines, i);
      var line := GridLine(Key(Vertical, i, false), Segment(x, sc.vp.padding, x, sc.vp.height - sc.vp.padding));
      var text := Label(Key(Vertical, i, true), x, sc.vp.height - sc.vp.padding + 20.0, volumen);
      gridLines := gridLines + [line] + [text];
      vs := vs + [line] + [text];
      i := i + 1;
    }
    assert hs == seq(2 * (horizontalLines + 1), k requires 0 <= k < 2 * (horizontalLines + 1) =>
      HorizontalElement(sc, horizontalLines, k));
    assert vs == seq(2 * (verticalLines + 1), k requires 0 <= k < 2 * (verticalLines + 1) =>
      VerticalElement(sc, verticalLines, k));
  }

  /** The x axis: a horizontal line along the bottom of the box, at the
      height of zero flow, from volume 0 to the maximum volume. */
  function XAxis(sc: Scale): (axis: Segment)
    ensures axis.y1 == axis.y2
    ensures sc.maxFlujo != 0.0 ==> axis.y1 == FlujoToY(sc, 0.0)
    ensures sc.maxVolumen != 0.0 ==>
      axis.x1 == VolumenToX(sc, 0.0) && axis.x2 == VolumenToX(sc, sc.maxVolumen)
  {
    Segment(sc.vp.padding, sc.vp.height - sc.vp.padding, sc.vp.width - sc.vp.padding, sc.vp.height - sc.vp.padding)
  }

  /** The y axis: a vertical line up the left side of the box, at the
      position of zero volume, from flow 0 to the maximum flow. */
  function YAxis(sc: Scale): (axis: Segment)
    ensures axis.x1 == axis.x2
    ensures sc.maxVolumen != 0.0 ==> axis.x1 == VolumenToX(sc, 0.0)
    ensures sc.maxFlujo != 0.0 ==>
      axis.y1 == FlujoToY(sc, 0.0) && axis.y2 == FlujoToY(sc, sc.maxFlujo)
  {
    Segment(sc.vp.padding, sc.vp.height - sc.vp.padding, sc.vp.padding, sc.vp.padding)
  }

  /** Each flow label sits at its line and shows the flow that line
      stands for; the flow lines are evenly spaced from the x axis
      (`i = 0`) up to the top of the box and span the same width as the
      x axis. */
  lemma HorizontalGrid(sc: Scale, h: nat, i: nat)
    requires sc.Valid() && h > 0 && i <= h
    ensures var line := HorizontalElement(sc, h, 2 * i);
      var text := HorizontalElement(sc, h, 2 * i + 1);
      line.GridLine? && text.Label? &&
      line.key == Key(Horizontal, i, false) && text.key == Key(Horizontal, i, true) &&
      text.y == line.seg.y1 == line.seg.y2 == FlujoToY(sc, text.value) &&
      text.value == HorizontalFlujo(sc, h, i) &&
      line.seg.y1 == Evenly(sc.vp.height - sc.vp.padding, -(sc.vp.height - 2.0 * sc.vp.padding), i, h) &&
      line.seg.x1 == XAxis(sc).x1 && line.seg.x2 == XAxis(sc).x2
  {
    var hf := sc.vp.height - 2.0 * sc.vp.padding;
    var r := (i as real) / (h as real);
    HorizontalPair(sc, h, i);
    FlujoFraction(sc, r);
    var line := HorizontalElement(sc, h, 2 * i);
    var text := HorizontalElement(sc, h, 2 * i + 1);
    assert line.GridLine? && text.Label? && line.key == Key(Horizontal, i, false) && text.key == Key(Horizontal, i, true);
    assert text.value == HorizontalFlujo(sc, h, i);
    assert text.y == line.seg.y1 == line.seg.y2 == FlujoToY(sc, text.value);
    assert line.seg.x1 == XAxis(sc).x1 && line.seg.x2 == XAxis(sc).x2;
    assert FlujoToY(sc, HorizontalFlujo(sc, h, i)) == sc.vp.height - sc.vp.padding - r * hf;
    EvenlyBackwards(sc.vp.height - sc.vp.padding, hf, i, h);
  }

  /** The fraction `r` of the flow range lies the fraction `r` of the
      box's height above the x axis. */
  lemma FlujoFraction(sc: Scale, r: real)
    requires sc.maxFlujo != 0.0
    ensures FlujoToY(sc, r * sc.maxFlujo) == sc.vp.height - sc.vp.padding - r * (sc.vp.height - 2.0 * sc.vp.padding)
  {
    ScaleCancel(r, sc.maxFlujo);
  }

  /** Each volume label sits at its line and shows the volume that line
      stands for; the volume lines are evenly spaced from the y axis
      (`j = 0`) to the right edge of the box and span the same height as
      the y axis. */
  lemma VerticalGrid(sc: Scale, v: nat, j: nat)
    requires sc.Valid() && v > 0 && j <= v
    ensures var line := VerticalElement(sc, v, 2 * j);
      var text := VerticalElement(sc, v, 2 * j + 1);
      line.GridLine? && text.Label? &&
      line.key == Key(Vertical, j, false) && text.key == Key(Vertical, j, true) &&
      text.x == line.seg.x1 == line.seg.x2 == VolumenToX(sc, text.value) &&
      text.value == VerticalVolumen(sc, v, j) &&
      line.seg.x1 == Evenly(sc.vp.padding, sc.vp.width - 2.0 * sc.vp.padding, j, v) &&
      line.seg.y1 == YAxis(sc).y2 && line.seg.y2 == YAxis(sc).y1
  {
    var wf := sc.vp.width - 2.0 * sc.vp.padding;
    var r := (j as real) / (v as real);
    VerticalPair(sc, v, j);
    VolumenFraction(sc, r);
    FractionTimes(j, v, wf);
    var line := VerticalElement(sc, v, 2 * j);
    var text := VerticalElement(sc, v, 2 * j + 1);
    assert line.GridLine? && text.Label? && line.key == Key(Vertical, j, false) && text.key == Key(Vertical, j, true);
    assert text.value == VerticalVolumen(sc, v, j);
    assert text.x == line.seg.x1 == line.seg.x2 == VolumenToX(sc, text.value);
    assert line.seg.y1 == YAxis(sc).y2 && line.seg.y2 == YAxis(sc).y1;
    assert VolumenToX(sc, VerticalVolumen(sc, v, j)) == sc.vp.padding + r * wf;
    assert Evenly(sc.vp.padding, wf, j, v) == sc.vp.padding + r * wf;
  }

  /** The fraction `r` of the volume range lies the fraction `r` of the
      box's width right of the y axis. */
  lemma VolumenFraction(sc: Scale, r: real)
    requires sc.maxVolumen != 0.0
    ensures VolumenToX(sc, r * sc.maxVolumen) == sc.vp.padding + r * (sc.vp.width - 2.0 * sc.vp.padding)
  {
    ScaleCancel(r, sc.maxVolumen);
  }

  /** The first flow line is the x axis itself and the first volume line
      runs along the y axis; the last lines close the box at the top and
      the right. */
  lemma GridMeetsAxes(sc: Scale, h: nat, v: nat)
    requires sc.Valid() && h > 0 && v > 0
    ensures HorizontalElement(sc, h, 0).seg == XAxis(sc)
    ensures HorizontalElement(sc, h, 2 * h).seg.y1 == sc.vp.padding
    ensures VerticalElement(sc, v, 0).seg.x1 == YAxis(sc).x1 == YAxis(sc).x2
    ensures VerticalElement(sc, v, 2 * v).seg.x1 == sc.vp.width - sc.vp.padding
  {
    HorizontalGrid(sc, h, 0);
    HorizontalGrid(sc, h, h);
    VerticalGrid(sc, v, 0);
    VerticalGrid(sc, v, v);
    EvenlySpaced(sc.vp.height - sc.vp.padding, -(sc.vp.height - 2.0 * sc.vp.padding), 0, h);
    EvenlySpaced(sc.vp.padding, sc.vp.width - 2.0 * sc.vp.padding, 0, v);
  }

  /** The component's grid: 26 elements, six flow lines labelled
      0, 2, 4, 6, 8, 10 and seven volume lines labelled 0 .. 6. */
  method LoopGrid() returns (gridLines: seq<GridElement>)
    ensures |gridLines| == 26
    ensures forall i :: 0 <= i <= 5 ==>
      gridLines[2 * i].GridLine? && gridLines[2 * i + 1] == Label(Key(Horizontal, i, true), 30.0, gridLines[2 * i].seg.y1, 2.0 * (i as real))
    ensures forall j :: 0 <= j <= 6 ==>
      gridLines[12 + 2 * j].GridLine? && gridLines[12 + 2 * j + 1] == Label(Key(Vertical, j, true), gridLines[12 + 2 * j].seg.x1, 380.0, j as real)
  {
    gridLines := GenerateGrid(Loop, HorizontalLines, VerticalLines);
    forall i | 0 <= i <= 5
      ensures gridLines[2 * i].GridLine? && gridLines[2 * i + 1] == Label(Key(Horizontal, i, true), 30.0, gridLines[2 * i].seg.y1, 2.0 * (i as real))
    {
      HorizontalGrid(Loop, 5, i);
    }
    forall j | 0 <= j <= 6
      ensures gridLines[12 + 2 * j].GridLine? && gridLines[12 + 2 * j + 1] == Label(Key(Vertical, j, true), gridLines[12 + 2 * j].seg.x1, 380.0, j as real)
    {
      VerticalGrid(Loop, 6, j);
      assert gridLines[12 + 2 * j] == VerticalElement(Loop, 6, 2 * j);
      assert gridLines[12 + 2 * j + 1] == VerticalElement(Loop, 6, 2 * j + 1);
    }
  }

  /** The metrics of the measured-values table, in display order, and
      their units. */
  const Metrics: seq<string> := ["fvc", "fev1", "fev1_fvc", "pef", "fef2575"]
  const Units: seq<string> := ["L", "L", "%", "L/s", "L/s"]

  /** The "Valores medidos" table: one row per metric, in order, each
      showing the record's value for that metric. The order, keys and units
      in the contract are the table as the component lays it out; what
      depends on the input is only each value, read from `valores` under
      the row's key and absent when the key is missing. */
  function MeasuredValues(valores: map<string, real>): (rows: seq<Row>)
    ensures |rows| == |Metrics|
    ensures forall k :: 0 <= k < |rows| ==>
      rows[k].key == Metrics[k] && rows[k].unit == Units[k] &&
      rows[k].value == Lookup(valores, Metrics[k])
  {
    seq(|Metrics|, k requires 0 <= k < |Metrics| => Row(Metrics[k], Lookup(valores, Metrics[k]), Units[k]))
  }

  /** With the simulated values the table reads FVC 5.0 L, FEV1 4.2 L,
      FEV1/FVC 84 %, PEF 7.5 L/s, FEF25-75 4.8 L/s. */
  lemma DefaultMeasuredValues()
    ensures MeasuredValues(SimulatedData(None).valores) == [
      Row("fvc", Some(5.0), "L"), Row("fev1", Some(4.2), "L"), Row("fev1_fvc", Some(84.0), "%"),
      Row("pef", Some(7.5), "L/s"), Row("fef2575", Some(4.8), "L/s")]
  {
  }
}
