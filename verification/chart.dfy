/** Geometry shared by the two SVG visualisers: the padded drawing box,
    path commands, grid elements and evenly spaced positions. Coordinates
    are exact reals; the JavaScript number formatting of the SVG strings is
    not part of the model. */
module Chart {
  import opened Common

  /** A coordinate the JavaScript arithmetic produced: a number, or NaN
      (what `0 * Infinity` and `0 / 0` give). */
  datatype Coord = Num(value: real) | NaN

  /** The two path commands the visualisers emit. */
  datatype Op = M | L

  /** One `"<op> <x> <y>"` entry of an SVG path `d` string. */
  datatype Command = Command(op: Op, x: Coord, y: Coord)

  /** The shape both `generatePath` functions produce: the first command
      moves, every later one draws a line. */
  predicate MoveThenLines(path: seq<Command>)
  {
    forall i :: 0 <= i < |path| ==> (path[i].op == M <==> i == 0)
  }

  /** An SVG canvas of `width` by `height` whose drawing area is inset by
      `padding` on every side. */
  datatype Viewport = Viewport(width: real, height: real, padding: real)
  {
    predicate Valid()
    {
      0.0 <= padding && 2.0 * padding < width && 2.0 * padding < height
    }
  }

  /** A straight SVG `<line>` from (x1, y1) to (x2, y2). */
  datatype Segment = Segment(x1: real, y1: real, x2: real, y2: real)

  datatype Orientation = Horizontal | Vertical

  /** The React `key` of a grid element: `h-i` or `v-i` for a line,
      `h-text-i` or `v-text-i` when `text` is set (a label). */
  datatype Key = Key(orientation: Orientation, index: nat, text: bool)

  /** One element pushed onto `gridLines`: a grid line, or the text
      label placed at (x, y) that shows `value`. */
  datatype GridElement =
    | GridLine(key: Key, seg: Segment)
    | Label(key: Key, x: real, y: real, value: real)

  /** Position of line `i` of `n` intervals laid evenly over a span that
      starts at `start` and has length `span`. */
  function Evenly(start: real, span: real, i: nat, n: nat): real
    requires n > 0
  {
    start + (i as real) * span / (n as real)
  }

  /** Evenly spaced lines start at `start`, end at `start + span` and step
      by exactly `span / n`, so with a positive span they strictly increase. */
  lemma EvenlySpaced(start: real, span: real, i: nat, n: nat)
    requires n > 0 && i < n
    ensures Evenly(start, span, 0, n) == start
    ensures Evenly(start, span, n, n) == start + span
    ensures Evenly(start, span, i + 1, n) - Evenly(start, span, i, n) == span / (n as real)
    ensures span > 0.0 ==> Evenly(start, span, i, n) < Evenly(start, span, i + 1, n)
  {
    var d := n as real;
    var lo, hi := (i as real) * span, ((i + 1) as real) * span;
    assert ((i + 1) as real) == (i as real) + 1.0;
    assert hi == lo + span;
    DividedDifference(hi, lo, d);
    ScaleCancel(span, d);
    assert d * span == span * d;
    if span > 0.0 {
      PositiveQuotient(span, d);
    }
  }

  /** With a positive span a later line lies strictly after an earlier one. */
  lemma EvenlyIncreasing(start: real, span: real, i: nat, j: nat, n: nat)
    requires n > 0 && i < j && span > 0.0
    ensures Evenly(start, span, i, n) < Evenly(start, span, j, n)
  {
    var d := n as real;
    var lo, hi := (i as real) * span, (j as real) * span;
    assert hi - lo == ((j - i) as real) * span;
    PositiveProduct((j - i) as real, span);
    DividedDifference(hi, lo, d);
    PositiveQuotient(hi - lo, d);
  }

  /** With an even number of intervals, the middle position is halfway
      along the span. */
  lemma EvenlyHalfway(start: real, span: real, n: nat)
    requires n > 0 && n % 2 == 0
    ensures Evenly(start, span, n / 2, n) == start + span / 2.0
  {
    var m, d := (n / 2) as real, n as real;
    assert d == 2.0 * m;
    assert m * span == (span / 2.0) * d;
    ScaleCancel(span / 2.0, d);
  }

  /** Every evenly spaced position of a non-negative span lies between the
      first and the last. */
  lemma EvenlyWithin(start: real, span: real, i: nat, n: nat)
    requires n > 0
    ensures i <= n && span >= 0.0 ==> start <= Evenly(start, span, i, n) <= start + span
  {
    if i <= n && span >= 0.0 {
      var f := (i as real) / (n as real);
      FractionTimes(i, n, span);
      assert 0.0 <= f <= 1.0;
      NonNegativeProduct(f, span);
      NonNegativeProduct(1.0 - f, span);
      assert span - f * span == (1.0 - f) * span;
    }
  }

  /** A product of two non-negative factors is non-negative. */
  lemma NonNegativeProduct(a: real, b: real)
    requires 0.0 <= a && 0.0 <= b
    ensures 0.0 <= a * b
  {
  }

  /** A product of two positive factors is positive. */
  lemma PositiveProduct(a: real, b: real)
    requires 0.0 < a && 0.0 < b
    ensures 0.0 < a * b
  {
  }

  /** Dividing a difference is the difference of the quotients. */
  lemma DividedDifference(x: real, y: real, d: real)
    requires d != 0.0
    ensures x / d - y / d == (x - y) / d
  {
  }

  /** A positive quotient of positive numbers. */
  lemma PositiveQuotient(x: real, d: real)
    requires 0.0 < x && 0.0 < d
    ensures 0.0 < x / d
  {
  }

  /** Dividing by a positive `m` and scaling by a positive `w` keeps
      strict order. */
  lemma ScaledIncreasing(a: real, b: real, m: real, w: real)
    requires a < b && 0.0 < m && 0.0 < w
    ensures (a / m) * w < (b / m) * w
  {
    DividedDifference(b, a, m);
    PositiveQuotient(b - a, m);
    PositiveProduct((b - a) / m, w);
    assert (b / m) * w - (a / m) * w == ((b - a) / m) * w;
  }

  /** Laying lines out over a negative span steps backwards from `start`
      by the fraction `i / n` of the span's length. */
  lemma EvenlyBackwards(start: real, span: real, i: nat, n: nat)
    requires n > 0
    ensures Evenly(start, -span, i, n) == start - ((i as real) / (n as real)) * span
  {
    FractionTimes(i, n, span);
    var a, d := (i as real) * span, n as real;
    assert (i as real) * (-span) == -a;
    assert (-a) / d == -(a / d) by {
      assert (a / d) * d == a;
      assert (-(a / d)) * d == -a;
    }
  }

  /** Taking the fraction `i / n` of a span is scaling it by `i` and
      dividing by `n`. */
  lemma FractionTimes(i: nat, n: nat, span: real)
    requires n > 0
    ensures ((i as real) / (n as real)) * span == (i as real) * span / (n as real)
  {
  }

  /** Scaling by a non-zero factor and dividing it out again cancels. */
  lemma ScaleCancel(r: real, m: real)
    requires m != 0.0
    ensures r * m / m == r
  {
  }

  /** Dividing by a non-zero factor and scaling by it again cancels. */
  lemma DivideCancel(r: real, m: real)
    requires m != 0.0
    ensures (r / m) * m == r
  {
  }

  /** One row of a results table: the key the value is read under in the
      results record, the value found there (`None` when the record lacks
      it) and its unit. The label the table displays for the key is
      markup and is not modelled. */
  datatype Row = Row(key: string, value: Option<real>, unit: string)
}
