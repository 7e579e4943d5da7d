/**
 * The chart geometry of the dashboard without its trigonometry and SVG
 * strings: how the semicircular top-products chart divides its span
 * among the first five products, and how the trend line of the
 * time-series chart is cut into segments.
 */
module Charts {
  import opened Records
  import opened Lists
  import opened Views

  // ---------------------------------------------------------------------
  // The top-products chart
  // ---------------------------------------------------------------------

  /** The angle the chart covers, from 180 degrees down to 0. */
  const Span: real := 180.0

  /** An SVG arc larger than a half turn needs the large-arc flag. */
  const HalfTurn: real := 180.0

  /** The chart shows the first five products of the list, unfiltered. */
  const ChartedCount: nat := 5

  /** One arc of the chart, angles in degrees. */
  datatype Arc = Arc(
    key: string,
    color: string,
    startAngle: real,
    endAngle: real,
    angleSize: real,
    largeArcFlag: nat)

  /** `products.slice(0, 5)`. */
  function ChartedProducts(ps: seq<Product>): (top: seq<Product>)
    ensures |top| == if |ps| < ChartedCount then |ps| else ChartedCount
    ensures top <= ps
  {
    Take(ps, ChartedCount)
  }

  /** The sum of the arcs' sizes, in chart order. */
  function SizeTotal(arcs: seq<Arc>): real
  {
    if arcs == [] then 0.0 else SizeTotal(arcs[..|arcs| - 1]) + arcs[|arcs| - 1].angleSize
  }

  /** A product's share of the span, at most the span when its spend is at most the total. */
  lemma ShareAtMostSpan(spend: real, total: real)
    requires 0.0 <= spend <= total && total > 0.0
    ensures 0.0 <= Share(spend, total) <= Span
  {
    assert spend / total <= 1.0 by {
      assert spend / total * total == spend;
    }
  }

  /** The part of the span that `spend` takes when the charted products spend `total`. */
  function Share(spend: real, total: real): real
    requires total != 0.0
  {
    spend / total * Span
  }

  /** Shares of the span add up like the spends they come from. */
  lemma SharesAdd(a: real, b: real, total: real)
    requires total != 0.0
    ensures Share(a + b, total) == Share(a, total) + Share(b, total)
  {
  }

  /** The whole total takes the whole span. */
  lemma WholeShare(total: real)
    requires total != 0.0
    ensures Share(total, total) == Span
  {
  }

  /** The sum of sizes grows by one arc's size per arc. */
  lemma SizeTotalStep(arcs: seq<Arc>, arc: Arc)
    ensures SizeTotal(arcs + [arc]) == SizeTotal(arcs) + arc.angleSize
  {
    assert (arcs + [arc])[..|arcs|] == arcs;
  }

  /**
   * The arcs of the chart, laid out left to right: each arc takes its
   * product's share of the span and starts where the previous one ended,
   * the first at the start of the span.
   */
  function LayoutArcs(top: seq<Product>, total: real): (arcs: seq<Arc>)
    requires top != [] ==> total != 0.0
    ensures |arcs| == |top|
  {
    if top == [] then []
    else
      var prev := LayoutArcs(top[..|top| - 1], total);
      var p := top[|top| - 1];
      var start := if prev == [] then Span else prev[|prev| - 1].endAngle;
      var size := Share(p.spend, total);
      prev + [Arc(p.id, p.color, start, start - size, size, if size > HalfTurn then 1 else 0)]
  }

  /** Arc `k` belongs to product `k` and is as large as that product's share. */
  lemma {:induction false} LayoutArcAt(top: seq<Product>, total: real, k: nat)
    requires total != 0.0 && k < |top|
    ensures var a := LayoutArcs(top, total)[k];
            a.key == top[k].id && a.color == top[k].color &&
            a.angleSize == Share(top[k].spend, total) &&
            a.endAngle == a.startAngle - a.angleSize &&
            a.largeArcFlag == (if a.angleSize > HalfTurn then 1 else 0)
  {
    if k < |top| - 1 {
      var init := top[..|top| - 1];
      LayoutArcAt(init, total, k);
      assert init[k] == top[k];
    }
  }

  /** The first arc starts at the start of the span; every other one where its predecessor ends. */
  lemma {:induction false} LayoutContiguous(top: seq<Product>, total: real, k: nat)
    requires total != 0.0 && k < |top|
    ensures var arcs := LayoutArcs(top, total);
            arcs[k].startAngle == if k == 0 then Span else arcs[k - 1].endAngle
  {
    if k < |top| - 1 {
      LayoutContiguous(top[..|top| - 1], total, k);
    }
  }

  /**
   * The arcs' sizes add up to the share of the summed spend, and the last
   * arc ends that far below the start of the span.
   */
  lemma {:induction false} LayoutCovers(top: seq<Product>, total: real)
    requires total != 0.0
    ensures var arcs := LayoutArcs(top, total);
            SizeTotal(arcs) == Share(SpendTotal(top), total) &&
            (arcs != [] ==> arcs[|arcs| - 1].endAngle == Span - SizeTotal(arcs))
  {
    if top != [] {
      var init := top[..|top| - 1];
      var p := top[|top| - 1];
      var prev := LayoutArcs(init, total);
      var arcs := LayoutArcs(top, total);
      LayoutCovers(init, total);
      SharesAdd(SpendTotal(init), p.spend, total);
      SizeTotalStep(prev, arcs[|arcs| - 1]);
      assert arcs == prev + [arcs[|arcs| - 1]];
      if init == [] {
        assert Share(0.0, total) == 0.0;
      }
    }
  }

  /**
   * Laid out over their own total, the arcs fill the span exactly: the last
   * one ends at 0. With non-negative spends no arc is larger than the span,
   * so the large-arc flag is never set.
   */
  lemma LayoutFillsSpan(top: seq<Product>)
    requires SpendTotal(top) != 0.0
    ensures var arcs := LayoutArcs(top, SpendTotal(top));
            SizeTotal(arcs) == Span && (arcs != [] ==> arcs[|arcs| - 1].endAngle == 0.0)
    ensures NonNegativeSpends(top) ==>
              forall k :: 0 <= k < |top| ==>
                var a := LayoutArcs(top, SpendTotal(top))[k];
                0.0 <= a.angleSize <= Span && a.largeArcFlag == 0
  {
    var total := SpendTotal(top);
    LayoutCovers(top, total);
    WholeShare(total);
    if NonNegativeSpends(top) {
      forall k | 0 <= k < |top|
        ensures var a := LayoutArcs(top, total)[k];
                0.0 <= a.angleSize <= Span && a.largeArcFlag == 0
      {
        LayoutArcAt(top, total, k);
        SpendAtMostTotal(top, k);
        ShareAtMostSpan(top[k].spend, total);
      }
    }
  }

  /**
   * `generateRadialPaths`: walks the first five products, carrying the angle
   * where the next arc starts in `currentAngle`. An empty list gives no
   * arcs without dividing; the source has no guard for a zero total over a
   * non-empty list, so the model requires a non-zero one there.
   */
  method RadialArcs(products: seq<Product>) returns (arcs: seq<Arc>)
    requires ChartedProducts(products) != [] ==> SpendTotal(ChartedProducts(products)) != 0.0
    ensures arcs == LayoutArcs(ChartedProducts(products), SpendTotal(ChartedProducts(products)))
    ensures |arcs| == |ChartedProducts(products)|
    ensures products == [] <==> arcs == []
    ensures arcs != [] ==>
              arcs[0].startAngle == Span && arcs[|arcs| - 1].endAngle == 0.0 && SizeTotal(arcs) == Span
  {
    var currentAngle := Span;
    var top5 := ChartedProducts(products);
    var total := SpendTotal(top5);
    arcs := [];
    var i := 0;
    while i < |top5|
      invariant 0 <= i <= |top5|
      invariant arcs == LayoutArcs(top5[..i], total)
      invariant currentAngle == if i == 0 then Span else arcs[i - 1].endAngle
    {
      var p := top5[i];
      var percentage := p.spend / total;
      var angleSize := percentage * Span;
      var startAngle := currentAngle;
      var endAngle := currentAngle - angleSize;
      currentAngle := endAngle;
      var largeArcFlag := if angleSize > HalfTurn then 1 else 0;
      assert top5[..i + 1][..i] == top5[..i];
      arcs := arcs + [Arc(p.id, p.color, startAngle, endAngle, angleSize, largeArcFlag)];
      i := i + 1;
    }
    assert top5[..i] == top5;
    if top5 != [] {
      LayoutFillsSpan(top5);
      LayoutContiguous(top5, total, 0);
    }
  }

  // ---------------------------------------------------------------------
  // The time-series chart
  // ---------------------------------------------------------------------

  /** One period of the time-series chart: bar value and trend-line value. */
  datatype Sample = Sample(period: string, val: real, line: real)

  /** One drawn piece of the trend line, in percent of the chart box. */
  datatype Segment = Segment(x1: real, y1: real, x2: real, y2: real, endMarker: bool)

  /** The horizontal position of the vertex of sample `i` of `n`: the middle of its slot. */
  function SlotX(i: nat, n: nat): real
    requires n > 0
  {
    (i as real + 0.5) / (n as real) * 100.0 + 4.5
  }

  /** The start and end of segment `i`, as the chart computes them, are the slots of samples `i` and `i + 1`. */
  lemma SlotStep(i: nat, n: nat)
    requires n > 0
    ensures (i as real + 0.5) / (n as real) * 100.0 + 4.5 == SlotX(i, n)
    ensures (i as real + 1.5) / (n as real) * 100.0 + 4.5 == SlotX(i + 1, n)
    ensures SlotX(i, n) < SlotX(i + 1, n)
  {
    var a := i as real + 0.5;
    var m := n as real;
    assert (i + 1) as real + 0.5 == a + 1.0;
    assert (a + 1.0) / m == a / m + 1.0 / m;
    assert 1.0 / m > 0.0;
  }

  /** One segment of the trend line, from sample `i` to sample `i + 1`. */
  function SegmentAt(samples: seq<Sample>, i: nat): (seg: Segment)
    requires i + 1 < |samples|
    ensures seg.x1 == SlotX(i, |samples|) && seg.x2 == SlotX(i + 1, |samples|) && seg.x1 < seg.x2
    ensures seg.y1 == TrendY(samples[i].line) && seg.y2 == TrendY(samples[i + 1].line)
    ensures seg.endMarker <==> i + 2 == |samples|
  {
    var n := |samples|;
    SlotStep(i, n);
    Segment(
      (i as real + 0.5) / (n as real) * 100.0 + 4.5,
      100.0 - samples[i].line * 10.0 - 15.0,
      (i as real + 1.5) / (n as real) * 100.0 + 4.5,
      100.0 - samples[i + 1].line * 10.0 - 15.0,
      i == n - 2)
  }

  /** The vertical position of a trend value: ten per unit, up from the baseline. */
  function TrendY(line: real): real
  {
    100.0 - line * 10.0 - 15.0
  }

  /**
   * The trend line: one segment from each sample to the next, the last sample
   * drawing none; every segment marks its start vertex, and the last one also
   * marks its end vertex.
   */
  function LineSegments(samples: seq<Sample>): (segs: seq<Segment>)
    ensures |segs| == if samples == [] then 0 else |samples| - 1
    ensures forall i :: 0 <= i < |segs| ==>
              segs[i].x1 == SlotX(i, |samples|) && segs[i].y1 == TrendY(samples[i].line) &&
              segs[i].x2 == SlotX(i + 1, |samples|) && segs[i].y2 == TrendY(samples[i + 1].line)
    ensures forall i :: 0 < i < |segs| ==> segs[i].x1 == segs[i - 1].x2 && segs[i].y1 == segs[i - 1].y2
    ensures forall i :: 0 <= i < |segs| ==> segs[i].x1 < segs[i].x2
    ensures forall i :: 0 <= i < |segs| ==> (segs[i].endMarker <==> i == |segs| - 1)
  {
    var n := |samples|;
    if n <= 1 then [] else seq(n - 1, i requires 0 <= i < n - 1 => SegmentAt(samples, i))
  }

  /** The two fixed sample sets the view switch chooses between. */
  function ChartData(mode: ViewMode): (samples: seq<Sample>)
    ensures |samples| == (if mode == Monthly then 12 else 5)
    ensures |LineSegments(samples)| == |samples| - 1
  {
    match mode
    case Monthly =>
      [ Sample("Jan", 4.0, 3.5), Sample("Feb", 5.0, 4.2), Sample("Mar", 3.0, 3.1),
        Sample("Apr", 7.0, 6.5), Sample("May", 6.0, 5.8), Sample("Jun", 8.0, 7.2),
        Sample("Jul", 5.0, 4.8), Sample("Aug", 2.5, 2.2), Sample("Sep", 4.0, 3.8),
        Sample("Oct", 6.0, 5.5), Sample("Nov", 7.2, 6.8), Sample("Dec", 5.0, 4.6) ]
    case Yearly =>
      [ Sample("2021", 3.2, 2.8), Sample("2022", 5.5, 5.0),
        Sample("2023", 7.8, 7.1), Sample("2024", 4.2, 3.9),
        Sample("2025", 6.5, 6.1) ]
  }
}
