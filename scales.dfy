/** The linear scales of app.js lines 34-52: the domain of a scale is the
    minimum and maximum of the bound column over the dataset, and the scale
    stretches that domain linearly over a pixel range. Arithmetic is over
    `real`, not floating point. */
module Scales {
  import opened Dataset
  import opened Geometry

  /** Smallest value of a non-empty column (`d3.min`). */
  function Min(vs: seq<real>): (m: real)
    requires |vs| > 0
    ensures m in vs
    ensures forall i :: 0 <= i < |vs| ==> m <= vs[i]
  {
    if |vs| == 1 then vs[0]
    else
      var rest := Min(vs[1..]);
      if vs[0] <= rest then vs[0] else rest
  }

  /** Largest value of a non-empty column (`d3.max`). */
  function Max(vs: seq<real>): (m: real)
    requires |vs| > 0
    ensures m in vs
    ensures forall i :: 0 <= i < |vs| ==> vs[i] <= m
  {
    if |vs| == 1 then vs[0]
    else
      var rest := Max(vs[1..]);
      if vs[0] >= rest then vs[0] else rest
  }

  /** A continuous linear scale: the data domain [lo, hi] and the pixel
      range from rangeLo to rangeHi that it is stretched over. */
  datatype Scale = Scale(lo: real, hi: real, rangeLo: real, rangeHi: real)

  /** The pixel a data value is drawn at. A degenerate domain (lo == hi)
      sends every value to the middle of the range instead of dividing by
      zero. */
  function Apply(s: Scale, v: real): real {
    if s.lo == s.hi then (s.rangeLo + s.rangeHi) / 2.0
    else s.rangeLo + (v - s.lo) / (s.hi - s.lo) * (s.rangeHi - s.rangeLo)
  }

  /** `d3.scaleLinear().domain([d3.min(..), d3.max(..)]).range([rangeLo, rangeHi])`
      over one column: the domain is the tightest interval holding every
      value, and both of its ends are values of the column. */
  function LinearScale(vs: seq<real>, rangeLo: real, rangeHi: real): (s: Scale)
    requires |vs| > 0
    ensures s.lo in vs && s.hi in vs
    ensures forall i :: 0 <= i < |vs| ==> s.lo <= vs[i] <= s.hi
    ensures s.rangeLo == rangeLo && s.rangeHi == rangeHi
  {
    Scale(Min(vs), Max(vs), rangeLo, rangeHi)
  }

  /** `xScale(data, chosenxAxis)`: domain fitted to the chosen column, range
      [0, chartWidth]. */
  function XScale(data: seq<Record>, k: XKey): (s: Scale)
    requires |data| > 0
    ensures s.lo <= s.hi
    ensures forall i :: 0 <= i < |data| ==> s.lo <= XField(data[i], k) <= s.hi
    ensures exists i :: 0 <= i < |data| && XField(data[i], k) == s.lo
    ensures exists i :: 0 <= i < |data| && XField(data[i], k) == s.hi
    ensures s.rangeLo == 0.0 && s.rangeHi == ChartWidth as real
  {
    var vs := XColumn(data, k);
    var s := LinearScale(vs, 0.0, ChartWidth as real);
    assert vs[0] == XField(data[0], k);
    s
  }

  /** `yScale(data, chosenyAxis)` with the pixel range given by the caller:
      domain fitted to the chosen column. */
  function YScale(data: seq<Record>, k: YKey, rangeLo: real, rangeHi: real): (s: Scale)
    requires |data| > 0
    ensures s.lo <= s.hi
    ensures forall i :: 0 <= i < |data| ==> s.lo <= YField(data[i], k) <= s.hi
    ensures exists i :: 0 <= i < |data| && YField(data[i], k) == s.lo
    ensures exists i :: 0 <= i < |data| && YField(data[i], k) == s.hi
    ensures s.rangeLo == rangeLo && s.rangeHi == rangeHi
  {
    var vs := YColumn(data, k);
    var s := LinearScale(vs, rangeLo, rangeHi);
    assert vs[0] == YField(data[0], k);
    s
  }

  /** The y scale as app.js builds it: its range is [0, chartWidth]. */
  function SourceYScale(data: seq<Record>, k: YKey): (s: Scale)
    requires |data| > 0
    ensures s.rangeLo == 0.0 && s.rangeHi == ChartWidth as real
    ensures s.lo <= s.hi
    ensures forall i :: 0 <= i < |data| ==> s.lo <= YField(data[i], k) <= s.hi
    ensures exists i :: 0 <= i < |data| && YField(data[i], k) == s.lo
    ensures exists i :: 0 <= i < |data| && YField(data[i], k) == s.hi
  {
    YScale(data, k, 0.0, ChartWidth as real)
  }

  /** The y scale with the chart's vertical extent [0, chartHeight] as range. */
  function IntendedYScale(data: seq<Record>, k: YKey): (s: Scale)
    requires |data| > 0
    ensures s.rangeLo == 0.0 && s.rangeHi == ChartHeight as real
    ensures s.lo <= s.hi
    ensures forall i :: 0 <= i < |data| ==> s.lo <= YField(data[i], k) <= s.hi
    ensures exists i :: 0 <= i < |data| && YField(data[i], k) == s.lo
    ensures exists i :: 0 <= i < |data| && YField(data[i], k) == s.hi
  {
    YScale(data, k, 0.0, ChartHeight as real)
  }

  /** A non-degenerate scale sends the ends of its domain to the ends of its
      range, exactly. */
  lemma ApplyEndpoints(s: Scale)
    requires s.lo < s.hi
    ensures Apply(s, s.lo) == s.rangeLo
    ensures Apply(s, s.hi) == s.rangeHi
  {
    assert (s.hi - s.lo) / (s.hi - s.lo) == 1.0;
  }

  /** A degenerate scale sends every value to the middle of its range. */
  lemma ApplyDegenerate(s: Scale, v: real)
    requires s.lo == s.hi
    ensures Apply(s, v) == (s.rangeLo + s.rangeHi) / 2.0
    ensures s.rangeLo <= s.rangeHi ==> s.rangeLo <= Apply(s, v) <= s.rangeHi
  {
  }

  /** The fraction of the domain that lies below a value of the domain. */
  lemma FractionBetweenZeroAndOne(lo: real, hi: real, v: real)
    requires lo <= v <= hi && lo < hi
    ensures 0.0 <= (v - lo) / (hi - lo) <= 1.0
  {
    var d := hi - lo;
    var t := (v - lo) / d;
    assert t * d == v - lo;
  }

  /** Every value of the domain is drawn inside the range. */
  lemma ApplyWithinRange(s: Scale, v: real)
    requires s.lo <= v <= s.hi
    requires s.rangeLo <= s.rangeHi
    ensures s.rangeLo <= Apply(s, v) <= s.rangeHi
  {
    if s.lo != s.hi {
      var t := (v - s.lo) / (s.hi - s.lo);
      FractionBetweenZeroAndOne(s.lo, s.hi, v);
      var w := s.rangeHi - s.rangeLo;
      assert t * w <= 1.0 * w;
    }
  }

  /** A scale whose range ascends preserves the order of values. */
  lemma ApplyMonotone(s: Scale, v: real, w: real)
    requires s.lo <= s.hi && s.rangeLo <= s.rangeHi
    requires v <= w
    ensures Apply(s, v) <= Apply(s, w)
  {
    if s.lo != s.hi {
      var a := (v - s.lo) / (s.hi - s.lo);
      var b := (w - s.lo) / (s.hi - s.lo);
      assert a * (s.hi - s.lo) == v - s.lo;
      assert b * (s.hi - s.lo) == w - s.lo;
      assert a <= b;
      assert a * (s.rangeHi - s.rangeLo) <= b * (s.rangeHi - s.rangeLo);
    }
  }

  /** Over any non-empty dataset, every record's x pixel lies in
      [0, chartWidth]; when the column is not constant its smallest values
      are drawn at 0 and its largest at chartWidth, and when it is constant
      every record is drawn at chartWidth / 2. */
  lemma XScaleMapsExtremes(data: seq<Record>, k: XKey)
    requires |data| > 0
    ensures var s := XScale(data, k);
      forall i :: 0 <= i < |data| ==>
        && 0.0 <= Apply(s, XField(data[i], k)) <= ChartWidth as real
        && (s.lo < s.hi && XField(data[i], k) == s.lo ==> Apply(s, XField(data[i], k)) == 0.0)
        && (s.lo < s.hi && XField(data[i], k) == s.hi ==> Apply(s, XField(data[i], k)) == ChartWidth as real)
        && (s.lo == s.hi ==> Apply(s, XField(data[i], k)) == ChartWidth as real / 2.0)
  {
    var s := XScale(data, k);
    forall i | 0 <= i < |data|
      ensures 0.0 <= Apply(s, XField(data[i], k)) <= ChartWidth as real
    {
      ApplyWithinRange(s, XField(data[i], k));
    }
    if s.lo < s.hi {
      ApplyEndpoints(s);
    }
  }

  /** Over any non-empty dataset and any pixel range, the y scale sends the
      smallest values of the column to the start of the range and the largest
      to its end (a constant column to the middle), and an ascending range
      holds every record's y pixel. */
  lemma YScaleMapsExtremes(data: seq<Record>, k: YKey, rangeLo: real, rangeHi: real)
    requires |data| > 0
    ensures var s := YScale(data, k, rangeLo, rangeHi);
      forall i :: 0 <= i < |data| ==>
        && (rangeLo <= rangeHi ==> rangeLo <= Apply(s, YField(data[i], k)) <= rangeHi)
        && (s.lo < s.hi && YField(data[i], k) == s.lo ==> Apply(s, YField(data[i], k)) == rangeLo)
        && (s.lo < s.hi && YField(data[i], k) == s.hi ==> Apply(s, YField(data[i], k)) == rangeHi)
        && (s.lo == s.hi ==> Apply(s, YField(data[i], k)) == (rangeLo + rangeHi) / 2.0)
  {
    var s := YScale(data, k, rangeLo, rangeHi);
    forall i | 0 <= i < |data| && rangeLo <= rangeHi
      ensures rangeLo <= Apply(s, YField(data[i], k)) <= rangeHi
    {
      ApplyWithinRange(s, YField(data[i], k));
    }
    if s.lo < s.hi {
      ApplyEndpoints(s);
    }
  }

  /** As written, the y scale draws the record with the largest value of a
      non-constant column 760 pixels down, far below the 400-pixel chart
      area: two states with obesity 30 and 40 suffice. */
  lemma SourceYScaleLeavesChartArea()
    ensures var data := [Record("A", 10.0, 30.0, 50.0, 5.0, 30.0, 15.0),
                         Record("B", 20.0, 40.0, 50.0, 6.0, 40.0, 16.0)];
      Apply(SourceYScale(data, Obesity), data[1].obesity) == ChartWidth as real
      && Apply(SourceYScale(data, Obesity), data[1].obesity) > ChartHeight as real
  {
    var data := [Record("A", 10.0, 30.0, 50.0, 5.0, 30.0, 15.0),
                 Record("B", 20.0, 40.0, 50.0, 6.0, 40.0, 16.0)];
    var s := SourceYScale(data, Obesity);
    assert YColumn(data, Obesity) == [30.0, 40.0];
    assert s.lo == 30.0 && s.hi == 40.0;
    ApplyEndpoints(s);
  }

  /** With the chart height as its range, every record's y pixel lies inside
      the chart area. */
  lemma IntendedYScaleStaysInChart(data: seq<Record>, k: YKey)
    requires |data| > 0
    ensures forall i :: 0 <= i < |data| ==>
      0.0 <= Apply(IntendedYScale(data, k), YField(data[i], k)) <= ChartHeight as real
  {
    YScaleMapsExtremes(data, k, 0.0, ChartHeight as real);
  }

  /** Centre of the circle drawn for a record (`cx`, `cy`). */
  function CirclePosition(d: Record, xs: Scale, ys: Scale, kx: XKey, ky: YKey): (real, real) {
    (Apply(xs, XField(d, kx)), Apply(ys, YField(d, ky)))
  }

  /** With the intended y range, every circle lies inside the chart area,
      whatever attributes are bound to the two axes. */
  lemma IntendedCirclesInsideChart(data: seq<Record>, kx: XKey, ky: YKey)
    requires |data| > 0
    ensures forall i :: 0 <= i < |data| ==>
      var p := CirclePosition(data[i], XScale(data, kx), IntendedYScale(data, ky), kx, ky);
      0.0 <= p.0 <= ChartWidth as real && 0.0 <= p.1 <= ChartHeight as real
  {
    XScaleMapsExtremes(data, kx);
    IntendedYScaleStaysInChart(data, ky);
  }

  /** Two states with poverty 10 and 20 over a 100-pixel range are drawn at
      0 and 100; bound to income, which both have at 50, both collapse to the
      middle, 50. */
  lemma TwoStateExample()
    ensures var data := [Record("A", 10.0, 30.0, 50.0, 5.0, 30.0, 15.0),
                         Record("B", 20.0, 40.0, 50.0, 6.0, 40.0, 16.0)];
      var byPoverty := LinearScale(XColumn(data, Poverty), 0.0, 100.0);
      var byIncome := LinearScale(XColumn(data, Income), 0.0, 100.0);
      && Apply(byPoverty, data[0].poverty) == 0.0
      && Apply(byPoverty, data[1].poverty) == 100.0
      && Apply(byIncome, data[0].income) == 50.0
      && Apply(byIncome, data[1].income) == 50.0
  {
    var data := [Record("A", 10.0, 30.0, 50.0, 5.0, 30.0, 15.0),
                 Record("B", 20.0, 40.0, 50.0, 6.0, 40.0, 16.0)];
    assert XColumn(data, Poverty) == [10.0, 20.0];
    assert XColumn(data, Income) == [50.0, 50.0];
    ApplyEndpoints(LinearScale(XColumn(data, Poverty), 0.0, 100.0));
  }
}
