/** Fixed page layout of the scatter plot: the SVG canvas, its margins and
    the chart area that remains inside them (app.js lines 1-15). */
module Geometry {

  /** Margins around the chart area, in pixels. */
  datatype Margin = Margin(top: int, right: int, bottom: int, left: int)

  const SvgWidth: int := 900
  const SvgHeight: int := 500
  const ChartMargin: Margin := Margin(20, 40, 80, 100)

  /** The chart area is the canvas minus its horizontal margins ... */
  const ChartWidth: int := SvgWidth - ChartMargin.left - ChartMargin.right
  /** ... and minus its vertical margins. */
  const ChartHeight: int := SvgHeight - ChartMargin.top - ChartMargin.bottom

  /** The chart area and the margins tile the canvas exactly, and the chart
      area measures 760 by 400 pixels. */
  lemma ChartAreaDimensions()
    ensures ChartMargin.left + ChartWidth + ChartMargin.right == SvgWidth
    ensures ChartMargin.top + ChartHeight + ChartMargin.bottom == SvgHeight
    ensures ChartWidth == 760 && ChartHeight == 400
    ensures 0 < ChartHeight < ChartWidth
  {
  }
}
