/** The page's mutable state after the data has loaded (app.js lines 129-345):
    the attribute bound to each axis, the scale fitted to it, and the classes
    of the six axis labels, together with the two click handlers that update
    them in place. */
module Chart {
  import opened Dataset
  import opened Scales
  import opened Selection

  class ScatterChart {
    /** The loaded dataset; never changed after load. */
    const data: seq<Record>

    var chosenX: XKey
    var chosenY: YKey
    var xLinearScale: Scale
    var yLinearScale: Scale

    var povertyLabel: Label
    var ageLabel: Label
    var incomeLabel: Label
    var obesityLabel: Label
    var smokesLabel: Label
    var healthcareLabel: Label

    /** Each scale is the one fitted to the attribute currently bound to its
        axis (the y scale with the range the page gives it). */
    ghost predicate Valid()
      reads this
    {
      && |data| > 0
      && xLinearScale == XScale(data, chosenX)
      && yLinearScale == SourceYScale(data, chosenY)
    }

    /** The selection state: both keys and the six labels' classes. */
    function Snapshot(): ChartState
      reads this
    {
      ChartState(chosenX, chosenY,
        povertyLabel, ageLabel, incomeLabel,
        obesityLabel, smokesLabel, healthcareLabel)
    }

    /** Initial scales and label classes once the data has loaded. */
    constructor (data: seq<Record>)
      requires |data| > 0
      ensures this.data == data
      ensures Valid()
      ensures Snapshot() == Initial()
    {
      this.data := data;
      chosenX := Poverty;
      chosenY := Obesity;
      xLinearScale := XScale(data, Poverty);
      yLinearScale := SourceYScale(data, Obesity);
      // a fresh label carries only the one class it is given
      povertyLabel := Label(true, false);
      ageLabel := Label(false, true);
      incomeLabel := Label(false, true);
      obesityLabel := Label(false, true);
      smokesLabel := Label(false, true);
      healthcareLabel := Label(false, true);
    }

    /** Click on the x label whose `value` is xvalue. */
    method OnXLabelClick(xvalue: XKey)
      requires Valid()
      modifies this
      ensures Valid()
      ensures Snapshot() == ClickX(old(Snapshot()), xvalue)
      ensures chosenX == xvalue && chosenY == old(chosenY)
      ensures xvalue == old(chosenX) ==> xLinearScale == old(xLinearScale)
      ensures yLinearScale == old(yLinearScale)
    {
      if xvalue != chosenX {
        var fitted := XScale(data, xvalue);
        chosenX := xvalue;
        xLinearScale := fitted;
        if chosenX == Poverty {
          povertyLabel := Activated;
          ageLabel := Deactivated;
          incomeLabel := Deactivated;
        } else if chosenX == Age {
          ageLabel := Activated;
          povertyLabel := Deactivated;
          incomeLabel := Deactivated;
        } else {
          incomeLabel := Activated;
        }
      }
    }

    /** Click on the y label whose `value` is yvalue. */
    method OnYLabelClick(yvalue: YKey)
      requires Valid()
      modifies this
      ensures Valid()
      ensures Snapshot() == ClickY(old(Snapshot()), yvalue)
      ensures chosenY == yvalue && chosenX == old(chosenX)
      ensures yvalue == old(chosenY) ==> yLinearScale == old(yLinearScale)
      ensures xLinearScale == old(xLinearScale)
    {
      if yvalue != chosenY {
        var fitted := SourceYScale(data, yvalue);
        chosenY := yvalue;
        yLinearScale := fitted;
        if chosenY == Obesity {
          obesityLabel := Activated;
          smokesLabel := Deactivated;
          healthcareLabel := Deactivated;
        } else if chosenY == Smokes {
          smokesLabel := Activated;
          obesityLabel := Deactivated;
          healthcareLabel := Deactivated;
        } else {
          healthcareLabel := Activated;
        }
      }
    }
  }

  /** A page session: load, click income on x, then smokes and healthcare on
      y. The handlers' contracts alone show the label state the user sees. */
  method ClickThrough(data: seq<Record>) returns (p: ScatterChart)
    requires |data| > 0
    ensures fresh(p) && p.Valid()
    ensures p.chosenX == Income && p.chosenY == Healthcare
    ensures ActiveXCount(p.Snapshot()) == 2 && ActiveYCount(p.Snapshot()) == 2
  {
    p := new ScatterChart(data);
    p.OnXLabelClick(Income);
    p.OnYLabelClick(Smokes);
    p.OnYLabelClick(Healthcare);
  }
}
