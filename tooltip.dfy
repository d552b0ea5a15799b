/** Tooltip text of app.js lines 85-113: the human-readable name of each
    bound attribute and the detail line shown when hovering a circle.
    Turning a number into text is JavaScript's own conversion, which this
    model does not define: it is the parameter `show`. */
module Tooltip {
  import opened Dataset

  /** Name shown for the x attribute; anything not poverty or age reads as
      household income. */
  function XLabelText(k: XKey): string {
    if k == Poverty then "Poverty(%)"
    else if k == Age then "Age"
    else "Household Income"
  }

  /** Name shown for the y attribute; anything not obesity or smokes reads as
      lacking healthcare. */
  function YLabelText(k: YKey): string {
    if k == Obesity then "Obesity(%)"
    else if k == Smokes then "Smokes(%)"
    else "Lacks Healthcare(%)"
  }

  /** The lookup tables, and no two attributes of an axis share a name. */
  lemma LabelTexts(a: XKey, b: XKey, c: YKey, d: YKey)
    ensures XLabelText(Poverty) == "Poverty(%)" && XLabelText(Age) == "Age"
    ensures XLabelText(Income) == "Household Income"
    ensures YLabelText(Obesity) == "Obesity(%)" && YLabelText(Smokes) == "Smokes(%)"
    ensures YLabelText(Healthcare) == "Lacks Healthcare(%)"
    ensures XLabelText(a) == XLabelText(b) <==> a == b
    ensures YLabelText(c) == YLabelText(d) <==> c == d
  {
  }

  /** The tooltip as written: state name, x name and x value, then y name
      followed by the y column's NAME rather than its value. */
  function TooltipHtml(d: Record, kx: XKey, ky: YKey, show: real -> string): string {
    d.state + "<br>" + XLabelText(kx) + ": " + show(XField(d, kx))
      + "<br>" + YLabelText(ky) + ": " + YKeyName(ky)
  }

  /** The tooltip as written does not depend on the record's y value at all:
      two records with the same state name and x value read the same, and
      the text ends in the y column's name. */
  lemma TooltipIgnoresYValue(d1: Record, d2: Record, kx: XKey, ky: YKey, show: real -> string)
    requires d1.state == d2.state && XField(d1, kx) == XField(d2, kx)
    ensures TooltipHtml(d1, kx, ky, show) == TooltipHtml(d2, kx, ky, show)
    ensures var t := TooltipHtml(d1, kx, ky, show);
      |t| >= |YKeyName(ky)| && t[|t| - |YKeyName(ky)|..] == YKeyName(ky)
  {
  }

  /** The tooltip with the y value where the y name stands. */
  function TooltipHtmlIntended(d: Record, kx: XKey, ky: YKey, show: real -> string): string {
    d.state + "<br>" + XLabelText(kx) + ": " + show(XField(d, kx))
      + "<br>" + YLabelText(ky) + ": " + show(YField(d, ky))
  }

  /** The intended tooltip ends with the record's printed y value, and two
      records with the same state name and x value show the same text exactly
      when their y values print the same. */
  lemma IntendedTooltipShowsYValue(d1: Record, d2: Record, kx: XKey, ky: YKey, show: real -> string)
    requires d1.state == d2.state && XField(d1, kx) == XField(d2, kx)
    ensures var t := TooltipHtmlIntended(d1, kx, ky, show);
      |t| >= |show(YField(d1, ky))| && t[|t| - |show(YField(d1, ky))|..] == show(YField(d1, ky))
    ensures TooltipHtmlIntended(d1, kx, ky, show) == TooltipHtmlIntended(d2, kx, ky, show)
        <==> show(YField(d1, ky)) == show(YField(d2, ky))
  {
    var prefix := d1.state + "<br>" + XLabelText(kx) + ": " + show(XField(d1, kx))
      + "<br>" + YLabelText(ky) + ": ";
    var t1 := TooltipHtmlIntended(d1, kx, ky, show);
    var t2 := TooltipHtmlIntended(d2, kx, ky, show);
    assert t1 == prefix + show(YField(d1, ky));
    assert t2 == prefix + show(YField(d2, ky));
    assert t1[|prefix|..] == show(YField(d1, ky));
    assert t2[|prefix|..] == show(YField(d2, ky));
  }
}
