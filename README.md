# Scatter plot axis selection, modelled in Dafny

The page draws one scatter plot of US state statistics. Each axis can be
bound to one of three columns: poverty, age or income on x; obesity, smokes
or healthcare on y. Clicking an axis label rebinds that axis. The page then
refits the axis's linear scale to the new column and moves the label's
`active`/`inactive` classes. This project models that logic: the chart
geometry, the scale domains and the linear map, the tooltip text, and the
selection state machine with its two click handlers.

Modules, one per concern of `StarterCode/assets/js/app.js`:

- `Geometry` (`geometry.dfy`): canvas size, margins, chart area.
- `Dataset` (`dataset.dfy`): records, attribute keys, column projection.
- `Scales` (`scales.dfy`): min/max domain, the linear map over `real`, x and y scales.
- `Selection` (`selection.dfy`): the selection state as a value. It has the
  transition functions as written (`ClickX`, `ClickY`, `Initial`) and the
  corrected ones (`ClickXIntended`, `ClickYIntended`, `InitialIntended`).
- `Tooltip` (`tooltip.dfy`): label lookup tables and the tooltip string.
- `Chart` (`chart.dfy`): class `ScatterChart`. Its fields are the two chosen
  keys, the two scales and the six label states. Its constructor and the two
  click handlers update them in place. Each handler is proved to move the
  whole selection state exactly as `Selection.ClickX` / `Selection.ClickY`
  do, and to keep each scale fitted to its axis's column.

`ScatterChart` follows the click handlers' code as written, including the
label defects listed under Findings. It also assumes that the handlers get
registered and run to their label updates. As written they never do (see
"## Left out"). The corrected machine in `Selection` is what the "one active
label per axis" invariants are proved against.

Attribute keys are strings in the source. Every value the handlers receive
comes from a label's fixed `value` attribute (app.js:185-226), so the keys are
modelled as the enumerations `XKey` and `YKey`. `Dataset.KeyNamesDistinct`
shows that comparing the column names, as the handlers do, is the same as
comparing keys. The handlers check nothing else, and both name lookups end in
an `else` default (app.js:94, 104), so the model has no error paths for keys.

Three points where app.js disagrees with itself, and what the model takes:

- The poverty, age, obesity and smokes branches (app.js:260-282, 317-338) each
  deactivate the other two labels of their axis. That is the evidence that
  one active label per axis is intended. The income and healthcare branches
  and the obesity label's initial class break it (see Findings).
- The axis label reads "In Poverty (%)" (app.js:187), but the tooltip names
  the same attribute "Poverty(%)" (app.js:89). The tooltip model uses the
  tooltip's own strings.
- The y scale takes the chart width as its range (app.js:50), although the
  y axis spans chartHeight. The model keeps both versions (see Findings).

## Model

| member | source | states |
|---|---|---|
| `Geometry.ChartAreaDimensions` | StarterCode/assets/js/app.js:2-15 | the chart area plus the margins tile the 900 x 500 canvas exactly; the chart area is 760 x 400 |
| `Dataset.KeyNamesDistinct` | StarterCode/assets/js/app.js:181-228 | two keys have the same column name iff they are the same key; no x key is named like a y key |
| `Scales.Min` | StarterCode/assets/js/app.js:37 | the minimum of a non-empty column is one of its values and is at most every value |
| `Scales.Max` | StarterCode/assets/js/app.js:38 | the maximum of a non-empty column is one of its values and is at least every value |
| `Scales.LinearScale` | StarterCode/assets/js/app.js:36-40 | the domain is the tightest interval holding every value of the column, both ends are column values, and the range is the one given |
| `Scales.XScale` | StarterCode/assets/js/app.js:35-42 | for a non-empty dataset: lo <= hi, every record's x value lies in [lo, hi], some record attains lo and some attains hi, and the range is [0, chartWidth] |
| `Scales.YScale` | StarterCode/assets/js/app.js:45-52 | same domain properties for the y column, with the pixel range taken as a parameter |
| `Scales.SourceYScale` | StarterCode/assets/js/app.js:45-52 | the y scale as written has range [0, chartWidth]; lo <= hi, every record's y value lies in [lo, hi], and some record attains lo and some attains hi |
| `Scales.IntendedYScale` | StarterCode/assets/js/app.js:45-52 | the corrected y scale has range [0, chartHeight]; lo <= hi, every record's y value lies in [lo, hi], and some record attains lo and some attains hi |
| `Scales.ApplyEndpoints` | StarterCode/assets/js/app.js:36-40 | a non-degenerate scale sends domain min exactly to the range start and domain max exactly to the range end |
| `Scales.ApplyDegenerate` | StarterCode/assets/js/app.js:36-40 | a constant domain sends every value to the middle of the range, which lies inside an ascending range |
| `Scales.ApplyWithinRange` | StarterCode/assets/js/app.js:36-40 | every value of the domain is drawn inside an ascending range |
| `Scales.ApplyMonotone` | StarterCode/assets/js/app.js:36-40 | with an ascending range the scale preserves the order of values |
| `Scales.XScaleMapsExtremes` | StarterCode/assets/js/app.js:35-42 | every record's x pixel is in [0, chartWidth]; the records holding the column min are drawn at 0 and those holding the max at chartWidth; a constant column is drawn at chartWidth / 2 |
| `Scales.YScaleMapsExtremes` | StarterCode/assets/js/app.js:45-52 | for any range: column min goes to the range start, max to the range end, a constant column to the middle; an ascending range holds every record's y pixel |
| `Scales.SourceYScaleLeavesChartArea` | StarterCode/assets/js/app.js:50 | a two-state dataset whose largest obesity value is drawn at y = 760 by the y scale as written, below the 400-pixel chart area |
| `Scales.IntendedYScaleStaysInChart` | StarterCode/assets/js/app.js:45-52 | with range [0, chartHeight], every record's y pixel lies in [0, chartHeight] |
| `Scales.IntendedCirclesInsideChart` | StarterCode/assets/js/app.js:163-171 | with the corrected y scale, every circle centre lies inside the chart area for any pair of bound attributes |
| `Scales.TwoStateExample` | StarterCode/assets/js/app.js:35-42 | poverty 10 and 20 over a 100-pixel range are drawn at 0 and 100; income 50 and 50 both collapse to 50 |
| `Selection.InSyncExactlyOneActive` | StarterCode/assets/js/app.js:259-287 | when the labels agree with the encoding, each axis has exactly one active label, it is the chosen attribute's label, and no label has both classes or neither |
| `Selection.InitialState` | StarterCode/assets/js/app.js:182-201 | at load x is poverty and y is obesity; the poverty label is active and not inactive; age and income are inactive; the x labels agree with the encoding |
| `Selection.ReselectIsNoOp` | StarterCode/assets/js/app.js:239-296 | clicking the label of the attribute already chosen changes neither key and none of the six labels, on either axis |
| `Selection.ClickXSwitches` | StarterCode/assets/js/app.js:239-242 | clicking a different x label binds x to it and activates its label; the y key and all y labels are unchanged |
| `Selection.ClickYSwitches` | StarterCode/assets/js/app.js:296-299 | clicking a different y label binds y to it and activates its label; the x key and all x labels are unchanged |
| `Selection.ClickXLabels` | StarterCode/assets/js/app.js:260-287 | a switch to poverty or age leaves all three x labels in sync, whatever they were; a switch to income activates income and leaves poverty and age as they were |
| `Selection.ClickYLabels` | StarterCode/assets/js/app.js:317-343 | a switch to obesity or smokes leaves all three y labels in sync; a switch to healthcare activates healthcare and leaves obesity and smokes as they were |
| `Selection.RunChosenXIsLastXClick` | StarterCode/assets/js/app.js:235-289 | after any click sequence, the x key is the value of the last x click, or the starting key when there was none |
| `Selection.RunChosenYIsLastYClick` | StarterCode/assets/js/app.js:292-345 | after any click sequence, the y key is the value of the last y click, or the starting key when there was none |
| `Selection.StepKeepsWrittenInvariant` | StarterCode/assets/js/app.js:235-345 | every click keeps two facts: each label has exactly one of the two classes, and the chosen x label is active |
| `Selection.RunKeepsWrittenInvariant` | StarterCode/assets/js/app.js:182-289 | from page load, after any clicks, no label has both classes or neither, and the chosen x label is active, so at least one x label is active |
| `Selection.InitialHasNoActiveYLabel` | StarterCode/assets/js/app.js:203-228 | at load y is bound to obesity but no y label is active, so the y labels disagree with the encoding |
| `Selection.IncomeClickLeavesTwoXLabelsActive` | StarterCode/assets/js/app.js:283-287 | clicking income right after load leaves poverty and income both active |
| `Selection.HealthcareClickLeavesTwoYLabelsActive` | StarterCode/assets/js/app.js:339-343 | clicking smokes then healthcare leaves smokes and healthcare both active |
| `Selection.InitialIntendedInSync` | StarterCode/assets/js/app.js:209 | the corrected load state binds poverty and obesity, and both label sets agree with it |
| `Selection.IntendedSwitchSyncs` | StarterCode/assets/js/app.js:260-343 | a corrected switch brings the clicked axis's three labels in sync and binds the key; the other axis's key and labels are unchanged |
| `Selection.StepIntendedKeepsInSync` | StarterCode/assets/js/app.js:235-345 | every corrected click keeps both axes' labels in sync with the encoding |
| `Selection.RunIntendedKeepsOneActivePerAxis` | StarterCode/assets/js/app.js:235-345 | with the corrections, after any click sequence from load, each axis has exactly one active label: the chosen attribute's |
| `Selection.IntendedRoundTrip` | StarterCode/assets/js/app.js:235-289 | with the corrections, from a state in sync, selecting a, then b, then a again gives exactly the state the first selection of a gave, on either axis |
| `Tooltip.LabelTexts` | StarterCode/assets/js/app.js:88-106 | poverty, age and any other x key map to "Poverty(%)", "Age", "Household Income"; obesity, smokes and any other y key map to "Obesity(%)", "Smokes(%)", "Lacks Healthcare(%)"; different keys on one axis get different names |
| `Tooltip.TooltipIgnoresYValue` | StarterCode/assets/js/app.js:112 | records with the same state name and x value get the same tooltip whatever their y values, and the text ends with the y column's name |
| `Tooltip.IntendedTooltipShowsYValue` | StarterCode/assets/js/app.js:112 | the corrected tooltip ends with the record's printed y value; two records with the same state name and x value get the same text exactly when their y values print the same |
| `Scales.Apply` | StarterCode/assets/js/app.js:36-40 | no contract of its own; its endpoint, midpoint, range and order properties are stated by `Scales.ApplyEndpoints`, `Scales.ApplyDegenerate`, `Scales.ApplyWithinRange` and `Scales.ApplyMonotone` |
| `Scales.CirclePosition` | StarterCode/assets/js/app.js:167-168 | no contract of its own; `Scales.IntendedCirclesInsideChart` states that every circle lies inside the chart area under the corrected y scale |
| `Dataset.XColumn` | StarterCode/assets/js/app.js:37-38 | the x column has one entry per record, in record order, each the record's value of the bound attribute |
| `Dataset.YColumn` | StarterCode/assets/js/app.js:47-48 | the y column has one entry per record, in record order, each the record's value of the bound attribute |
| `Selection.Initial` | StarterCode/assets/js/app.js:182-228 | no contract of its own; `Selection.InitialState` and `Selection.InitialHasNoActiveYLabel` state the load-time keys and label classes |
| `Selection.ClickX` | StarterCode/assets/js/app.js:235-289 | no contract of its own; `Selection.ReselectIsNoOp`, `Selection.ClickXSwitches`, `Selection.ClickXLabels` and `Selection.IncomeClickLeavesTwoXLabelsActive` state what an x click does |
| `Selection.ClickY` | StarterCode/assets/js/app.js:292-345 | no contract of its own; `Selection.ReselectIsNoOp`, `Selection.ClickYSwitches`, `Selection.ClickYLabels` and `Selection.HealthcareClickLeavesTwoYLabelsActive` state what a y click does |
| `Selection.InitialIntended` | StarterCode/assets/js/app.js:182-228 | no contract of its own; `Selection.InitialIntendedInSync` states that both axes start in sync |
| `Selection.ClickXIntended` | StarterCode/assets/js/app.js:235-289 | no contract of its own; `Selection.IntendedSwitchSyncs`, `Selection.IntendedRoundTrip` and `Selection.RunIntendedKeepsOneActivePerAxis` state its properties |
| `Selection.ClickYIntended` | StarterCode/assets/js/app.js:292-345 | no contract of its own; `Selection.IntendedSwitchSyncs`, `Selection.IntendedRoundTrip` and `Selection.RunIntendedKeepsOneActivePerAxis` state its properties |
| `Tooltip.XLabelText` | StarterCode/assets/js/app.js:88-96 | no contract of its own; `Tooltip.LabelTexts` states the table and its default |
| `Tooltip.YLabelText` | StarterCode/assets/js/app.js:98-106 | no contract of its own; `Tooltip.LabelTexts` states the table and its default |
| `Tooltip.TooltipHtml` | StarterCode/assets/js/app.js:112 | no contract of its own; `Tooltip.TooltipIgnoresYValue` states that the text ignores the y value and ends with the y column's name |
| `Tooltip.TooltipHtmlIntended` | StarterCode/assets/js/app.js:112 | no contract of its own; `Tooltip.IntendedTooltipShowsYValue` states that the text ends with the printed y value and tells records apart by it |
| `Chart.ScatterChart.constructor` | StarterCode/assets/js/app.js:143-228 | after load both scales are fitted to the initial columns and the selection state is `Selection.Initial` |
| `Chart.ScatterChart.OnXLabelClick` | StarterCode/assets/js/app.js:235-289 | the fields move exactly as `Selection.ClickX`; x is bound to the clicked value; y is unchanged; the x scale is refitted only on a switch; the y scale is untouched |
| `Chart.ScatterChart.OnYLabelClick` | StarterCode/assets/js/app.js:292-345 | the fields move exactly as `Selection.ClickY`; y is bound to the clicked value; x is unchanged; the y scale is refitted only on a switch; the x scale is untouched |
| `Chart.ClickThrough` | StarterCode/assets/js/app.js:235-345 | a session of load, income, smokes, healthcare ends with two active labels on each axis; this follows from the handlers' contracts alone |

## Findings

| source | as written | input that shows it | evidently intended | confidence | as-written member | corrected member |
|---|---|---|---|---|---|---|
| StarterCode/assets/js/app.js:283-287 | the income branch activates the income label but never deactivates poverty or age | load the page, click "income": poverty and income are both active | deactivate poverty and age, as the other two branches do | high, not executed | `Selection.ClickX`, `Selection.IncomeClickLeavesTwoXLabelsActive` | `Selection.ClickXIntended`, `Selection.RunIntendedKeepsOneActivePerAxis` |
| StarterCode/assets/js/app.js:339-343 | the healthcare branch activates the healthcare label but never deactivates obesity or smokes | load, click "smokes", then "healthcare": smokes and healthcare are both active | deactivate obesity and smokes, as the other two branches do | high, not executed | `Selection.ClickY`, `Selection.HealthcareClickLeavesTwoYLabelsActive` | `Selection.ClickYIntended`, `Selection.RunIntendedKeepsOneActivePerAxis` |
| StarterCode/assets/js/app.js:209 | the obesity label starts inactive although y is bound to obesity | page load: no y label is active | `.classed("active", true)` on the obesity label | high, not executed | `Selection.Initial`, `Selection.InitialHasNoActiveYLabel` | `Selection.InitialIntended`, `Selection.InitialIntendedInSync` |
| StarterCode/assets/js/app.js:50 | the y scale's range is [0, chartWidth] | two states with obesity 30 and 40: the second is drawn at y = 760, outside the 400-pixel chart area | range over chartHeight | high, not executed | `Scales.SourceYScale`, `Scales.SourceYScaleLeavesChartArea` | `Scales.IntendedYScale`, `Scales.IntendedYScaleStaysInChart` |
| StarterCode/assets/js/app.js:112 | the tooltip prints the y column's name where its value belongs | two states with equal name and x value but different obesity get the same tooltip | print `d[chosenyAxis]` | medium, not executed | `Tooltip.TooltipHtml`, `Tooltip.TooltipIgnoresYValue` | `Tooltip.TooltipHtmlIntended`, `Tooltip.IntendedTooltipShowsYValue` |

## Left out

- SVG and group creation, transforms, label placement and text (app.js:17-27, 150-228): rendering only. Only each label's `value` and its classes are modelled.
- `d3.axisBottom`/`d3.axisLeft`, `renderAxes`, `renderCircles`, transitions and their 1000 ms duration (app.js:54-83): foreign library calls and animation. The scale is modelled as the real-valued linear map `Scales.Apply`.
- The second `renderAxes` (app.js:63) shadows the first. It is left out with the rest of the axis drawing.
- Mis-matched calls are left out. They decide whether the handlers run at all, and the model assumes they do:
  - `updateToolTip(chosenxAxis, chosenyAxis, circlesGroup)` at app.js:232 passes three arguments to a two-parameter function, so its `circlesGroup` parameter is the string "obesity". Line 115 then evaluates `"obesity".call(toolTip)`. Strings have no `call` method, so this throws a TypeError and ends the `.then` callback. As written, lines 235-345 never run: no click handler is registered and no tooltip is attached, so the click state machine is dead code. `ScatterChart` and every click lemma assume that line 232 passed the two arguments `updateToolTip` takes.
  - Every Findings input that clicks a label ("click income", "click smokes, then healthcare") rests on that same assumption. The initial-label and y-range findings can be seen at load, before line 232.
  - `renderCircles(circlesGroup, xLinearScale, chosenxAxis)` at app.js:254 and 311 passes three of its five arguments, so `newYScale` is a key string. Evaluating the `cy` function (app.js:80) would then call a string, which would throw before the label updates at 260 and 317. The model does not follow d3 far enough to say when that function is evaluated; it assumes the class updates are reached.
  - `updateToolTip(chosenyAxis, circlesGroup)` at app.js:314 passes the y key as the x parameter.
- `d3.csv` loading, the `+` coercion and `console.log` (app.js:128-140): input and JavaScript string-to-number conversion. Records come with `real` fields. `ScatterChart`'s constructor requires a non-empty dataset, since the source's domain is undefined for an empty one.
- Turning a number into text inside the tooltip is JavaScript's conversion, which the model does not define. `Tooltip.TooltipHtml` takes it as the parameter `show`.
- `d3.tip` creation, `offset`, and the mouseover/mouseout show and hide handlers (app.js:108-123): UI event plumbing.
- Floating-point rounding: scale arithmetic is exact over `real`.
- `Scales.Apply`: the degenerate-domain case follows d3's linear scale, which maps every value to the middle of the range. That behaviour lives in d3, not in app.js.
