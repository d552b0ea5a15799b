/** The axis-selection state machine of app.js: which attribute drives each
    axis (lines 29-31), the `active`/`inactive` classes of the six axis
    labels (lines 181-228), and what a click on a label does to both
    (lines 234-345). The functions here are the reference transitions that
    the methods of Chart.ScatterChart are proved against. */
module Selection {
  import opened Dataset

  /** The classes of one label text element: whether it carries `active`
      and whether it carries `inactive`. */
  datatype Label = Label(active: bool, inactive: bool)

  /** `.classed("active", true).classed("inactive", false)` */
  const Activated: Label := Label(true, false)
  /** `.classed("active", false).classed("inactive", true)` */
  const Deactivated: Label := Label(false, true)

  /** The chosen attribute of each axis and the classes of the six labels. */
  datatype ChartState = ChartState(
    chosenX: XKey,
    chosenY: YKey,
    poverty: Label,
    age: Label,
    income: Label,
    obesity: Label,
    smokes: Label,
    healthcare: Label)

  /** The label that selects attribute k on the x axis. */
  function XLabel(s: ChartState, k: XKey): Label {
    match k
    case Poverty => s.poverty
    case Age => s.age
    case Income => s.income
  }

  /** The label that selects attribute k on the y axis. */
  function YLabel(s: ChartState, k: YKey): Label {
    match k
    case Obesity => s.obesity
    case Smokes => s.smokes
    case Healthcare => s.healthcare
  }

  function Count(b: bool): nat {
    if b then 1 else 0
  }

  /** How many x labels carry the `active` class. */
  function ActiveXCount(s: ChartState): nat {
    Count(s.poverty.active) + Count(s.age.active) + Count(s.income.active)
  }

  /** How many y labels carry the `active` class. */
  function ActiveYCount(s: ChartState): nat {
    Count(s.obesity.active) + Count(s.smokes.active) + Count(s.healthcare.active)
  }

  /** The labels of the x axis agree with the encoding: the chosen one is
      active and not inactive, the other two inactive and not active. */
  predicate XInSync(s: ChartState) {
    forall k: XKey :: XLabel(s, k) == (if k == s.chosenX then Activated else Deactivated)
  }

  predicate YInSync(s: ChartState) {
    forall k: YKey :: YLabel(s, k) == (if k == s.chosenY then Activated else Deactivated)
  }

  predicate InSync(s: ChartState) {
    XInSync(s) && YInSync(s)
  }

  /** Every label carries exactly one of the two classes. */
  predicate AllMarked(s: ChartState) {
    && (forall k: XKey :: XLabel(s, k).active != XLabel(s, k).inactive)
    && (forall k: YKey :: YLabel(s, k).active != YLabel(s, k).inactive)
  }

  /** Labels in sync means exactly one active label per axis, and it is the
      label of the chosen attribute. */
  lemma InSyncExactlyOneActive(s: ChartState)
    requires InSync(s)
    ensures ActiveXCount(s) == 1 && XLabel(s, s.chosenX).active
    ensures ActiveYCount(s) == 1 && YLabel(s, s.chosenY).active
    ensures AllMarked(s)
  {
    assert XLabel(s, Poverty) == s.poverty && XLabel(s, Age) == s.age && XLabel(s, Income) == s.income;
    assert YLabel(s, Obesity) == s.obesity && YLabel(s, Smokes) == s.smokes && YLabel(s, Healthcare) == s.healthcare;
  }

  // ---------------------------------------------------------------------
  // The page as written
  // ---------------------------------------------------------------------

  /** State when the page has loaded: x bound to poverty, y to obesity; the
      poverty label active, every other label inactive, obesity included. */
  function Initial(): ChartState {
    ChartState(Poverty, Obesity,
      Label(true, false), Label(false, true), Label(false, true),
      Label(false, true), Label(false, true), Label(false, true))
  }

  /** Click on the x label whose `value` is xvalue. */
  function ClickX(s: ChartState, xvalue: XKey): ChartState {
    if xvalue == s.chosenX then s
    else if xvalue == Poverty then
      s.(chosenX := xvalue, poverty := Activated, age := Deactivated, income := Deactivated)
    else if xvalue == Age then
      s.(chosenX := xvalue, age := Activated, poverty := Deactivated, income := Deactivated)
    else
      s.(chosenX := xvalue, income := Activated)
  }

  /** Click on the y label whose `value` is yvalue. */
  function ClickY(s: ChartState, yvalue: YKey): ChartState {
    if yvalue == s.chosenY then s
    else if yvalue == Obesity then
      s.(chosenY := yvalue, obesity := Activated, smokes := Deactivated, healthcare := Deactivated)
    else if yvalue == Smokes then
      s.(chosenY := yvalue, smokes := Activated, obesity := Deactivated, healthcare := Deactivated)
    else
      s.(chosenY := yvalue, healthcare := Activated)
  }

  /** A click on one of the six labels. */
  datatype Click = XClick(x: XKey) | YClick(y: YKey)

  function Step(s: ChartState, c: Click): ChartState {
    match c
    case XClick(x) => ClickX(s, x)
    case YClick(y) => ClickY(s, y)
  }

  /** The state after a sequence of clicks, the last one applied last. */
  function Run(s: ChartState, cs: seq<Click>): ChartState
    decreases |cs|
  {
    if cs == [] then s else Step(Run(s, cs[..|cs| - 1]), cs[|cs| - 1])
  }

  /** The initial encoding, and the classes the labels start with. */
  lemma InitialState()
    ensures Initial().chosenX == Poverty && Initial().chosenY == Obesity
    ensures Initial().poverty.active && !Initial().poverty.inactive
    ensures Initial().age == Deactivated && Initial().income == Deactivated
    ensures XInSync(Initial()) && AllMarked(Initial())
  {
  }

  /** Clicking the label of the attribute already chosen changes nothing:
      neither key and none of the six labels. */
  lemma ReselectIsNoOp(s: ChartState, x: XKey, y: YKey)
    ensures x == s.chosenX ==> ClickX(s, x) == s
    ensures y == s.chosenY ==> ClickY(s, y) == s
  {
  }

  /** Clicking another x label binds x to the clicked attribute and marks
      its label active; the y key and the y labels stay as they were. */
  lemma ClickXSwitches(s: ChartState, x: XKey)
    requires x != s.chosenX
    ensures ClickX(s, x).chosenX == x
    ensures XLabel(ClickX(s, x), x) == Activated
    ensures ClickX(s, x).chosenY == s.chosenY
    ensures forall k: YKey :: YLabel(ClickX(s, x), k) == YLabel(s, k)
  {
  }

  /** Clicking another y label binds y to the clicked attribute and marks
      its label active; the x key and the x labels stay as they were. */
  lemma ClickYSwitches(s: ChartState, y: YKey)
    requires y != s.chosenY
    ensures ClickY(s, y).chosenY == y
    ensures YLabel(ClickY(s, y), y) == Activated
    ensures ClickY(s, y).chosenX == s.chosenX
    ensures forall k: XKey :: XLabel(ClickY(s, y), k) == XLabel(s, k)
  {
  }

  /** Switching x to poverty or age rewrites all three x labels: whatever
      they were before, they are in sync afterwards. Switching to income
      rewrites the income label only. */
  lemma ClickXLabels(s: ChartState, x: XKey)
    requires x != s.chosenX
    ensures x != Income ==> XInSync(ClickX(s, x))
    ensures x == Income ==>
      && ClickX(s, x).income == Activated
      && ClickX(s, x).poverty == s.poverty
      && ClickX(s, x).age == s.age
  {
  }

  /** Switching y to obesity or smokes rewrites all three y labels; switching
      to healthcare rewrites the healthcare label only. */
  lemma ClickYLabels(s: ChartState, y: YKey)
    requires y != s.chosenY
    ensures y != Healthcare ==> YInSync(ClickY(s, y))
    ensures y == Healthcare ==>
      && ClickY(s, y).healthcare == Activated
      && ClickY(s, y).obesity == s.obesity
      && ClickY(s, y).smokes == s.smokes
  {
  }

  /** After any sequence of clicks, the x key is the attribute of the last
      x click, or the starting key when there was none. */
  lemma {:induction false} RunChosenXIsLastXClick(s: ChartState, cs: seq<Click>)
    ensures (forall i :: 0 <= i < |cs| ==> !cs[i].XClick?) ==> Run(s, cs).chosenX == s.chosenX
    ensures forall i :: 0 <= i < |cs| && cs[i].XClick? && (forall j :: i < j < |cs| ==> !cs[j].XClick?) ==>
      Run(s, cs).chosenX == cs[i].x
    decreases |cs|
  {
    if cs != [] {
      var n := |cs| - 1;
      var prefix := cs[..n];
      RunChosenXIsLastXClick(s, prefix);
      if cs[n].XClick? {
        assert Run(s, cs).chosenX == cs[n].x;
      } else {
        assert Run(s, cs).chosenX == Run(s, prefix).chosenX;
        forall i | 0 <= i < |cs| && cs[i].XClick? && (forall j :: i < j < |cs| ==> !cs[j].XClick?)
          ensures Run(s, cs).chosenX == cs[i].x
        {
          assert i < n && prefix[i] == cs[i];
          assert forall j :: i < j < n ==> prefix[j] == cs[j];
        }
        if forall i :: 0 <= i < |cs| ==> !cs[i].XClick? {
          assert forall i :: 0 <= i < n ==> prefix[i] == cs[i];
        }
      }
    }
  }

  /** After any sequence of clicks, the y key is the attribute of the last
      y click, or the starting key when there was none. */
  lemma {:induction false} RunChosenYIsLastYClick(s: ChartState, cs: seq<Click>)
    ensures (forall i :: 0 <= i < |cs| ==> !cs[i].YClick?) ==> Run(s, cs).chosenY == s.chosenY
    ensures forall i :: 0 <= i < |cs| && cs[i].YClick? && (forall j :: i < j < |cs| ==> !cs[j].YClick?) ==>
      Run(s, cs).chosenY == cs[i].y
    decreases |cs|
  {
    if cs != [] {
      var n := |cs| - 1;
      var prefix := cs[..n];
      RunChosenYIsLastYClick(s, prefix);
      if cs[n].YClick? {
        assert Run(s, cs).chosenY == cs[n].y;
      } else {
        assert Run(s, cs).chosenY == Run(s, prefix).chosenY;
        forall i | 0 <= i < |cs| && cs[i].YClick? && (forall j :: i < j < |cs| ==> !cs[j].YClick?)
          ensures Run(s, cs).chosenY == cs[i].y
        {
          assert i < n && prefix[i] == cs[i];
          assert forall j :: i < j < n ==> prefix[j] == cs[j];
        }
        if forall i :: 0 <= i < |cs| ==> !cs[i].YClick? {
          assert forall i :: 0 <= i < n ==> prefix[i] == cs[i];
        }
      }
    }
  }

  /** What the page as written does keep: every label carries exactly one
      of the two classes, and the label of the chosen x attribute is active. */
  predicate WrittenInvariant(s: ChartState) {
    AllMarked(s) && XLabel(s, s.chosenX) == Activated
  }

  lemma StepKeepsWrittenInvariant(s: ChartState, c: Click)
    requires WrittenInvariant(s)
    ensures WrittenInvariant(Step(s, c))
  {
    var r := Step(s, c);
    assert XLabel(r, Poverty) == r.poverty && XLabel(r, Age) == r.age && XLabel(r, Income) == r.income;
    assert YLabel(r, Obesity) == r.obesity && YLabel(r, Smokes) == r.smokes && YLabel(r, Healthcare) == r.healthcare;
    assert XLabel(s, Poverty) == s.poverty && XLabel(s, Age) == s.age && XLabel(s, Income) == s.income;
    assert YLabel(s, Obesity) == s.obesity && YLabel(s, Smokes) == s.smokes && YLabel(s, Healthcare) == s.healthcare;
  }

  /** From page load, whatever the user clicks, the chosen x label stays
      active (so at least one x label is active) and no label ever carries
      both classes or neither. */
  lemma {:induction false} RunKeepsWrittenInvariant(cs: seq<Click>)
    ensures WrittenInvariant(Run(Initial(), cs))
    ensures ActiveXCount(Run(Initial(), cs)) >= 1
    decreases |cs|
  {
    if cs == [] {
      InitialState();
    } else {
      RunKeepsWrittenInvariant(cs[..|cs| - 1]);
      StepKeepsWrittenInvariant(Run(Initial(), cs[..|cs| - 1]), cs[|cs| - 1]);
    }
    var r := Run(Initial(), cs);
    assert XLabel(r, Poverty) == r.poverty && XLabel(r, Age) == r.age && XLabel(r, Income) == r.income;
  }

  /** At page load no y label is active, although y is bound to obesity. */
  lemma InitialHasNoActiveYLabel()
    ensures Initial().chosenY == Obesity
    ensures ActiveYCount(Initial()) == 0
    ensures !YInSync(Initial())
  {
    assert YLabel(Initial(), Obesity) != Activated;
  }

  /** Clicking income straight after page load leaves two x labels active:
      poverty is never deactivated. */
  lemma IncomeClickLeavesTwoXLabelsActive()
    ensures ClickX(Initial(), Income).poverty.active
    ensures ClickX(Initial(), Income).income.active
    ensures ActiveXCount(ClickX(Initial(), Income)) == 2
  {
  }

  /** Clicking smokes and then healthcare leaves two y labels active: smokes
      is never deactivated. */
  lemma HealthcareClickLeavesTwoYLabelsActive()
    ensures Run(Initial(), [YClick(Smokes), YClick(Healthcare)]).smokes.active
    ensures Run(Initial(), [YClick(Smokes), YClick(Healthcare)]).healthcare.active
    ensures ActiveYCount(Run(Initial(), [YClick(Smokes), YClick(Healthcare)])) == 2
  {
    var cs := [YClick(Smokes), YClick(Healthcare)];
    assert cs[..1] == [YClick(Smokes)];
    assert cs[..1][..0] == [];
  }

  // ---------------------------------------------------------------------
  // The behaviour the page evidently intends
  // ---------------------------------------------------------------------

  /** Page load with the label of the initial y attribute active. */
  function InitialIntended(): ChartState {
    Initial().(obesity := Activated)
  }

  /** Click on an x label; the income branch deactivates the other two labels
      like the other branches do. */
  function ClickXIntended(s: ChartState, xvalue: XKey): ChartState {
    if xvalue == s.chosenX then s
    else if xvalue == Poverty then
      s.(chosenX := xvalue, poverty := Activated, age := Deactivated, income := Deactivated)
    else if xvalue == Age then
      s.(chosenX := xvalue, age := Activated, poverty := Deactivated, income := Deactivated)
    else
      s.(chosenX := xvalue, income := Activated, poverty := Deactivated, age := Deactivated)
  }

  /** Click on a y label; the healthcare branch deactivates the other two
      labels like the other branches do. */
  function ClickYIntended(s: ChartState, yvalue: YKey): ChartState {
    if yvalue == s.chosenY then s
    else if yvalue == Obesity then
      s.(chosenY := yvalue, obesity := Activated, smokes := Deactivated, healthcare := Deactivated)
    else if yvalue == Smokes then
      s.(chosenY := yvalue, smokes := Activated, obesity := Deactivated, healthcare := Deactivated)
    else
      s.(chosenY := yvalue, healthcare := Activated, obesity := Deactivated, smokes := Deactivated)
  }

  function StepIntended(s: ChartState, c: Click): ChartState {
    match c
    case XClick(x) => ClickXIntended(s, x)
    case YClick(y) => ClickYIntended(s, y)
  }

  function RunIntended(s: ChartState, cs: seq<Click>): ChartState
    decreases |cs|
  {
    if cs == [] then s else StepIntended(RunIntended(s, cs[..|cs| - 1]), cs[|cs| - 1])
  }

  /** The corrected page starts with both axes' labels in sync. */
  lemma InitialIntendedInSync()
    ensures InitialIntended().chosenX == Poverty && InitialIntended().chosenY == Obesity
    ensures InSync(InitialIntended())
  {
  }

  /** A corrected switch brings the clicked axis's labels in sync whatever
      they were, and leaves everything of the other axis alone. */
  lemma IntendedSwitchSyncs(s: ChartState, x: XKey, y: YKey)
    ensures x != s.chosenX ==>
      && XInSync(ClickXIntended(s, x)) && ClickXIntended(s, x).chosenX == x
      && (forall k: YKey :: YLabel(ClickXIntended(s, x), k) == YLabel(s, k))
      && ClickXIntended(s, x).chosenY == s.chosenY
    ensures y != s.chosenY ==>
      && YInSync(ClickYIntended(s, y)) && ClickYIntended(s, y).chosenY == y
      && (forall k: XKey :: XLabel(ClickYIntended(s, y), k) == XLabel(s, k))
      && ClickYIntended(s, y).chosenX == s.chosenX
  {
  }

  lemma StepIntendedKeepsInSync(s: ChartState, c: Click)
    requires InSync(s)
    ensures InSync(StepIntended(s, c))
  {
    match c
    case XClick(x) =>
      IntendedSwitchSyncs(s, x, s.chosenY);
    case YClick(y) =>
      IntendedSwitchSyncs(s, s.chosenX, y);
  }

  /** With the corrections, after any sequence of clicks from page load each
      axis has exactly one active label, the label of its chosen attribute. */
  lemma {:induction false} RunIntendedKeepsOneActivePerAxis(cs: seq<Click>)
    ensures InSync(RunIntended(InitialIntended(), cs))
    ensures ActiveXCount(RunIntended(InitialIntended(), cs)) == 1
    ensures ActiveYCount(RunIntended(InitialIntended(), cs)) == 1
    decreases |cs|
  {
    if cs == [] {
      InitialIntendedInSync();
    } else {
      RunIntendedKeepsOneActivePerAxis(cs[..|cs| - 1]);
      StepIntendedKeepsInSync(RunIntended(InitialIntended(), cs[..|cs| - 1]), cs[|cs| - 1]);
    }
    InSyncExactlyOneActive(RunIntended(InitialIntended(), cs));
  }

  /** With the corrections and labels in sync, selecting a, then b, then a
      again ends in exactly the state the first selection of a produced. */
  lemma IntendedRoundTrip(s: ChartState, a: XKey, b: XKey, c: YKey, d: YKey)
    requires InSync(s)
    ensures ClickXIntended(ClickXIntended(ClickXIntended(s, a), b), a) == ClickXIntended(s, a)
    ensures ClickYIntended(ClickYIntended(ClickYIntended(s, c), d), c) == ClickYIntended(s, c)
  {
    assert XLabel(s, Poverty) == s.poverty && XLabel(s, Age) == s.age && XLabel(s, Income) == s.income;
    assert YLabel(s, Obesity) == s.obesity && YLabel(s, Smokes) == s.smokes && YLabel(s, Healthcare) == s.healthcare;
  }
}
