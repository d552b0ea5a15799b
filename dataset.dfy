/** The records the chart is drawn from, and the attribute keys that can be
    bound to each axis. */
module Dataset {

  /** Attributes that the three x-axis labels can select. */
  datatype XKey = Poverty | Age | Income

  /** Attributes that the three y-axis labels can select. */
  datatype YKey = Obesity | Smokes | Healthcare

  /** One row of the data file after numeric coercion: a state name and the
      six numeric columns the chart can plot. */
  datatype Record = Record(
    state: string,
    poverty: real,
    age: real,
    income: real,
    healthcare: real,
    obesity: real,
    smokes: real)

  /** The column name a label stores in its `value` attribute. */
  function XKeyName(k: XKey): string {
    match k
    case Poverty => "poverty"
    case Age => "age"
    case Income => "income"
  }

  function YKeyName(k: YKey): string {
    match k
    case Obesity => "obesity"
    case Smokes => "smokes"
    case Healthcare => "healthcare"
  }

  /** Comparing column names, as the click handlers do, is the same as
      comparing keys: no two keys share a name. */
  lemma KeyNamesDistinct(a: XKey, b: XKey, c: YKey, d: YKey)
    ensures XKeyName(a) == XKeyName(b) <==> a == b
    ensures YKeyName(c) == YKeyName(d) <==> c == d
    ensures XKeyName(a) != YKeyName(c)
  {
  }

  /** `d[chosenxAxis]`: the value of the x-bound column of a record. */
  function XField(d: Record, k: XKey): real {
    match k
    case Poverty => d.poverty
    case Age => d.age
    case Income => d.income
  }

  /** `d[chosenyAxis]`: the value of the y-bound column of a record. */
  function YField(d: Record, k: YKey): real {
    match k
    case Obesity => d.obesity
    case Smokes => d.smokes
    case Healthcare => d.healthcare
  }

  /** The x-bound column of the whole dataset, in record order. */
  function XColumn(data: seq<Record>, k: XKey): (vs: seq<real>)
    ensures |vs| == |data|
    ensures forall i :: 0 <= i < |data| ==> vs[i] == XField(data[i], k)
  {
    seq(|data|, i requires 0 <= i < |data| => XField(data[i], k))
  }

  /** The y-bound column of the whole dataset, in record order. */
  function YColumn(data: seq<Record>, k: YKey): (vs: seq<real>)
    ensures |vs| == |data|
    ensures forall i :: 0 <= i < |data| ==> vs[i] == YField(data[i], k)
  {
    seq(|data|, i requires 0 <= i < |data| => YField(data[i], k))
  }
}
