// The chart component: normalising the payload into points, deriving the
// chart option from them, and deciding between the chart and the
// "No data available" placeholder.

module Graph {
  import opened Js

  /** One normalised point. `date` is whatever `item.date || ''` gave, so it
      can be any truthy value (or the empty string); `value` is a number. */
  datatype Point = Point(date: Value, value: int)

  /** `typeof v === 'number' ? v : 0`. */
  function NumberOrZero(v: Value): (r: int)
    ensures v.Num? ==> r == v.n
    ensures !v.Num? ==> r == 0
  {
    if v.Num? then v.n else 0
  }

  /** The array branch's callback, for an element whose properties can be read. */
  function PointOf(item: Value): (p: Point)
    requires !Nullish(item)
    ensures Truthy(Get(item, "date")) ==> p.date == Get(item, "date")
    ensures !Truthy(Get(item, "date")) ==> p.date == Str("")
    ensures Get(item, "value").Num? ==> p.value == Get(item, "value").n
    ensures !Get(item, "value").Num? ==> p.value == 0
  {
    Point(Or(Get(item, "date"), Str("")), NumberOrZero(Get(item, "value")))
  }

  /** `items.map(PointOf)`: one point per element, in order; reading `date`
      of a null or undefined element throws. */
  function FormatItems(items: seq<Value>): (r: Result<seq<Point>>)
    ensures r.Ok? <==> forall i :: 0 <= i < |items| ==> !Nullish(items[i])
    ensures r.Ok? ==> |r.value| == |items|
    ensures r.Ok? ==> forall i :: 0 <= i < |items| ==> !Nullish(items[i]) && r.value[i] == PointOf(items[i])
  {
    if |items| == 0 then Ok([])
    else if Nullish(items[0]) then TypeError
    else
      match FormatItems(items[1..])
      case Ok(rest) => Ok([PointOf(items[0])] + rest)
      case TypeError => TypeError
  }

  /** `Object.entries(fields).map(...)`: one point per entry, dated by its key. */
  function FormatEntries(fields: seq<(string, Value)>): (r: seq<Point>)
    ensures |r| == |fields|
    ensures forall i :: 0 <= i < |fields| ==> r[i] == Point(Str(fields[i].0), NumberOrZero(fields[i].1))
  {
    if |fields| == 0 then []
    else [Point(Str(fields[0].0), NumberOrZero(fields[0].1))] + FormatEntries(fields[1..])
  }

  /** `formatData`: arrays map element by element, other objects entry by
      entry, every other value gives no points. `null` passes the
      `typeof === 'object'` test, and `Object.entries(null)` throws. */
  function FormatData(data: Value): (r: Result<seq<Point>>)
    ensures data.Arr? ==> (r.Ok? <==> forall i :: 0 <= i < |data.elems| ==> !Nullish(data.elems[i]))
    ensures data.Arr? && r.Ok? ==> |r.value| == |data.elems|
    ensures data.Arr? && r.Ok? ==>
              forall i :: 0 <= i < |data.elems| ==> !Nullish(data.elems[i]) && r.value[i] == PointOf(data.elems[i])
    ensures data.Obj? ==> r.Ok? && |r.value| == |data.fields|
    ensures data.Obj? ==>
              forall i :: 0 <= i < |data.fields| ==>
                r.value[i] == Point(Str(data.fields[i].0), NumberOrZero(data.fields[i].1))
    ensures data.Null? ==> r == TypeError
    ensures !data.Arr? && !data.Obj? && !data.Null? ==> r == Ok([])
  {
    match data
    case Arr(items) => FormatItems(items)
    case Obj(fields) => Ok(FormatEntries(fields))
    case Null => TypeError
    case _ => Ok([])
  }

  /** The parts of the echarts option that carry meaning; colours, grid and
      text styles are constants of presentation and left out. */
  datatype Series = Series(name: string, kind: string, data: seq<int>, smooth: bool, symbolSize: int)

  datatype ChartOption = ChartOption(
    title: string,
    tooltipTrigger: string,
    xAxisKind: string,
    xAxisData: seq<Value>,
    yAxisKind: string,
    yAxisName: string,
    series: seq<Series>)

  /** `formattedData.map(item => item.date)`. */
  function Dates(points: seq<Point>): (r: seq<Value>)
    ensures |r| == |points|
    ensures forall i :: 0 <= i < |points| ==> r[i] == points[i].date
  {
    seq(|points|, i requires 0 <= i < |points| => points[i].date)
  }

  /** `formattedData.map(item => item.value)`. */
  function Values(points: seq<Point>): (r: seq<int>)
    ensures |r| == |points|
    ensures forall i :: 0 <= i < |points| ==> r[i] == points[i].value
  {
    seq(|points|, i requires 0 <= i < |points| => points[i].value)
  }

  /** The `option` literal built from the points and the metric. */
  function BuildOption(points: seq<Point>, metric: string): (o: ChartOption)
    ensures o.title == metric
    ensures o.xAxisKind == "category" && o.yAxisKind == "value" && o.tooltipTrigger == "axis"
    ensures |o.xAxisData| == |points| && forall i :: 0 <= i < |points| ==> o.xAxisData[i] == points[i].date
    ensures |o.series| == 1
    ensures o.series[0].name == metric && o.series[0].kind == "line"
    ensures |o.series[0].data| == |points| && forall i :: 0 <= i < |points| ==> o.series[0].data[i] == points[i].value
    ensures o.yAxisName == "Seconds" <==> metric == "LCP"
    ensures o.yAxisName == "Seconds" || o.yAxisName == "Score"
  {
    ChartOption(
      metric,
      "axis",
      "category", Dates(points),
      "value", if metric == "LCP" then "Seconds" else "Score",
      [Series(metric, "line", Values(points), true, 6)])
  }

  /** The placeholder test: a falsy payload, an empty array, or an object
      without own keys (for an array, `Object.keys` counts its indices). */
  predicate NoData(data: Value): (r: bool)
    ensures Nullish(data) ==> r
    ensures data.Arr? ==> (r <==> |data.elems| == 0)
    ensures data.Obj? ==> (r <==> |data.fields| == 0)
    ensures data.Bool? || data.Num? || data.Str? ==> (r <==> !Truthy(data))
  {
    !Truthy(data) ||
    (data.Arr? && |data.elems| == 0) ||
    (data.Obj? && |data.fields| == 0)
  }

  /** What the component shows: the placeholder, a chart configured with an
      option, or nothing because the effect threw while normalising. */
  datatype Rendering = Placeholder | Chart(option: ChartOption) | Crashed

  /** The component for given props. The effect that configures the chart runs
      only when the chart container was rendered, that is, when the
      placeholder was not. `device` is a prop but enters nothing. */
  function Render(data: Value, metric: string, device: string): (g: Rendering)
    ensures g.Placeholder? <==> NoData(data)
    ensures g.Crashed? ==> data.Arr? && FormatData(data).TypeError?
    ensures g.Chart? ==> !NoData(data) && FormatData(data).Ok? && g.option == BuildOption(FormatData(data).value, metric)
    ensures !NoData(data) && FormatData(data).Ok? ==> g.Chart?
  {
    if NoData(data) then Placeholder
    else
      match FormatData(data)
      case Ok(points) => Chart(BuildOption(points, metric))
      case TypeError => Crashed
  }

  // ---------------------------------------------------------------------
  // Properties of the normaliser

  /** A point's value is the source number, or 0 for anything else, in both
      the array and the object branch. */
  lemma ValueIsNumberOrZero(data: Value, i: nat)
    requires FormatData(data).Ok?
    requires data.Arr? ==> i < |data.elems|
    requires data.Obj? ==> i < |data.fields|
    requires data.Arr? || data.Obj?
    ensures i < |FormatData(data).value|
    ensures data.Arr? ==>
              FormatData(data).value[i].value ==
                (match Get(data.elems[i], "value") case Num(n) => n case _ => 0)
    ensures data.Obj? ==>
              FormatData(data).value[i].value ==
                (match data.fields[i].1 case Num(n) => n case _ => 0)
  {
  }

  /** A falsy `date` becomes the empty string, a truthy one is kept as it is,
      and the element still gives a point at its own position. */
  lemma DateDefaults(items: seq<Value>, i: nat)
    requires FormatData(Arr(items)).Ok?
    requires i < |items|
    ensures |FormatData(Arr(items)).value| == |items|
    ensures !Nullish(items[i])
    ensures !Truthy(Get(items[i], "date")) ==> FormatData(Arr(items)).value[i].date == Str("")
    ensures Truthy(Get(items[i], "date")) ==> FormatData(Arr(items)).value[i].date == Get(items[i], "date")
  {
  }

  /** Normalising throws exactly for `null` and for an array holding `null` or
      `undefined`; every other payload gives a list of points. */
  lemma FormatThrowsIff(data: Value)
    ensures FormatData(data).TypeError? <==>
              data.Null? || (data.Arr? && exists i :: 0 <= i < |data.elems| && Nullish(data.elems[i]))
  {
  }

  /** A payload that is neither an array nor an object gives no points. */
  lemma ScalarsGiveNothing(data: Value)
    requires data.Undefined? || data.Bool? || data.Num? || data.Str?
    ensures FormatData(data) == Ok([])
  {
  }

  /** For an object with distinct keys (as every JavaScript object has), the
      point dated by entry `i`'s key carries the value of that property. */
  lemma EntryPointReadsProperty(fields: seq<(string, Value)>, i: nat)
    requires i < |fields|
    requires forall j, k :: 0 <= j < k < |fields| ==> fields[j].0 != fields[k].0
    ensures FormatData(Obj(fields)).Ok?
    ensures FormatData(Obj(fields)).value[i] ==
              Point(Str(fields[i].0), NumberOrZero(Get(Obj(fields), fields[i].0)))
  {
    LookupDistinct(fields, i);
  }

  // ---------------------------------------------------------------------
  // Properties of the rendering

  /** The placeholder shows exactly for the seven falsy or empty payloads. */
  lemma NoDataIff(data: Value)
    ensures NoData(data) <==>
              data in {Undefined, Null, Bool(false), Num(0), Str(""), Arr([]), Obj([])}
  {
  }

  /** A rendered chart draws one series, labelled by `metric`, whose data are
      the normalised values, against the normalised dates, index by index. */
  lemma ChartAligned(data: Value, metric: string, device: string)
    requires Render(data, metric, device).Chart?
    ensures FormatData(data).Ok?
    ensures var o := Render(data, metric, device).option; var pts := FormatData(data).value;
      o.title == metric && |o.series| == 1 && o.series[0].name == metric &&
      |o.xAxisData| == |pts| == |o.series[0].data| &&
      (forall i :: 0 <= i < |pts| ==> o.xAxisData[i] == pts[i].date && o.series[0].data[i] == pts[i].value) &&
      (o.yAxisName == "Seconds" <==> metric == "LCP")
  {
  }

  /** The rendering does not depend on the device. */
  lemma RenderIgnoresDevice(data: Value, metric: string, d1: string, d2: string)
    ensures Render(data, metric, d1) == Render(data, metric, d2)
  {
  }

  /** Only an array holding `null` or `undefined` can make the component
      throw: a `null` payload is caught by the placeholder test first. */
  lemma CrashesIff(data: Value, metric: string, device: string)
    ensures Render(data, metric, device).Crashed? <==>
              data.Arr? && exists i :: 0 <= i < |data.elems| && Nullish(data.elems[i])
  {
    FormatThrowsIff(data);
  }

  /** A truthy boolean, number or string passes the placeholder test and
      draws a chart with no points. */
  lemma TruthyScalarDrawsEmptyChart(data: Value, metric: string, device: string)
    requires data.Bool? || data.Num? || data.Str?
    requires Truthy(data)
    ensures Render(data, metric, device).Chart?
    ensures Render(data, metric, device).option.xAxisData == []
    ensures Render(data, metric, device).option.series[0].data == []
  {
    ScalarsGiveNothing(data);
  }

  /** A payload with a number and a non-number value: both dates are kept,
      the non-number becomes 0. */
  lemma MixedValuesExample()
    ensures FormatData(Arr([
              Obj([("date", Str("2001")), ("value", Num(10))]),
              Obj([("date", Str("2002")), ("value", Str("bad"))])]))
            == Ok([Point(Str("2001"), 10), Point(Str("2002"), 0)])
  {
    var a := Obj([("date", Str("2001")), ("value", Num(10))]);
    var b := Obj([("date", Str("2002")), ("value", Str("bad"))]);
    assert "value" != "date";
    assert PointOf(a) == Point(Str("2001"), 10);
    assert PointOf(b) == Point(Str("2002"), 0);
    var pts := FormatData(Arr([a, b])).value;
    assert |pts| == 2 && pts[0] == PointOf(a) && pts[1] == PointOf(b);
    assert pts == [PointOf(a), PointOf(b)];
  }

  /** An empty object shows the placeholder. */
  lemma EmptyObjectExample(metric: string, device: string)
    ensures Render(Obj([]), metric, device) == Placeholder
  {
  }
}
