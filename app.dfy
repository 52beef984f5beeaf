// The dashboard page: the selected metric and device, the fetch lifecycle
// that fills `data`, and which of spinner, error banner and chart is shown.

module App {
  import opened Js
  import Graph
  import Dropdown

  const MetricOptions: seq<string> := ["LCP", "CLS"]
  const DeviceOptions: seq<string> := ["Mobile", "Desktop"]

  /** The message the failure branch stores in `error`. */
  const FetchFailedMessage: string := "Failed to fetch data. Please try again later."

  // ---------------------------------------------------------------------
  // The simulated payload

  /** The date label of record `i`: `200${i + 1}`. */
  function SimulatedDate(i: nat): (d: string)
    requires i < 7
    ensures |d| == 4 && d[..3] == "200" && d[3] as int == '0' as int + i + 1
  {
    "200" + [('0' as int + i + 1) as char]
  }

  /** Record `i` of the simulated payload: a date and five channel fields.
      `draw(i, c)` stands for the `Math.random() * 1000` drawn for channel
      `c` of record `i`; no `value` field is set. */
  function SimulatedRecord(i: nat, draw: (nat, nat) -> int): (r: Value)
    requires i < 7
    ensures r.Obj? && |r.fields| == 6
    ensures Get(r, "date") == Str(SimulatedDate(i))
    ensures Get(r, "value") == Undefined
    ensures forall c :: 1 <= c < 6 ==> r.fields[c].1 == Num(draw(i, c - 1))
  {
    Obj([("date", Str(SimulatedDate(i))),
         ("Email", Num(draw(i, 0))),
         ("Union Ads", Num(draw(i, 1))),
         ("Video Ads", Num(draw(i, 2))),
         ("Direct", Num(draw(i, 3))),
         ("Search Engine", Num(draw(i, 4)))])
  }

  /** `Array.from({ length: 7 }, (_, i) => record i)`. */
  function SimulatedData(draw: (nat, nat) -> int): (r: Value)
    ensures r.Arr? && |r.elems| == 7
    ensures forall i :: 0 <= i < 7 ==> r.elems[i] == SimulatedRecord(i, draw)
  {
    Arr(seq(7, i requires 0 <= i < 7 => SimulatedRecord(i, draw)))
  }

  /** The simulated payload holds seven records dated "2001" to "2007" in
      order, none of them with a `value` field. */
  lemma SimulatedShape(draw: (nat, nat) -> int)
    ensures SimulatedData(draw).Arr? && |SimulatedData(draw).elems| == 7
    ensures forall i :: 0 <= i < 7 ==>
              SimulatedData(draw).elems[i].Obj? &&
              Get(SimulatedData(draw).elems[i], "date") == Str(SimulatedDate(i)) &&
              Get(SimulatedData(draw).elems[i], "value") == Undefined
  {
  }

  /** The simulated records normalise to seven points with value 0: the
      channel fields are not the `value` the normaliser reads. */
  lemma SimulatedNormalises(draw: (nat, nat) -> int)
    ensures Graph.FormatData(SimulatedData(draw)) ==
              Ok(seq(7, i requires 0 <= i < 7 => Graph.Point(Str(SimulatedDate(i)), 0)))
  {
    SimulatedShape(draw);
    var items := SimulatedData(draw).elems;
    var pts := Graph.FormatData(SimulatedData(draw)).value;
    assert forall i :: 0 <= i < 7 ==> Truthy(Get(items[i], "date"));
    var want := seq(7, i requires 0 <= i < 7 => Graph.Point(Str(SimulatedDate(i)), 0));
    assert forall i :: 0 <= i < 7 ==> pts[i] == want[i];
    assert pts == want;
  }

  /** The seven date labels written out. */
  lemma SimulatedDates()
    ensures seq(7, i requires 0 <= i < 7 => Str(SimulatedDate(i))) ==
              [Str("2001"), Str("2002"), Str("2003"), Str("2004"), Str("2005"), Str("2006"), Str("2007")]
  {
    assert SimulatedDate(0) == "2001" && SimulatedDate(1) == "2002" && SimulatedDate(2) == "2003";
    assert SimulatedDate(3) == "2004" && SimulatedDate(4) == "2005" && SimulatedDate(5) == "2006";
    assert SimulatedDate(6) == "2007";
  }

  /** Rendered, the simulated payload draws a chart labelled "2001" to "2007"
      whose one series is all zeros. */
  lemma SimulatedChart(draw: (nat, nat) -> int, metric: string, device: string)
    ensures Graph.Render(SimulatedData(draw), metric, device).Chart?
    ensures Graph.Render(SimulatedData(draw), metric, device).option.xAxisData ==
              [Str("2001"), Str("2002"), Str("2003"), Str("2004"), Str("2005"), Str("2006"), Str("2007")]
    ensures Graph.Render(SimulatedData(draw), metric, device).option.series[0].data == [0, 0, 0, 0, 0, 0, 0]
  {
    SimulatedNormalises(draw);
    SimulatedDates();
    var pts := seq(7, i requires 0 <= i < 7 => Graph.Point(Str(SimulatedDate(i)), 0));
    assert !Graph.NoData(SimulatedData(draw));
    var o := Graph.BuildOption(pts, metric);
    assert Graph.Render(SimulatedData(draw), metric, device) == Graph.Chart(o);
    assert o.xAxisData == seq(7, i requires 0 <= i < 7 => Str(SimulatedDate(i)));
    assert o.series[0].data == seq(7, i requires 0 <= i < 7 => 0);
  }

  // ---------------------------------------------------------------------
  // What the page shows

  /** The three conditionally rendered panels. */
  datatype Panels = Panels(spinner: bool, banner: bool, chart: bool)

  /** `{error && ...}`: a null or empty message shows no banner. */
  predicate ErrorShown(error: Option<string>): (r: bool)
    ensures r ==> error.Some?
    ensures error == None ==> !r
    ensures error == Some(FetchFailedMessage) ==> r
  {
    error.Some? && error.value != ""
  }

  /** `{loading && ...}`, `{error && ...}`, `{!loading && !error && data && ...}`. */
  function Visible(loading: bool, error: Option<string>, data: Value): (p: Panels)
    ensures p.spinner <==> loading
    ensures p.banner <==> ErrorShown(error)
    ensures p.chart <==> !loading && !ErrorShown(error) && Truthy(data)
    ensures p.chart ==> !p.spinner && !p.banner
    ensures data == Null ==> !p.chart
  {
    Panels(loading, ErrorShown(error), !loading && !ErrorShown(error) && Truthy(data))
  }

  function PanelCount(p: Panels): nat
  {
    (if p.spinner then 1 else 0) + (if p.banner then 1 else 0) + (if p.chart then 1 else 0)
  }

  /** When an error message never coexists with `loading`, at most one panel
      is visible; and when one is, it is the chart exactly if the data is
      truthy and neither loading nor an error is pending. */
  lemma AtMostOnePanel(loading: bool, error: Option<string>, data: Value)
    requires error.Some? ==> !loading
    ensures PanelCount(Visible(loading, error, data)) <= 1
    ensures PanelCount(Visible(loading, error, data)) == 0 <==> !loading && !ErrorShown(error) && !Truthy(data)
  {
  }

  // ---------------------------------------------------------------------
  // The page state

  /** The page's five state fields and its two mounted dropdowns. */
  class Dashboard {
    var metric: string
    var device: string
    var data: Value
    var loading: bool
    var error: Option<string>
    const metricMenu: Dropdown.Dropdown
    const deviceMenu: Dropdown.Dropdown

    /** The invariant every reachable state keeps: the selections are among
        the dropdowns' options, and an error message is never held while
        loading. */
    ghost predicate Valid(): (r: bool)
      reads this
      ensures r ==> !(Shown().spinner && Shown().banner)
      ensures r ==> metric in MetricOptions && device in DeviceOptions
    {
      metric in MetricOptions && device in DeviceOptions &&
      metricMenu.options == MetricOptions && deviceMenu.options == DeviceOptions &&
      metricMenu != deviceMenu &&
      (error.Some? ==> !loading)
    }

    /** Which panels the current state shows. */
    function Shown(): (p: Panels)
      reads this
      ensures p.spinner <==> loading
      ensures p.banner <==> error.Some? && error.value != ""
      ensures p.chart <==> !loading && !p.banner && Truthy(data)
    {
      Visible(loading, error, data)
    }

    /** The initial state: LCP on Mobile, no data, loading, no error, both
        dropdowns closed. */
    constructor ()
      ensures Valid()
      ensures metric == "LCP" && device == "Mobile" && data == Null && loading && error == None
      ensures fresh(metricMenu) && fresh(deviceMenu)
      ensures !metricMenu.isOpen && !deviceMenu.isOpen
      ensures Shown() == Panels(true, false, false)
    {
      metric := "LCP";
      device := "Mobile";
      data := Null;
      loading := true;
      error := None;
      metricMenu := new Dropdown.Dropdown(MetricOptions);
      deviceMenu := new Dropdown.Dropdown(DeviceOptions);
    }

    /** A fetch starts: loading, no error, the data held so far kept. */
    method Start()
      requires Valid()
      modifies this
      ensures Valid()
      ensures loading && error == None
      ensures data == old(data) && metric == old(metric) && device == old(device)
      ensures Shown() == Panels(true, false, false)
    {
      loading := true;
      error := None;
    }

    /** A fetch succeeds: the payload becomes the data and loading ends; the
        error is left as it is (the start of the fetch cleared it). */
    method Succeed(payload: Value)
      requires Valid()
      modifies this
      ensures Valid()
      ensures data == payload && !loading && error == old(error)
      ensures metric == old(metric) && device == old(device)
      ensures old(error) == None ==> Shown() == Panels(false, false, Truthy(payload))
    {
      data := payload;
      loading := false;
    }

    /** A fetch fails: the fixed message is stored, the data is cleared and
        loading ends, so only the banner shows whatever was held before. */
    method Fail()
      requires Valid()
      modifies this
      ensures Valid()
      ensures error == Some(FetchFailedMessage) && data == Null && !loading
      ensures metric == old(metric) && device == old(device)
      ensures Shown() == Panels(false, true, false)
    {
      error := Some(FetchFailedMessage);
      data := Null;
      loading := false;
    }

    /** One run of `fetchData`: start, then either the simulated payload is
        stored or, if building it threw, the failure branch runs. */
    method FetchData(draw: (nat, nat) -> int, throws: bool)
      requires Valid()
      modifies this
      ensures Valid()
      ensures metric == old(metric) && device == old(device)
      ensures throws ==> error == Some(FetchFailedMessage) && data == Null && !loading
      ensures !throws ==> data == SimulatedData(draw) && error == None && !loading
      ensures !throws ==> Shown() == Panels(false, false, true)
      ensures throws ==> Shown() == Panels(false, true, false)
    {
      Start();
      if throws {
        Fail();
      } else {
        Succeed(SimulatedData(draw));
      }
    }

    /** A click on the `k`-th metric option (while the list is open or still
        animating out): the dropdown closes and `metric` becomes that option. */
    method ChooseMetric(k: nat)
      requires Valid()
      requires k < |MetricOptions|
      modifies this, metricMenu
      ensures Valid()
      ensures metric == MetricOptions[k] && !metricMenu.isOpen
      ensures device == old(device) && data == old(data) && loading == old(loading) && error == old(error)
      ensures deviceMenu.isOpen == old(deviceMenu.isOpen)
    {
      var chosen := metricMenu.Choose(k);
      metric := chosen;
    }

    /** A click on the `k`-th device option, likewise. */
    method ChooseDevice(k: nat)
      requires Valid()
      requires k < |DeviceOptions|
      modifies this, deviceMenu
      ensures Valid()
      ensures device == DeviceOptions[k] && !deviceMenu.isOpen
      ensures metric == old(metric) && data == old(data) && loading == old(loading) && error == old(error)
      ensures metricMenu.isOpen == old(metricMenu.isOpen)
    {
      var chosen := deviceMenu.Choose(k);
      device := chosen;
    }
  }

  /** In every state the dashboard can reach, at most one panel is shown,
      and the selections are among the offered options. */
  lemma ReachableShowsOnePanel(d: Dashboard)
    requires d.Valid()
    ensures PanelCount(d.Shown()) <= 1
    ensures d.metric == "LCP" || d.metric == "CLS"
    ensures d.device == "Mobile" || d.device == "Desktop"
  {
    AtMostOnePanel(d.loading, d.error, d.data);
  }
}
