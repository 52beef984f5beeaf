# SpeedVitals dashboard core, modelled in Dafny

SpeedVitals is a React page that charts a web-performance metric (LCP or CLS)
for a device class (Mobile or Desktop). This project models the logic of that
page:

- the **Graph** component: `formatData`, which turns an untyped payload
  into an ordered list of `{date, value}` points; the echarts `option` built
  from those points and the metric; and the "No data available" test;
- the **App** component: its five state fields (`metric`, `device`, `data`,
  `loading`, `error`), the start, success and failure steps of `fetchData`,
  the simulated seven-record payload, and the rule for which of spinner,
  error banner and chart is shown;
- the **Dropdown** component: its `isOpen` flag, the button toggle, the option
  click that reports the option and closes the list, and the highlight of the
  selected option.

Modules, one file each:

- `Js` (`js.dfy`): the payload as a closed datatype `Value` (`Undefined`,
  `Null`, `Bool`, `Num`, `Str`, `Arr`, `Obj`). It also defines JavaScript
  truthiness, which values are `null`/`undefined`, and reading a property.
  Numbers are opaque integers. An `Obj` lists its entries in the order
  `Object.entries` reports them, and the model takes that order as given.
- `Graph` (`graph.dfy`): pure functions `FormatData`, `BuildOption`, `NoData`
  and `Render`. `Render` is the whole component as a function of its props.
  Its result is the placeholder, a chart with its option, or `Crashed` when the
  effect throws.
- `Dropdown` (`dropdown.dfy`): a class `Dropdown` with the constant `options`
  and the field `isOpen`. It has `Toggle` and `Choose` methods and the pure
  `Highlights` function.
- `App` (`app.dfy`): a class `Dashboard` with the five state fields and the
  two dropdowns. Its methods are `Start`, `Succeed`, `Fail`, `FetchData`,
  `ChooseMetric` and `ChooseDevice`. Its invariant `Valid()` holds in every
  reachable state. The module also has the simulated payload and the pure
  visibility rule `Visible`.

What the code does that is easy to miss:

- A point's `date` is whatever `item.date || ''` yields. That can be any truthy
  value, not only a string.
- Normalising is not total. Reading `date` of a `null` or `undefined` array
  element throws. `Object.entries(null)` also throws, because `typeof null` is
  `'object'`. Both cases are modelled as `TypeError`. A `null` payload never
  gets that far: `NoData` sends it to the placeholder first.
- The placeholder shows only for a falsy payload, an empty array or an object
  with no keys. A truthy boolean, number or string draws a chart with no points.
- The success step stores any payload. There is no shape check, no
  generation token that discards stale results, and no retry.
- The chart draws a single line series of the `value` fields.

## Model

| member | source | states |
|---|---|---|
| Js.Truthy | src/components/Graph.tsx:117 | a value is falsy exactly when it is undefined, null, false, 0 or '' |
| Js.Or | src/components/Graph.tsx:26 | JavaScript's logical or of a and b is a when a is truthy, else b; the result is truthy iff either is |
| Js.Get | src/components/Graph.tsx:26-27 | reading `date` or `value` gives undefined on non-objects, and on an object the first entry with that key, or undefined when there is none |
| Js.Lookup | src/components/Graph.tsx:26-27 | reading a property of an object gives the first entry with that key, or `undefined` when no entry has it |
| Js.LookupDistinct | src/components/Graph.tsx:30 | when keys are distinct, looking up entry i's key gives entry i's value |
| Graph.NumberOrZero | src/components/Graph.tsx:27 | a number is kept and any other value becomes 0 |
| Graph.PointOf | src/components/Graph.tsx:25-28 | an element's point has its date if truthy, else '', and its value if a number, else 0 |
| Graph.FormatItems | src/components/Graph.tsx:25-28 | array branch: succeeds iff no element is null/undefined; then the output has one point per element, in order, and point i is derived from element i |
| Graph.FormatEntries | src/components/Graph.tsx:30-33 | object branch: one point per entry, in entry order; the date is the key and the value is the number or 0 |
| Graph.FormatData | src/components/Graph.tsx:23-36 | case split: array maps element-wise or throws on a null/undefined element; object maps entry-wise; `null` throws; every other value gives `[]` |
| Graph.Dates | src/components/Graph.tsx:68 | one label per point, label i being point i's date |
| Graph.Values | src/components/Graph.tsx:93 | one datum per point, datum i being point i's value |
| Graph.BuildOption | src/components/Graph.tsx:40-105 | title is the metric; x-axis data are the dates and the single line series' data are the values, both of the points' length and aligned by index; the y-axis name is `Seconds` iff the metric is LCP, otherwise `Score` |
| Graph.NoData | src/components/Graph.tsx:117 | the placeholder test holds for null and undefined, for an array or object iff it is empty, and for a boolean, number or string iff it is falsy |
| Graph.Render | src/components/Graph.tsx:11-131 | the placeholder shows iff `NoData`; otherwise the chart's option is `BuildOption` of the normalised points, or the effect throws, which only an array payload can cause |
| Graph.ValueIsNumberOrZero | src/components/Graph.tsx:27-32 | in both branches a point's value is the source number when it is a number and 0 otherwise |
| Graph.DateDefaults | src/components/Graph.tsx:26 | a falsy `date` becomes `''` and a truthy one is kept; the point stays at its position |
| Graph.FormatThrowsIff | src/components/Graph.tsx:23-36 | normalising throws iff the payload is `null` or an array holding `null`/`undefined` |
| Graph.ScalarsGiveNothing | src/components/Graph.tsx:35 | undefined, booleans, numbers and strings normalise to the empty list |
| Graph.EntryPointReadsProperty | src/components/Graph.tsx:29-33 | with distinct keys, the point dated by a key carries that property's value, or 0 if it is not a number |
| Graph.NoDataIff | src/components/Graph.tsx:117-118 | the placeholder shows iff the payload is one of undefined, null, false, 0, '', [] or {} |
| Graph.ChartAligned | src/components/Graph.tsx:66-105 | a rendered chart has the metric as title and as the name of its one series; its labels and data are the normalised dates and values, index by index |
| Graph.RenderIgnoresDevice | src/components/Graph.tsx:11-131 | what the component renders does not depend on `device` |
| Graph.CrashesIff | src/components/Graph.tsx:117 | the component throws iff the payload is an array holding null/undefined; a null payload is caught by the placeholder test |
| Graph.TruthyScalarDrawsEmptyChart | src/components/Graph.tsx:117-128 | a truthy boolean, number or string passes the placeholder test and draws a chart with no points |
| Graph.MixedValuesExample | src/components/Graph.tsx:24-28 | `[{date:"2001",value:10},{date:"2002",value:"bad"}]` gives the points ("2001",10), ("2002",0) |
| Graph.EmptyObjectExample | src/components/Graph.tsx:117-118 | `{}` shows the placeholder |
| Dropdown.Dropdown.constructor | src/components/Dropdown.tsx:13 | a new dropdown is closed |
| Dropdown.Dropdown.Toggle | src/components/Dropdown.tsx:24 | a button click flips `isOpen`, so two clicks restore it |
| Dropdown.Dropdown.Choose | src/components/Dropdown.tsx:48-52 | clicking option k, open or animating out, reports exactly `options[k]`, which is one of the options, and closes the list |
| Dropdown.Highlights | src/components/Dropdown.tsx:45-47 | one flag per option, set iff the option equals `selected` |
| Dropdown.HighlightUnique | src/components/Dropdown.tsx:41-46 | some option is highlighted iff `selected` is among the options; with distinct options at most one is |
| App.SimulatedDate | src/App.tsx:22 | record i's date is the four characters `200` followed by the digit i+1 |
| App.SimulatedRecord | src/App.tsx:22-27 | record i has six fields: date `200`+(i+1), then the five channels carrying its draws, and no `value` field |
| App.SimulatedData | src/App.tsx:21-28 | the payload is an array of seven records, element i being record i |
| App.SimulatedShape | src/App.tsx:21-28 | the simulated payload is an array of 7 objects, record i dated `200`+(i+1), none with a `value` field |
| App.SimulatedDates | src/App.tsx:21-22 | the seven dates are "2001" to "2007" in order |
| App.SimulatedNormalises | src/App.tsx:21-28 | the simulated payload normalises to seven points dated "2001".."2007", every value 0, because the records carry only channel fields |
| App.SimulatedChart | src/App.tsx:21-32 | rendered, the simulated payload gives a chart labelled "2001".."2007" whose one series is all zeros |
| App.ErrorShown | src/App.tsx:78 | the banner needs a message; no message shows none, and the failure message shows it |
| App.Visible | src/App.tsx:69-89 | spinner iff loading, banner iff a non-empty error, chart iff neither and the data is truthy; a shown chart excludes the other two, and null data shows no chart |
| App.AtMostOnePanel | src/App.tsx:69-89 | if an error is never held while loading, at most one of spinner, banner and chart shows; none shows iff not loading, no error message and falsy data |
| App.Dashboard.Valid | src/App.tsx:9-13 | the invariant: metric and device among the dropdown options, and no error held while loading, so spinner and banner never show together |
| App.Dashboard.Shown | src/App.tsx:69-89 | the panels of the current state: spinner iff loading, banner iff a non-empty error, chart iff neither and the data is truthy |
| App.Dashboard.constructor | src/App.tsx:9-13 | initial state: metric "LCP", device "Mobile", data null, loading, no error, dropdowns closed; only the spinner shows |
| App.Dashboard.Start | src/App.tsx:17-18 | loading becomes true and the error null; data, metric and device are unchanged; in that state only the spinner would show (React renders it only as the initial state) |
| App.Dashboard.Succeed | src/App.tsx:32-38 | data becomes the payload and loading false; the error is unchanged, so after a start the chart shows iff the payload is truthy |
| App.Dashboard.Fail | src/App.tsx:33-38 | the error becomes the fixed message, data null and loading false; only the banner shows, whatever data was held before |
| App.Dashboard.FetchData | src/App.tsx:16-40 | one fetch: on success the data is the simulated payload, there is no error and only the chart shows; on a throw the failure state holds and only the banner shows |
| App.Dashboard.ChooseMetric | src/App.tsx:56-61 | a click on metric option k, whether the list is open or animating out, sets `metric` to that option and closes the metric dropdown; nothing else changes |
| App.Dashboard.ChooseDevice | src/App.tsx:62-67 | a click on device option k, whether the list is open or animating out, sets `device` to that option and closes the device dropdown; nothing else changes |
| App.ReachableShowsOnePanel | src/App.tsx:69-93 | in every reachable state at most one panel shows, the metric is LCP or CLS and the device is Mobile or Desktop |

## Left out

- Not modelled: the echarts calls `init`, `setOption`, `resize` and `dispose`, the `ResizeObserver`, and the effect's cleanup. They are calls into a rendering library with no state the page reads back. The option is modelled as the value passed to `setOption`.
- Not modelled: React's effect scheduling, the dependency arrays and the `async` wrapper. The model does not say when a fetch starts. In the source, the effect re-runs `fetchData` after a change of metric or device.
- `App.Visible`: the chart condition `!loading && !error && data && (...)` evaluates to `data` itself when `data` is falsy. React renders nothing for `null`, `undefined`, `false` and `''`, but prints the text "0" when `data` is `0`. The model shows no panel in that case. The simulated payload never is `0`, but `Succeed` accepts any payload.
- `App.Dashboard.Start`: kept as a state of its own, which over-approximates the page. `fetchData` has no `await`, so all its setters run in one synchronous call and React renders once, with the final state. After mount the start state (and its spinner) is never rendered, and no click can fall between start and success or failure. Every property proved for the model's larger set of states, such as `App.ReachableShowsOnePanel`, holds for the smaller set the page reaches.
- Not modelled: the `console.error` call in the failure branch. It writes to the developer console and changes no state.
- Not modelled: the `Math.random() * 1000` channel values. They are random floats, so they are the parameter `draw`. Numbers are opaque integers: no NaN, no fractions, no float arithmetic.
- Not modelled: how `Object.entries` orders keys (integer-like keys first, in ascending order). An `Obj`'s entries are taken to be in that order already. JavaScript objects have distinct keys; the model does not enforce this, and `Lookup` takes the first match.
- `Js.Get`: models only property names that no built-in prototype defines, such as `date` and `value`, the only ones the code reads. Arrays, booleans, numbers and strings have no such property.
- Not modelled: title placement, tooltip colours, grid margins, axis and line colours, and animation. They are constants of presentation. The option keeps the title text, tooltip trigger, axis kinds, axis data, y-axis name and the series' name, kind, data, smoothing and symbol size.
- Not modelled: when the option list is on screen (src/components/Dropdown.tsx:32). The list mounts when `isOpen` becomes true. It stays mounted and clickable during the 0.2 s exit animation after `isOpen` turns false. The choose methods accept a click in either case and behave the same. The model has only `isOpen`, which the constructor, `Toggle` and `Choose` fully determine.
- Not modelled: the `label` prop, the chevron rotation, the framer-motion animations and the whole navigation bar. They are static markup. `axios` is imported but never used.
- `App.Dashboard.Succeed`: does not clear the error itself. The source does not either; it relies on the start of the same fetch having cleared it.
- The code has no guard against stale results, no retry, no payload shape check, no per-channel series and no tooltip number formatting, so the model has none either.
