# Player metrics collector: ingestion model

This project models the telemetry sink in `collector.js`. DASH.js players post
playback-quality reports to `POST /metrics`. The handler checks each
recognised field with its own guard. It writes every accepted field into one of
six Prometheus metric families, and every write carries the reporting client's
id. `GET /metrics` exposes the families for scraping.

Modules:

- `JsValues` (`js_value.dfy`) is the JavaScript value a parsed body can hold:
  `undefined` (also used for a missing field), `null`, booleans, numbers
  (finite, ±Infinity or NaN), strings, arrays and objects. It gives the two
  guard styles the handler uses. `IsNumberNotNaN` is the guard
  `typeof v === 'number' && !isNaN(v)`, and `Truthy` is JavaScript
  truthiness. `OptionalGet` is optional chaining `v?.key`.
- `Metrics` (`metrics.dfy`) is the registry. A `Gauge` class and a `Counter`
  class stand for the prom-client metric objects, each holding one map from
  label set to value. The `Registry` class declares the six families (five
  gauges and one counter keyed by `client_id`, and the geo gauge keyed by
  `client_id` and `region`). `Snapshot` is the value of all six families at
  one moment. The pure functions `Put` and `Inc` specify a gauge `set` and a
  counter `inc`.
- `Collector` (`collector.dfy`) holds the handler. `Report` is the
  destructured body. `ClientLabel` resolves the `'default'` fallback.
  `Ingested` is the registry after one report. `PostMetrics` performs the
  handler's guarded writes, in source order, on a `Registry` object, and is
  proved to leave exactly `Ingested(old, report)`. `Scrape` is `GET /metrics`.
- `CollectorProperties` (`collector_properties.dfy`) holds the lemmas. They
  cover each field's guard, attribution to a single client, field
  independence, isolation between clients (ingests from different clients
  commute), and reports ingested in sequence: the counter equals the number of
  truthy reports, it never decreases, and the last accepted write wins.

The guards are looser than the field names suggest, and the model keeps them
exactly as written:

- The numeric guard tests only `isNaN` (collector.js:77, 82), so `Infinity`
  and `-Infinity` are stored (`NumericGuardEdgeCases`).
- The region guard is plain truthiness (collector.js:90), so any truthy
  value is accepted, a number or an object included (`GeoRegion`).
- The `cmcd.bs` and `cmcd.mtp` guards are plain truthiness too
  (collector.js:94-98). Any truthy value is passed to the gauge, and a value
  of `0` is dropped (`CmcdGuard`, `CmcdZeroOrAbsentDropped`).
- A destructuring default applies only to `undefined` (collector.js:72). So a
  `null` or non-string `clientId` becomes the label as given, and only a
  missing one becomes `"default"` (`DefaultClientAttribution`).

## Model

| member | source | states |
|---|---|---|
| `JsValues.OptionalGet` | collector.js:90-99 | `v?.key` yields something other than undefined only for an object that has that own property, and then yields that property |
| `JsValues.GuardsDisagree` | collector.js:77-98 | the numeric guard accepts 0 (falsy) and ±Infinity, and rejects NaN (falsy), numeric-looking strings and `true` (truthy) |
| `JsValues.NumberGuardAndTruthiness` | collector.js:77-98 | for a value that passes the numeric guard, truthiness holds exactly when the value is not zero |
| `Metrics.Put` | collector.js:78 | a gauge set makes the series hold the new value whatever it held, creates it if needed, and leaves every other series unchanged |
| `Metrics.Inc` | collector.js:87 | a counter inc adds exactly 1 to the series (from 0 when new) and leaves every other series unchanged |
| `Metrics.Gauge.constructor` | collector.js:8-12 | a declared gauge has the given name, help and label names and no series |
| `Metrics.Gauge.Set` | collector.js:78 | the gauge's series become `Put(old, labels, v)`; a label set must have the declared arity |
| `Metrics.Counter.constructor` | collector.js:20-24 | a declared counter has the given name, help and label names and no series |
| `Metrics.Counter.Increment` | collector.js:87 | the counter's series become `Inc(old, labels)` |
| `Metrics.Registry.constructor` | collector.js:8-42 | the six families are distinct fresh objects with the declared names, `client_id` (and `region` for geo) label names, and all series empty |
| `Collector.SetNumberGuarded` | collector.js:77-84 | the gauge is set to `v` exactly when `v` is a number other than NaN, and is otherwise unchanged |
| `Collector.SetTruthyGuarded` | collector.js:90-100 | the gauge is set to `v` exactly when the guard value is truthy, and is otherwise unchanged |
| `Collector.PostMetrics` | collector.js:70-103 | the registry afterwards is `Ingested(before, report)`, nothing outside the six families changes, and the reply is always 200 "OK" |
| `Collector.Scrape` | collector.js:46-49 | the scrape returns the current values of all six families and changes nothing |
| `CollectorProperties.BufferLevelGuard` | collector.js:76-79 | a number other than NaN becomes the client's buffer level, overwriting any earlier value, and every other series keeps its value; otherwise the family is unchanged |
| `CollectorProperties.BitrateGuard` | collector.js:81-84 | the same for bitrate |
| `CollectorProperties.NumericGuardEdgeCases` | collector.js:77 | 0, Infinity and -Infinity are stored; NaN, strings and null leave the family unchanged |
| `CollectorProperties.RebufferingStep` | collector.js:86-88 | a truthy `rebuffering` adds exactly 1 to the client's counter and to no other; a falsy or absent one changes nothing |
| `CollectorProperties.GeoRegion` | collector.js:90-92 | a truthy region sets (client, region) to 1; the client's other regions and every other series are untouched; without a truthy region nothing changes |
| `CollectorProperties.CmcdGuard` | collector.js:94-100 | a truthy `cmcd.bs` / `cmcd.mtp` is stored as given for the client; a falsy one leaves its family unchanged |
| `CollectorProperties.CmcdZeroOrAbsentDropped` | collector.js:94-100 | a `cmcd` that is absent or null, or a `bs` / `mtp` of 0, leaves the starvation and throughput families unchanged |
| `CollectorProperties.OnlyOwnClientChanges` | collector.js:76-100 | an ingest changes no series whose `client_id` label differs from the report's client |
| `CollectorProperties.DefaultClientAttribution` | collector.js:72 | without `clientId`, every series changed is attributed to `"default"`; with a present `clientId` (even null), every series changed is attributed to that value as given |
| `CollectorProperties.FieldsIndependent` | collector.js:76-100 | for one client, each family's outcome depends only on the field that feeds it, so an invalid sibling field neither blocks nor causes a write |
| `CollectorProperties.DifferentClientsCommute` | collector.js:70-103 | reports from two different clients give the same registry in either order (isolation by label) |
| `CollectorProperties.RebufferingCountsEvents` | collector.js:86-88 | over a sequence of reports, a client's counter grows by exactly the number of its reports with a truthy `rebuffering` |
| `CollectorProperties.RepeatedRebufferingAddsN` | collector.js:86-88 | N truthy reports for the same client raise its counter by exactly N |
| `CollectorProperties.CounterNeverDecreases` | collector.js:20-24 | no sequence of reports lowers any counter series |
| `CollectorProperties.BufferLevelIsLatest` | collector.js:77-79 | after a sequence of reports, a client's buffer level is its last accepted one, or the earlier value if none was accepted |
| `CollectorProperties.ExampleScenarios` | collector.js:70-103 | `{bufferLevel: 12.5, bitrate: 3000, clientId: "abc"}` stores 12.5 and 3000 for "abc"; three `{rebuffering: true, clientId: "abc"}` reports into an empty registry give a count of 3 |

## Left out

- Express wiring, the port, `app.listen` and the `console.log` calls (collector.js:1-5, 71, 105-108) are I/O.
- JSON body parsing by `express.json()` is library code. The model starts from the destructured fields of a parsed body (`Report`).
- `GET /steering` (collector.js:52-65) returns a fixed document and has no logic.
- `Scrape`: prom-client's Prometheus text rendering, help lines and content type are foreign library code, so the scrape returns the families' maps rather than the rendered text.
- prom-client's own checks inside `set` are not modelled. It throws on a value that is not a number, such as a truthy string `cmcd.bs`. The model records the value the handler passes.
- `CollectorProperties.CmcdGuard`: "stored as given" is the value the handler passes to `set`. prom-client throws on a truthy value that is not a number, such as a string `cmcd.bs`, so such a value is never stored.
- `CollectorProperties.FieldsIndependent`: this holds only while no `set` throws. A truthy non-number `cmcd.bs` makes the `set` at collector.js:95 throw, and then `cmcd.mtp` is never written, although the model still writes it.
- `CollectorProperties.OnlyOwnClientChanges`: isolation is by the client label as a JavaScript value. prom-client keys series by label values turned into strings, so `5` and `"5"` (or `null` and `"null"`) share one series in the program, while the model keeps them apart.
- `CollectorProperties.DifferentClientsCommute`: the same limit applies. Two clients whose labels differ as values but agree as strings write to the same series in the program.
- `Collector.PostMetrics`: the always-200 reply holds only while no prom-client `set` throws. When a `set` throws, the remaining writes are skipped and Express answers with an error instead. Likewise, prom-client turns label values into strings, so labels that differ only in type (`5` and `"5"`) may share a series. The model keeps labels as JavaScript values.
- The `async` handlers and interleaving of concurrent requests are not modelled. Each ingest is one atomic step, and `DifferentClientsCommute` states what the order of two ingests can and cannot change.
- Numbers carry no IEEE-754 arithmetic, since the handler does none. They are reals plus ±Infinity and NaN, and `+0` and `-0` are one value.
- `OptionalGet` models own properties only. Inherited properties such as a string's `length` are left out, because the handler reads only `region`, `bs` and `mtp`, which no primitive or array carries.
- Label cardinality is unbounded, exactly as in the code: any `clientId` value opens new series.
