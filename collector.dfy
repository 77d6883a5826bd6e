/** The `POST /metrics` ingestion handler and the `GET /metrics` scrape. */
module Collector {
  import opened JsValues
  import opened Metrics

  /** The fields the handler destructures from the parsed request body; a
      field the body lacks is `Undefined`. */
  datatype Report = Report(
    bufferLevel: JsValue,
    bitrate: JsValue,
    rebuffering: JsValue,
    clientId: JsValue,
    clientInfo: JsValue,
    cmcd: JsValue)

  /** The reply sent to the reporting client. */
  datatype Reply = Reply(status: nat, body: string)

  /** The client label of every write: `clientId`, defaulting to `"default"`.
      A destructuring default applies only to `undefined`, so a `null` or
      non-string `clientId` is used as given. */
  function ClientLabel(r: Report): JsValue {
    if r.clientId == Undefined then Str("default") else r.clientId
  }

  /** The numeric guard `typeof v === 'number' && !isNaN(v)` in front of a gauge write. */
  function SetIfNumber(m: GaugeSeries, k: Labels, v: JsValue): GaugeSeries {
    if IsNumberNotNaN(v) then Put(m, k, v) else m
  }

  /** A truthiness guard on `guard` in front of a gauge write of `v`. */
  function SetIfTruthy(m: GaugeSeries, k: Labels, guard: JsValue, v: JsValue): GaugeSeries {
    if Truthy(guard) then Put(m, k, v) else m
  }

  /** A truthiness guard on `flag` in front of a counter increment. */
  function IncIfTruthy(m: CounterSeries, k: Labels, flag: JsValue): CounterSeries {
    if Truthy(flag) then Inc(m, k) else m
  }

  /** The registry's values after one report is ingested into `s`: six
      independent guarded writes, each attributed to `ClientLabel(r)`. */
  function Ingested(s: Snapshot, r: Report): Snapshot {
    var id := ClientLabel(r);
    var region := OptionalGet(r.clientInfo, "region");
    var bs := OptionalGet(r.cmcd, "bs");
    var mtp := OptionalGet(r.cmcd, "mtp");
    Snapshot(
      SetIfNumber(s.bufferLevel, [id], r.bufferLevel),
      SetIfNumber(s.bitrate, [id], r.bitrate),
      IncIfTruthy(s.rebuffering, [id], r.rebuffering),
      SetIfTruthy(s.geo, [id, region], region, One),
      SetIfTruthy(s.bufferStarvation, [id], bs, bs),
      SetIfTruthy(s.measuredThroughput, [id], mtp, mtp))
  }

  /** A gauge write behind the numeric guard, as the handler does for
      `bufferLevel` and `bitrate`. */
  method SetNumberGuarded(gauge: Gauge, labels: Labels, v: JsValue)
    requires |labels| == |gauge.labelNames|
    modifies gauge
    ensures gauge.values == SetIfNumber(old(gauge.values), labels, v)
  {
    if IsNumberNotNaN(v) {
      gauge.Set(labels, v);
    }
  }

  /** A gauge write behind a truthiness test, as the handler does for
      `clientInfo?.region`, `cmcd?.bs` and `cmcd?.mtp`. */
  method SetTruthyGuarded(gauge: Gauge, labels: Labels, guard: JsValue, v: JsValue)
    requires |labels| == |gauge.labelNames|
    modifies gauge
    ensures gauge.values == SetIfTruthy(old(gauge.values), labels, guard, v)
  {
    if Truthy(guard) {
      gauge.Set(labels, v);
    }
  }

  /** `POST /metrics`: applies the report's accepted fields to the registry,
      one family at a time, and always answers 200 "OK". */
  method PostMetrics(registry: Registry, r: Report) returns (reply: Reply)
    requires registry.Valid()
    modifies registry.Repr()
    ensures registry.Snap() == Ingested(old(registry.Snap()), r)
    ensures reply == Reply(200, "OK")
  {
    var id := ClientLabel(r);
    SetNumberGuarded(registry.bufferLevel, [id], r.bufferLevel);
    SetNumberGuarded(registry.bitrate, [id], r.bitrate);
    if Truthy(r.rebuffering) {
      registry.rebuffering.Increment([id]);
    }
    var region := OptionalGet(r.clientInfo, "region");
    SetTruthyGuarded(registry.geo, [id, region], region, One);
    var bs := OptionalGet(r.cmcd, "bs");
    SetTruthyGuarded(registry.bufferStarvation, [id], bs, bs);
    var mtp := OptionalGet(r.cmcd, "mtp");
    SetTruthyGuarded(registry.measuredThroughput, [id], mtp, mtp);
    reply := Reply(200, "OK");
  }

  /** `GET /metrics`: the current values of every family, read without
      changing any of them. */
  method Scrape(registry: Registry) returns (s: Snapshot)
    ensures s == registry.Snap()
  {
    s := Snapshot(registry.bufferLevel.values, registry.bitrate.values,
                  registry.rebuffering.values, registry.geo.values,
                  registry.bufferStarvation.values, registry.measuredThroughput.values);
  }
}
