/** The metric registry: the six metric families the collector declares, each
    a gauge or a counter object holding one stored value per label set. */
module Metrics {
  import opened JsValues

  datatype Option<T> = None | Some(value: T)

  /** A label set: the label values, in the order of the family's label names. */
  type Labels = seq<JsValue>

  /** The series of a gauge family: label set to the last value set. */
  type GaugeSeries = map<Labels, JsValue>

  /** The series of a counter family: label set to the accumulated count. */
  type CounterSeries = map<Labels, nat>

  function Get(m: GaugeSeries, k: Labels): Option<JsValue> {
    if k in m then Some(m[k]) else None
  }

  /** The count of a counter series; a series not yet created reads as 0. */
  function Count(m: CounterSeries, k: Labels): nat {
    if k in m then m[k] else 0
  }

  /** Setting a gauge: the series `k` now holds `v` whatever it held before
      (last write wins, no history), it exists from now on, and every other
      series is unchanged. */
  function Put(m: GaugeSeries, k: Labels, v: JsValue): (r: GaugeSeries)
    ensures Get(r, k) == Some(v)
    ensures forall k' :: k' != k ==> Get(r, k') == Get(m, k')
    ensures r.Keys == m.Keys + {k}
  {
    m[k := v]
  }

  /** Incrementing a counter: the series `k` gains exactly 1 (starting from 0
      when it did not exist), and every other series is unchanged. */
  function Inc(m: CounterSeries, k: Labels): (r: CounterSeries)
    ensures Count(r, k) == Count(m, k) + 1
    ensures forall k' :: k' != k ==> Count(r, k') == Count(m, k')
    ensures r.Keys == m.Keys + {k}
  {
    m[k := Count(m, k) + 1]
  }

  /** A gauge family (`new client.Gauge({name, help, labelNames})`). */
  class Gauge {
    const name: string
    const help: string
    const labelNames: seq<string>
    var values: GaugeSeries

    constructor (name: string, help: string, labelNames: seq<string>)
      ensures this.name == name && this.help == help && this.labelNames == labelNames
      ensures values == map[]
    {
      this.name := name;
      this.help := help;
      this.labelNames := labelNames;
      values := map[];
    }

    /** `gauge.set(labels, v)`: a label set of the declared arity is given
        the value `v`; no other series of this family changes. */
    method Set(labels: Labels, v: JsValue)
      requires |labels| == |labelNames|
      modifies this
      ensures values == Put(old(values), labels, v)
    {
      values := values[labels := v];
    }
  }

  /** A counter family (`new client.Counter({name, help, labelNames})`). */
  class Counter {
    const name: string
    const help: string
    const labelNames: seq<string>
    var values: CounterSeries

    constructor (name: string, help: string, labelNames: seq<string>)
      ensures this.name == name && this.help == help && this.labelNames == labelNames
      ensures values == map[]
    {
      this.name := name;
      this.help := help;
      this.labelNames := labelNames;
      values := map[];
    }

    /** `counter.inc(labels)`: the series for a label set of the declared
        arity goes up by one; no other series of this family changes. */
    method Increment(labels: Labels)
      requires |labels| == |labelNames|
      modifies this
      ensures values == Inc(old(values), labels)
    {
      values := values[labels := Count(values, labels) + 1];
    }
  }

  /** The values of all six families at one moment: what a scrape exposes. */
  datatype Snapshot = Snapshot(
    bufferLevel: GaugeSeries,
    bitrate: GaugeSeries,
    rebuffering: CounterSeries,
    geo: GaugeSeries,
    bufferStarvation: GaugeSeries,
    measuredThroughput: GaugeSeries)

  const Empty: Snapshot := Snapshot(map[], map[], map[], map[], map[], map[])

  /** The registry the collector declares at startup: five gauges and one
      counter labelled by client id, the geo gauge labelled by client id and
      region. Every family is its own object. */
  class Registry {
    const bufferLevel: Gauge
    const bitrate: Gauge
    const rebuffering: Counter
    const geo: Gauge
    const bufferStarvation: Gauge
    const measuredThroughput: Gauge

    /** The families are distinct objects, each with the arity it was declared with. */
    ghost predicate Valid() {
      && bufferLevel != bitrate && bufferLevel != geo && bufferLevel != bufferStarvation
      && bufferLevel != measuredThroughput && bitrate != geo && bitrate != bufferStarvation
      && bitrate != measuredThroughput && geo != bufferStarvation
      && geo != measuredThroughput && bufferStarvation != measuredThroughput
      && |bufferLevel.labelNames| == 1 && |bitrate.labelNames| == 1
      && |rebuffering.labelNames| == 1 && |geo.labelNames| == 2
      && |bufferStarvation.labelNames| == 1 && |measuredThroughput.labelNames| == 1
    }

    /** The objects whose values the handlers update. */
    function Repr(): set<object> {
      {bufferLevel, bitrate, rebuffering, geo, bufferStarvation, measuredThroughput}
    }

    function Snap(): Snapshot
      reads Repr()
    {
      Snapshot(bufferLevel.values, bitrate.values, rebuffering.values,
               geo.values, bufferStarvation.values, measuredThroughput.values)
    }

    /** Declares the six families; every series starts out empty. */
    constructor ()
      ensures Valid() && fresh(Repr())
      ensures Snap() == Empty
      ensures bufferLevel.name == "dashjs_buffer_level" && bufferLevel.labelNames == ["client_id"]
      ensures bitrate.name == "dashjs_bitrate" && bitrate.labelNames == ["client_id"]
      ensures rebuffering.name == "dashjs_rebuffering_events" && rebuffering.labelNames == ["client_id"]
      ensures geo.name == "dashjs_geo_region" && geo.labelNames == ["client_id", "region"]
      ensures bufferStarvation.name == "dashjs_buffer_starvation" && bufferStarvation.labelNames == ["client_id"]
      ensures measuredThroughput.name == "dashjs_measured_throughput" && measuredThroughput.labelNames == ["client_id"]
    {
      bufferLevel := new Gauge("dashjs_buffer_level", "Current buffer level in seconds", ["client_id"]);
      bitrate := new Gauge("dashjs_bitrate", "Current bitrate in kbps", ["client_id"]);
      rebuffering := new Counter("dashjs_rebuffering_events", "Count of rebuffering events", ["client_id"]);
      geo := new Gauge("dashjs_geo_region", "Geographic region of the client", ["client_id", "region"]);
      bufferStarvation := new Gauge("dashjs_buffer_starvation", "Buffer starvation", ["client_id"]);
      measuredThroughput := new Gauge("dashjs_measured_throughput", "Measured throughput", ["client_id"]);
    }
  }
}
