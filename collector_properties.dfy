/** What ingesting reports does to the registry: per-field guards, attribution
    to one client, independence of fields, isolation between clients, and the
    effect of a whole sequence of reports. */
module CollectorProperties {
  import opened JsValues
  import opened Metrics
  import opened Collector

  /** `s` and `t` hold the same value (or both nothing) for label set `k` in
      every family. */
  ghost predicate AgreeAt(s: Snapshot, t: Snapshot, k: Labels) {
    && Get(s.bufferLevel, k) == Get(t.bufferLevel, k)
    && Get(s.bitrate, k) == Get(t.bitrate, k)
    && Count(s.rebuffering, k) == Count(t.rebuffering, k)
    && Get(s.geo, k) == Get(t.geo, k)
    && Get(s.bufferStarvation, k) == Get(t.bufferStarvation, k)
    && Get(s.measuredThroughput, k) == Get(t.measuredThroughput, k)
  }

  /** Label set `k` belongs to client `c`: its `client_id` label, always the first, is `c`. */
  predicate AttributedTo(k: Labels, c: JsValue) {
    |k| > 0 && k[0] == c
  }

  // ---------------------------------------------------------------------------
  // One report, field by field

  /** `bufferLevel` passing the numeric guard becomes the client's buffer-level
      value, replacing any earlier one; failing it, the family is untouched. */
  lemma BufferLevelGuard(s: Snapshot, r: Report)
    ensures var t, id := Ingested(s, r), ClientLabel(r);
      && (IsNumberNotNaN(r.bufferLevel) ==> Get(t.bufferLevel, [id]) == Some(r.bufferLevel))
      && (IsNumberNotNaN(r.bufferLevel) ==>
            forall k :: k != [id] ==> Get(t.bufferLevel, k) == Get(s.bufferLevel, k))
      && (!IsNumberNotNaN(r.bufferLevel) ==> t.bufferLevel == s.bufferLevel)
  {
  }

  /** The same guard, for `bitrate` and the bitrate family. */
  lemma BitrateGuard(s: Snapshot, r: Report)
    ensures var t, id := Ingested(s, r), ClientLabel(r);
      && (IsNumberNotNaN(r.bitrate) ==> Get(t.bitrate, [id]) == Some(r.bitrate))
      && (IsNumberNotNaN(r.bitrate) ==>
            forall k :: k != [id] ==> Get(t.bitrate, k) == Get(s.bitrate, k))
      && (!IsNumberNotNaN(r.bitrate) ==> t.bitrate == s.bitrate)
  {
  }

  /** The numeric guard accepts 0 and the infinities and rejects NaN, strings
      and `null`, whatever they look like. */
  lemma NumericGuardEdgeCases(s: Snapshot, r: Report)
    ensures var t, id := Ingested(s, r), ClientLabel(r);
      && (r.bufferLevel == Number(Finite(0.0)) ==> Get(t.bufferLevel, [id]) == Some(Number(Finite(0.0))))
      && (r.bufferLevel == Number(PosInfinity) ==> Get(t.bufferLevel, [id]) == Some(Number(PosInfinity)))
      && (r.bufferLevel == Number(NegInfinity) ==> Get(t.bufferLevel, [id]) == Some(Number(NegInfinity)))
      && (r.bufferLevel == Number(NaN) || r.bufferLevel.Str? || r.bufferLevel == Null
          ==> t.bufferLevel == s.bufferLevel)
  {
  }

  /** A truthy `rebuffering` adds exactly one to the client's counter and
      nothing else; a falsy or absent one leaves the counter family as it was. */
  lemma RebufferingStep(s: Snapshot, r: Report)
    ensures var t, id := Ingested(s, r), ClientLabel(r);
      && Count(t.rebuffering, [id]) == Count(s.rebuffering, [id]) + (if Truthy(r.rebuffering) then 1 else 0)
      && (forall k :: k != [id] ==> Count(t.rebuffering, k) == Count(s.rebuffering, k))
      && (!Truthy(r.rebuffering) ==> t.rebuffering == s.rebuffering)
  {
  }

  /** A truthy `clientInfo.region` sets the series (client, region) of the geo
      family to 1; the client's series for any other region, and every other
      series, keep their values. Without a truthy region the family is untouched. */
  lemma GeoRegion(s: Snapshot, r: Report)
    ensures var t, id, region := Ingested(s, r), ClientLabel(r), OptionalGet(r.clientInfo, "region");
      && (Truthy(region) ==> Get(t.geo, [id, region]) == Some(One))
      && (forall other :: other != region ==> Get(t.geo, [id, other]) == Get(s.geo, [id, other]))
      && (forall k :: k != [id, region] ==> Get(t.geo, k) == Get(s.geo, k))
      && (!Truthy(region) ==> t.geo == s.geo)
  {
  }

  /** `cmcd.bs` and `cmcd.mtp` are written as given when truthy, and otherwise
      leave their family untouched. */
  lemma CmcdGuard(s: Snapshot, r: Report)
    ensures var t, id := Ingested(s, r), ClientLabel(r);
      var bs, mtp := OptionalGet(r.cmcd, "bs"), OptionalGet(r.cmcd, "mtp");
      && (Truthy(bs) ==> Get(t.bufferStarvation, [id]) == Some(bs))
      && (!Truthy(bs) ==> t.bufferStarvation == s.bufferStarvation)
      && (Truthy(mtp) ==> Get(t.measuredThroughput, [id]) == Some(mtp))
      && (!Truthy(mtp) ==> t.measuredThroughput == s.measuredThroughput)
  {
  }

  /** A `cmcd.bs` or `cmcd.mtp` of 0 is dropped (0 is falsy), and so is
      everything under a `cmcd` that is absent or `null`. */
  lemma CmcdZeroOrAbsentDropped(s: Snapshot, r: Report)
    ensures var t := Ingested(s, r);
      && (r.cmcd == Undefined || r.cmcd == Null ==>
            t.bufferStarvation == s.bufferStarvation && t.measuredThroughput == s.measuredThroughput)
      && (OptionalGet(r.cmcd, "bs") == Number(Finite(0.0)) ==> t.bufferStarvation == s.bufferStarvation)
      && (OptionalGet(r.cmcd, "mtp") == Number(Finite(0.0)) ==> t.measuredThroughput == s.measuredThroughput)
  {
  }

  // ---------------------------------------------------------------------------
  // Attribution, independence and isolation

  /** An ingest changes only series attributed to the report's client. */
  lemma OnlyOwnClientChanges(s: Snapshot, r: Report)
    ensures forall k :: !AttributedTo(k, ClientLabel(r)) ==> AgreeAt(s, Ingested(s, r), k)
  {
  }

  /** Without a `clientId`, every write of the report is attributed to
      `"default"`; a `null` or other present `clientId` is used as given. */
  lemma DefaultClientAttribution(s: Snapshot, r: Report)
    ensures r.clientId == Undefined ==>
      forall k :: !AttributedTo(k, Str("default")) ==> AgreeAt(s, Ingested(s, r), k)
    ensures r.clientId != Undefined ==>
      forall k :: !AttributedTo(k, r.clientId) ==> AgreeAt(s, Ingested(s, r), k)
  {
    OnlyOwnClientChanges(s, r);
  }

  /** Fields are independent: what a family ends up holding depends only on
      the client and the field that feeds it, so an invalid or absent sibling
      field never prevents (or causes) a write. */
  lemma FieldsIndependent(s: Snapshot, r1: Report, r2: Report)
    requires ClientLabel(r1) == ClientLabel(r2)
    ensures var t1, t2 := Ingested(s, r1), Ingested(s, r2);
      && (r1.bufferLevel == r2.bufferLevel ==> t1.bufferLevel == t2.bufferLevel)
      && (r1.bitrate == r2.bitrate ==> t1.bitrate == t2.bitrate)
      && (r1.rebuffering == r2.rebuffering ==> t1.rebuffering == t2.rebuffering)
      && (r1.clientInfo == r2.clientInfo ==> t1.geo == t2.geo)
      && (r1.cmcd == r2.cmcd ==> t1.bufferStarvation == t2.bufferStarvation)
      && (r1.cmcd == r2.cmcd ==> t1.measuredThroughput == t2.measuredThroughput)
  {
  }

  /** Writes to different label sets commute, for each kind of guarded write. */
  lemma PutCommutes(m: GaugeSeries, k1: Labels, v1: JsValue, k2: Labels, v2: JsValue)
    requires k1 != k2
    ensures Put(Put(m, k1, v1), k2, v2) == Put(Put(m, k2, v2), k1, v1)
  {
  }

  lemma IncCommutes(m: CounterSeries, k1: Labels, k2: Labels)
    requires k1 != k2
    ensures Inc(Inc(m, k1), k2) == Inc(Inc(m, k2), k1)
  {
  }

  lemma SetIfNumberCommutes(m: GaugeSeries, k1: Labels, v1: JsValue, k2: Labels, v2: JsValue)
    requires k1 != k2
    ensures SetIfNumber(SetIfNumber(m, k1, v1), k2, v2) == SetIfNumber(SetIfNumber(m, k2, v2), k1, v1)
  {
  }

  lemma SetIfTruthyCommutes(m: GaugeSeries, k1: Labels, g1: JsValue, v1: JsValue,
                            k2: Labels, g2: JsValue, v2: JsValue)
    requires k1 != k2
    ensures SetIfTruthy(SetIfTruthy(m, k1, g1, v1), k2, g2, v2)
         == SetIfTruthy(SetIfTruthy(m, k2, g2, v2), k1, g1, v1)
  {
  }

  /** Isolation by label: reports from two different clients give the same
      registry whichever is ingested first, so neither can disturb the
      other's series. */
  lemma DifferentClientsCommute(s: Snapshot, r1: Report, r2: Report)
    requires ClientLabel(r1) != ClientLabel(r2)
    ensures Ingested(Ingested(s, r1), r2) == Ingested(Ingested(s, r2), r1)
  {
    var id1, id2 := ClientLabel(r1), ClientLabel(r2);
    var g1, g2 := OptionalGet(r1.clientInfo, "region"), OptionalGet(r2.clientInfo, "region");
    var b1, b2 := OptionalGet(r1.cmcd, "bs"), OptionalGet(r2.cmcd, "bs");
    var m1, m2 := OptionalGet(r1.cmcd, "mtp"), OptionalGet(r2.cmcd, "mtp");
    assert [id1] != [id2] by { assert [id1][0] != [id2][0]; }
    assert [id1, g1] != [id2, g2] by { assert [id1, g1][0] != [id2, g2][0]; }
    SetIfNumberCommutes(s.bufferLevel, [id1], r1.bufferLevel, [id2], r2.bufferLevel);
    SetIfNumberCommutes(s.bitrate, [id1], r1.bitrate, [id2], r2.bitrate);
    if Truthy(r1.rebuffering) && Truthy(r2.rebuffering) { IncCommutes(s.rebuffering, [id1], [id2]); }
    SetIfTruthyCommutes(s.geo, [id1, g1], g1, One, [id2, g2], g2, One);
    SetIfTruthyCommutes(s.bufferStarvation, [id1], b1, b1, [id2], b2, b2);
    SetIfTruthyCommutes(s.measuredThroughput, [id1], m1, m1, [id2], m2, m2);
  }

  // ---------------------------------------------------------------------------
  // A sequence of reports, ingested in order

  /** The registry after every report of `rs` has been ingested into `s`, in order. */
  function IngestAll(s: Snapshot, rs: seq<Report>): Snapshot
    decreases |rs|
  {
    if rs == [] then s else Ingested(IngestAll(s, rs[..|rs| - 1]), rs[|rs| - 1])
  }

  /** How many reports of `rs` carry a truthy `rebuffering` for client `c`. */
  function RebufferingEvents(rs: seq<Report>, c: JsValue): nat
    decreases |rs|
  {
    if rs == [] then 0
    else RebufferingEvents(rs[..|rs| - 1], c)
         + (if ClientLabel(rs[|rs| - 1]) == c && Truthy(rs[|rs| - 1].rebuffering) then 1 else 0)
  }

  /** The last `bufferLevel` of `rs` that passed the numeric guard for client `c`, if any. */
  function LatestBufferLevel(rs: seq<Report>, c: JsValue): Option<JsValue>
    decreases |rs|
  {
    if rs == [] then None
    else if ClientLabel(rs[|rs| - 1]) == c && IsNumberNotNaN(rs[|rs| - 1].bufferLevel)
    then Some(rs[|rs| - 1].bufferLevel)
    else LatestBufferLevel(rs[..|rs| - 1], c)
  }

  /** The rebuffering counter of client `c` grows by exactly the number of
      truthy `rebuffering` reports attributed to `c`. */
  lemma {:induction false} RebufferingCountsEvents(s: Snapshot, rs: seq<Report>, c: JsValue)
    ensures Count(IngestAll(s, rs).rebuffering, [c])
         == Count(s.rebuffering, [c]) + RebufferingEvents(rs, c)
    decreases |rs|
  {
    if rs != [] {
      var init, last := rs[..|rs| - 1], rs[|rs| - 1];
      RebufferingCountsEvents(s, init, c);
      RebufferingStep(IngestAll(s, init), last);
    }
  }

  /** N reports for the same client, each with a truthy `rebuffering`, raise
      that client's counter by exactly N. */
  lemma {:induction false} RepeatedRebufferingAddsN(s: Snapshot, rs: seq<Report>, c: JsValue)
    requires forall i :: 0 <= i < |rs| ==> ClientLabel(rs[i]) == c && Truthy(rs[i].rebuffering)
    ensures Count(IngestAll(s, rs).rebuffering, [c]) == Count(s.rebuffering, [c]) + |rs|
  {
    EventsOfAllTruthy(rs, c);
    RebufferingCountsEvents(s, rs, c);
  }

  lemma {:induction false} EventsOfAllTruthy(rs: seq<Report>, c: JsValue)
    requires forall i :: 0 <= i < |rs| ==> ClientLabel(rs[i]) == c && Truthy(rs[i].rebuffering)
    ensures RebufferingEvents(rs, c) == |rs|
    decreases |rs|
  {
    if rs != [] {
      EventsOfAllTruthy(rs[..|rs| - 1], c);
    }
  }

  /** No sequence of reports ever lowers any rebuffering counter. */
  lemma {:induction false} CounterNeverDecreases(s: Snapshot, rs: seq<Report>, k: Labels)
    ensures Count(IngestAll(s, rs).rebuffering, k) >= Count(s.rebuffering, k)
    decreases |rs|
  {
    if rs != [] {
      var init := rs[..|rs| - 1];
      CounterNeverDecreases(s, init, k);
      RebufferingStep(IngestAll(s, init), rs[|rs| - 1]);
    }
  }

  /** Last write wins across reports: after a sequence of reports, a client's
      buffer level is the last one of its reports that passed the numeric
      guard, or what it was before when none did. */
  lemma {:induction false} BufferLevelIsLatest(s: Snapshot, rs: seq<Report>, c: JsValue)
    ensures Get(IngestAll(s, rs).bufferLevel, [c]) ==
      match LatestBufferLevel(rs, c)
      case Some(v) => Some(v)
      case None => Get(s.bufferLevel, [c])
    decreases |rs|
  {
    if rs != [] {
      var init, last := rs[..|rs| - 1], rs[|rs| - 1];
      BufferLevelIsLatest(s, init, c);
      BufferLevelGuard(IngestAll(s, init), last);
    }
  }

  /** The two worked scenarios: one report with a buffer level and a bitrate,
      and three rebuffering reports from the same client into an empty registry. */
  lemma ExampleScenarios()
    ensures var r := Report(Number(Finite(12.5)), Number(Finite(3000.0)), Undefined,
                            Str("abc"), Undefined, Undefined);
      var t := Ingested(Empty, r);
      Get(t.bufferLevel, [Str("abc")]) == Some(Number(Finite(12.5)))
      && Get(t.bitrate, [Str("abc")]) == Some(Number(Finite(3000.0)))
    ensures var r := Report(Undefined, Undefined, Bool(true), Str("abc"), Undefined, Undefined);
      Count(IngestAll(Empty, [r, r, r]).rebuffering, [Str("abc")]) == 3
  {
    var r := Report(Undefined, Undefined, Bool(true), Str("abc"), Undefined, Undefined);
    RepeatedRebufferingAddsN(Empty, [r, r, r], Str("abc"));
  }
}
