/** The single-property KubeEdge device-twin mapper (utils/mapper).

    A mapper owns one device name and one property. It talks to the edge
    broker on the `$hw/events/device/<name>` topic namespace and reconciles
    the property on two inbound messages: the twin-get result (drive the
    device towards `expected`, then report) and the twin-update result
    (re-request the twin when an `expected` value is pending).

    Publishing is modelled as appending a `Publication` record; an inbound
    message is an already-decoded snapshot of the managed property. Each
    handler is a pure function from (configuration, driver, message) to a
    `Step`: the new driver, the driver `resolve` calls made, and the
    publications, in order. */
module Mapper {
  import opened Base

  // ---------------------------------------------------------------------
  // Topic namespace
  // ---------------------------------------------------------------------

  const TOPIC_PREFIX: string := "$hw/events/device/"
  const STATE_UPDATE: string := "/state/update"
  const TWIN_GET: string := "/twin/get"
  const TWIN_GET_RESULT: string := "/twin/get/result"
  const TWIN_UPDATE: string := "/twin/update"
  const TWIN_UPDATE_RESULT: string := "/twin/update/result"
  /** The broker reports malformed twin updates of every device here. */
  const UPDATE_ERROR_TOPIC: string := "$hw/events/device//twin/update/result"

  /** The suffixes the mapper appends to its topic base. */
  const SUFFIXES: seq<string> := [STATE_UPDATE, TWIN_GET, TWIN_GET_RESULT, TWIN_UPDATE, TWIN_UPDATE_RESULT]

  /** Identity of one mapper: device name, read-only flag, managed property. */
  datatype Config = Config(name: string, readonly: bool, property: string)

  /** `_topic_base`: every topic of the device starts with it. */
  function TopicBase(c: Config): string {
    TOPIC_PREFIX + c.name
  }

  /** The topic used by `subscribe_suffix` and `publish_suffix`. */
  function Topic(c: Config, suffix: string): string {
    TopicBase(c) + suffix
  }

  /** Recovers the suffix of a topic of this device, if it is one. */
  function SuffixOf(c: Config, t: string): (r: Option<string>)
    ensures r.Some? ==> Topic(c, r.value) == t
  {
    var b := TopicBase(c);
    if |b| <= |t| && t[..|b|] == b then
      assert t == b + t[|b|..];
      Some(t[|b|..])
    else None
  }

  /** Every device topic is the fixed prefix, the name, then the suffix untouched:
      the suffix can always be read back, and two suffixes never share a topic. */
  lemma TopicKeepsSuffix(c: Config, suffix: string, other: string)
    ensures SuffixOf(c, Topic(c, suffix)) == Some(suffix)
    ensures Topic(c, suffix)[..|TOPIC_PREFIX|] == TOPIC_PREFIX
    ensures Topic(c, suffix) == Topic(c, other) ==> suffix == other
  {
    var b := TopicBase(c);
    assert Topic(c, suffix)[..|b|] == b;
    assert Topic(c, suffix)[|b|..] == suffix;
    if Topic(c, suffix) == Topic(c, other) {
      assert Topic(c, other)[|b|..] == other;
    }
  }

  /** The six topics a device uses are pairwise distinct, and the global error
      topic is the update-result topic of the device with the empty name. */
  lemma TopicsDistinct(c: Config)
    ensures forall i, j :: 0 <= i < j < |SUFFIXES| ==> Topic(c, SUFFIXES[i]) != Topic(c, SUFFIXES[j])
    ensures UPDATE_ERROR_TOPIC == Topic(Config("", c.readonly, c.property), TWIN_UPDATE_RESULT)
  {
    forall i, j | 0 <= i < j < |SUFFIXES|
      ensures Topic(c, SUFFIXES[i]) != Topic(c, SUFFIXES[j])
    {
      TopicKeepsSuffix(c, SUFFIXES[i], SUFFIXES[j]);
    }
  }

  // ---------------------------------------------------------------------
  // Wire records
  // ---------------------------------------------------------------------

  /** One property of a twin document: optional actual and expected values
      (the `value` fields) and the optional metadata type. */
  datatype TwinEntry = TwinEntry(actual: Option<string>, expected: Option<string>, metadataType: Option<string>)

  /** The envelope of `update_twin`: event id, integer timestamp, twin document. */
  datatype Envelope = Envelope(eventId: string, timestamp: int, twin: map<string, TwinEntry>)

  /** Payloads the mapper publishes: `{}`, `{"state": s}`, or an update envelope. */
  datatype Payload = EmptyObject | StateReport(state: string) | TwinUpdate(envelope: Envelope)

  datatype Publication = Publication(topic: string, payload: Payload)

  /** An inbound twin document, already decoded for the managed property.
      `Malformed` stands for a body whose JSON decoding or indexing raises. */
  datatype Inbound = Snapshot(expected: Option<string>, actual: Option<string>) | Malformed

  /** Decodes a twin document for one property: a missing property raises. */
  function SnapshotOf(twin: map<string, TwinEntry>, property: string): (m: Inbound)
    ensures m.Malformed? <==> property !in twin
    ensures m.Snapshot? ==> m.expected == twin[property].expected && m.actual == twin[property].actual
  {
    if property in twin then Snapshot(twin[property].expected, twin[property].actual) else Malformed
  }

  /** `get_twin`: an empty object on `/twin/get`. */
  function GetTwin(c: Config): Publication {
    Publication(Topic(c, TWIN_GET), EmptyObject)
  }

  /** `_update_state`. */
  function UpdateState(c: Config, state: string): Publication {
    Publication(Topic(c, STATE_UPDATE), StateReport(state))
  }

  /** `update_twin(value)` with the clock reading `now` (seconds). */
  function UpdateTwin(c: Config, value: string, now: int): (p: Publication)
    ensures p.topic == Topic(c, TWIN_UPDATE) && p.payload.TwinUpdate?
    ensures p.payload.envelope.eventId == "" && p.payload.envelope.timestamp == now
    ensures p.payload.envelope.twin.Keys == {c.property}
    ensures p.payload.envelope.twin[c.property] == TwinEntry(Some(value), None, Some("Updated"))
  {
    Publication(Topic(c, TWIN_UPDATE),
      TwinUpdate(Envelope("", now, map[c.property := TwinEntry(Some(value), None, Some("Updated"))])))
  }

  /** The envelope `update_twin` publishes never carries an `expected` value, so
      when the broker echoes it back on the update-result topic the mapper does
      not re-request the twin (the loop is quiescent). */
  lemma EchoedReportIsQuiescent(c: Config, value: string, now: int)
    ensures var p := UpdateTwin(c, value, now);
      && SnapshotOf(p.payload.envelope.twin, c.property).Snapshot?
      && SnapshotOf(p.payload.envelope.twin, c.property).expected.None?
      && OnTwinUpdateResult(c, SnapshotOf(p.payload.envelope.twin, c.property)) == []
  {
  }

  // ---------------------------------------------------------------------
  // Start-up: handlers, subscriptions, online announcement
  // ---------------------------------------------------------------------

  datatype Handler = GetResultHandler | UpdateResultHandler

  /** What `Mapper.__init__` leaves behind: per-topic callbacks (the default
      `_on_message` only logs), subscriptions in order, and publications. */
  datatype Setup = Setup(callbacks: map<string, Handler>, subscriptions: seq<string>, published: seq<Publication>)

  function Start(c: Config): (s: Setup)
    // only writable devices get the two reconciliation callbacks ...
    ensures !c.readonly ==> s.callbacks == map[Topic(c, TWIN_GET_RESULT) := GetResultHandler,
                                               Topic(c, TWIN_UPDATE_RESULT) := UpdateResultHandler]
    ensures c.readonly ==> s.callbacks == map[]
    // ... and only they subscribe to the get result
    ensures Topic(c, TWIN_GET_RESULT) in s.subscriptions <==> !c.readonly
    // every device subscribes to its update result and the error topic, in
    // this order, and to nothing else
    ensures |s.subscriptions| == if c.readonly then 2 else 3
    ensures s.subscriptions[|s.subscriptions| - 2..] == [Topic(c, TWIN_UPDATE_RESULT), UPDATE_ERROR_TOPIC]
    // and then announces itself online, once
    ensures s.published == [Publication(Topic(c, STATE_UPDATE), StateReport("online"))]
  {
    var callbacks := if c.readonly then map[]
      else map[Topic(c, TWIN_GET_RESULT) := GetResultHandler, Topic(c, TWIN_UPDATE_RESULT) := UpdateResultHandler];
    var first := if c.readonly then [] else [Topic(c, TWIN_GET_RESULT)];
    TopicsDistinct(c);
    assert TopicBase(c)[..|TOPIC_PREFIX|] == TOPIC_PREFIX;
    assert Topic(c, TWIN_GET_RESULT) != UPDATE_ERROR_TOPIC by {
      var t := Topic(c, TWIN_GET_RESULT);
      assert t[|t| - |TWIN_GET_RESULT|..] == TWIN_GET_RESULT;
      assert UPDATE_ERROR_TOPIC[|UPDATE_ERROR_TOPIC| - |TWIN_GET_RESULT|..] != TWIN_GET_RESULT by {
        assert UPDATE_ERROR_TOPIC[|UPDATE_ERROR_TOPIC| - |TWIN_GET_RESULT|] == 'i';
      }
    }
    Setup(callbacks, first + [Topic(c, TWIN_UPDATE_RESULT), UPDATE_ERROR_TOPIC], [UpdateState(c, "online")])
  }

  // ---------------------------------------------------------------------
  // Device drivers
  // ---------------------------------------------------------------------

  /** The two driver variants: a binary actuator and a read-only sensor. */
  datatype Driver = Switch(status: string) | Temp(status: string)

  /** `Switch("...")`: writable property "status", initially off. */
  function NewSwitch(name: string): (r: (Config, Driver))
    ensures r.0 == Config(name, false, "status") && r.1 == Switch("0")
  {
    (Config(name, false, "status"), Switch("0"))
  }

  /** `Temp("...")`: read-only property "temperature", initially "0". */
  function NewTemp(name: string): (r: (Config, Driver))
    ensures r.0 == Config(name, true, "temperature") && r.1 == Temp("0")
  {
    (Config(name, true, "temperature"), Temp("0"))
  }

  /** `resolve(expected, actual)`. The switch accepts exactly "0" and "1" and
      logs anything else; the sensor inherits the base class's no-op. The
      `actual` argument is never consulted. */
  function Resolve(d: Driver, expected: string, actual: Option<string>): Driver {
    match d
    case Switch(_) =>
      if expected == "0" then Switch("0")
      else if expected == "1" then Switch("1")
      else d
    case Temp(_) => d
  }

  /** `get_actual()`: the stored status of either driver. */
  function GetActual(d: Driver): string {
    d.status
  }

  /** The switch's invariant: its status is "0" or "1". */
  predicate SwitchOk(d: Driver) {
    d.Switch? ==> d.status in {"0", "1"}
  }

  /** Switch `resolve`: "0" and "1" are obeyed, anything else leaves the state as
      it was; the answer does not depend on `actual`; the invariant is kept. */
  lemma SwitchResolve(d: Driver, expected: string, actual: Option<string>, other: Option<string>)
    requires d.Switch?
    ensures expected in {"0", "1"} ==> Resolve(d, expected, actual) == Switch(expected)
    ensures expected !in {"0", "1"} ==> Resolve(d, expected, actual) == d
    ensures Resolve(d, expected, actual) == Resolve(d, expected, other)
    ensures SwitchOk(d) ==> SwitchOk(Resolve(d, expected, actual))
    ensures GetActual(Resolve(d, expected, actual)) == expected <==> expected in {"0", "1"} || d.status == expected
  {
  }

  // ---------------------------------------------------------------------
  // Reconciliation handlers
  // ---------------------------------------------------------------------

  datatype ResolveCall = ResolveCall(expected: string, actual: Option<string>)

  /** The observable outcome of one handled message. */
  datatype Step = Step(driver: Driver, resolved: seq<ResolveCall>, published: seq<Publication>)

  function NoOp(d: Driver): Step {
    Step(d, [], [])
  }

  /** `_on_twin_get`, with the clock reading `now` for the report. */
  function OnTwinGet(c: Config, d: Driver, m: Inbound, now: int): (s: Step)
    // no pending `expected` (or an undecodable body): nothing happens, whatever `actual` is
    ensures (m.Malformed? || m.expected.None?) ==> s == NoOp(d)
    // converged: nothing happens
    ensures m.Snapshot? && m.expected.Some? && m.actual == m.expected ==> s == NoOp(d)
    // otherwise exactly one resolve, then exactly one report of the driver's new reading
    ensures m.Snapshot? && m.expected.Some? && m.actual != m.expected ==>
      && s.driver == Resolve(d, m.expected.value, m.actual)
      && s.resolved == [ResolveCall(m.expected.value, m.actual)]
      && s.published == [UpdateTwin(c, GetActual(s.driver), now)]
    // a report is published exactly when a resolve happened
    ensures |s.published| == |s.resolved| <= 1
  {
    match m
    case Malformed => NoOp(d)
    case Snapshot(expected, actual) =>
      if expected.None? then NoOp(d)
      else if actual.None? || actual.value != expected.value then
        var d' := Resolve(d, expected.value, actual);
        Step(d', [ResolveCall(expected.value, actual)], [UpdateTwin(c, GetActual(d'), now)])
      else NoOp(d)
  }

  /** `_on_twin_update_result`: re-request the twin when `expected` is present. */
  function OnTwinUpdateResult(c: Config, m: Inbound): (out: seq<Publication>)
    ensures (m.Malformed? || m.expected.None?) ==> out == []
    ensures m.Snapshot? && m.expected.Some? ==> out == [Publication(Topic(c, TWIN_GET), EmptyObject)]
  {
    if m.Snapshot? && m.expected.Some? then [GetTwin(c)] else []
  }

  /** Delivery of one broker message: paho runs the callback registered for the
      exact topic, otherwise the logging `_on_message`. The update-result
      handler never touches the driver. */
  function Deliver(c: Config, setup: Setup, d: Driver, topic: string, m: Inbound, now: int): (s: Step)
    ensures topic !in setup.callbacks ==> s == NoOp(d)
    ensures topic in setup.callbacks && setup.callbacks[topic] == UpdateResultHandler ==>
      s == Step(d, [], OnTwinUpdateResult(c, m))
    ensures topic in setup.callbacks && setup.callbacks[topic] == GetResultHandler ==>
      s == OnTwinGet(c, d, m, now)
  {
    if topic !in setup.callbacks then NoOp(d)
    else match setup.callbacks[topic]
      case GetResultHandler => OnTwinGet(c, d, m, now)
      case UpdateResultHandler => Step(d, [], OnTwinUpdateResult(c, m))
  }

  /** A read-only device (the sensor) only logs what it receives: no message on
      any topic resolves its driver, asks for the twin, or publishes anything. */
  lemma ReadOnlyOnlyLogs(c: Config, d: Driver, topic: string, m: Inbound, now: int)
    requires c.readonly
    ensures Deliver(c, Start(c), d, topic, m, now) == NoOp(d)
  {
  }

  /** On a writable device the update-result topic never resolves the driver and
      publishes one `{}` on `/twin/get` exactly when `expected` is present. */
  lemma UpdateResultNeverResolves(c: Config, d: Driver, m: Inbound, now: int)
    requires !c.readonly
    ensures var s := Deliver(c, Start(c), d, Topic(c, TWIN_UPDATE_RESULT), m, now);
      && s.driver == d && s.resolved == []
      && (|s.published| == 1 <==> m.Snapshot? && m.expected.Some?)
      && (s.published != [] ==> s.published == [GetTwin(c)])
  {
    TopicsDistinct(c);
  }

  /** Convergence for the switch: after one reconciliation of an in-domain
      `expected`, the device reports `expected`; a snapshot whose actual is that
      report is handled as a no-op, so no republish storm follows. */
  lemma SwitchConverges(c: Config, d: Driver, e: string, a: Option<string>, now: int, later: int)
    requires d.Switch? && e in {"0", "1"} && a != Some(e)
    ensures var s := OnTwinGet(c, d, Snapshot(Some(e), a), now);
      && s.published == [UpdateTwin(c, e, now)]
      && OnTwinGet(c, s.driver, Snapshot(Some(e), Some(e)), later) == NoOp(s.driver)
  {
  }

  /** Duplicate delivery: handling the same get-result twice leaves the driver as
      one handling does, and the second report (if any) repeats the first. */
  lemma DuplicateDeliveryIdempotent(c: Config, d: Driver, m: Inbound, now: int)
    ensures var s1 := OnTwinGet(c, d, m, now);
      var s2 := OnTwinGet(c, s1.driver, m, now);
      s2.driver == s1.driver && s2.published == s1.published
  {
  }

  /** An out-of-domain `expected` on the switch (with a mismatching actual) leaves
      the status unchanged, yet the unchanged status is still reported. */
  lemma SwitchOutOfDomainStillReports(c: Config, d: Driver, e: string, a: Option<string>, now: int)
    requires d.Switch? && e !in {"0", "1"} && a != Some(e)
    ensures var s := OnTwinGet(c, d, Snapshot(Some(e), a), now);
      s.driver == d && s.published == [UpdateTwin(c, d.status, now)]
  {
  }

  /** The switch's invariant survives every delivered message. */
  lemma SwitchInvariantKept(c: Config, d: Driver, topic: string, m: Inbound, now: int)
    requires d.Switch? && SwitchOk(d)
    ensures SwitchOk(Deliver(c, Start(c), d, topic, m, now).driver)
  {
    if topic in Start(c).callbacks && Start(c).callbacks[topic] == GetResultHandler && m.Snapshot? && m.expected.Some? {
      SwitchResolve(d, m.expected.value, m.actual, m.actual);
    }
  }

  // ---------------------------------------------------------------------
  // The sensor's sampling loop
  // ---------------------------------------------------------------------

  /** Outcome of the sampling loop: the driver, the reports, and whether the
      loop died on a line that `float()` rejects. */
  datatype SampleRun = SampleRun(driver: Driver, published: seq<Publication>, crashed: bool)

  /** Index of the first line `numeric` rejects, or `|lines|`. */
  function FirstRejected(lines: seq<string>, numeric: string -> bool): (k: nat)
    ensures k <= |lines|
    ensures forall i :: 0 <= i < k ==> numeric(lines[i])
    ensures k < |lines| ==> !numeric(lines[k])
  {
    if |lines| == 0 then 0
    else if !numeric(lines[0]) then 0
    else 1 + FirstRejected(lines[1..], numeric)
  }

  /** The `__main__` loop of temp.py over the lines read, with one clock reading
      per line: a numeric line is reported with `update_twin(line)` and then
      stored; a non-numeric line raises before any report or store. */
  function SampleLoop(c: Config, d: Driver, lines: seq<string>, stamps: seq<int>, numeric: string -> bool): SampleRun
    requires |stamps| == |lines|
    decreases |lines|
  {
    if |lines| == 0 then SampleRun(d, [], false)
    else if !numeric(lines[0]) then SampleRun(d, [], true)
    else
      var rest := SampleLoop(c, d.(status := lines[0]), lines[1..], stamps[1..], numeric);
      SampleRun(rest.driver, [UpdateTwin(c, lines[0], stamps[0])] + rest.published, rest.crashed)
  }

  /** Each accepted line produces exactly one report of that line, in order; the
      status afterwards is the last accepted line; the loop dies exactly when a
      line is rejected, and a rejected line is neither reported nor stored. */
  lemma {:induction false} SampleLoopReports(c: Config, d: Driver, lines: seq<string>, stamps: seq<int>, numeric: string -> bool)
    requires |stamps| == |lines|
    ensures var r := SampleLoop(c, d, lines, stamps, numeric);
      var k := FirstRejected(lines, numeric);
      && |r.published| == k
      && (forall i :: 0 <= i < k ==> r.published[i] == UpdateTwin(c, lines[i], stamps[i]))
      && r.crashed == (k < |lines|)
      && r.driver == (if k == 0 then d else d.(status := lines[k - 1]))
    decreases |lines|
  {
    if |lines| > 0 && numeric(lines[0]) {
      SampleLoopReports(c, d.(status := lines[0]), lines[1..], stamps[1..], numeric);
    }
  }
}
