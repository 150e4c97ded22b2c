/** The controller's side of the executor protocol: the header check, the
    connect handshake, the per-session message loop, and the two status
    updates an executor sends back (controller/common/src/session.rs).
    The gRPC stream is a sequence of already-received events, the scheduler
    channel answers inside each `Continue` event, and the Kubernetes patch
    calls become a returned patch plus a success flag supplied by the caller. */
module Session {
  import opened Base
  import opened Ids
  import opened ScriptApi
  import opened DeviceApi
  import opened Proto
  import opened Scheduler

  const RE_VERSION: string := "re-version"

  /** A request header's value: visible ASCII text, or bytes `to_str` rejects. */
  datatype HeaderValue = Visible(text: string) | Opaque

  /** The version text the server compares: missing or unreadable reads as "". */
  function ClientVersion(headers: map<string, HeaderValue>): (v: string)
    ensures RE_VERSION !in headers ==> v == ""
    ensures RE_VERSION in headers && headers[RE_VERSION].Opaque? ==> v == ""
    ensures RE_VERSION in headers && headers[RE_VERSION].Visible? ==> v == headers[RE_VERSION].text
  {
    if RE_VERSION in headers && headers[RE_VERSION].Visible? then headers[RE_VERSION].text else ""
  }

  /** `validate_metadata`: the client's version must equal the server's. */
  function ValidateMetadata(headers: map<string, HeaderValue>, serverVersion: string): (r: Result<(), Status>)
    ensures r.Ok? <==> ClientVersion(headers) == serverVersion
    ensures r.Err? ==> r.error == Status(InvalidArgument,
      "Version mismatch, server: " + serverVersion + ", client: " + ClientVersion(headers))
  {
    var version := ClientVersion(headers);
    if version != serverVersion then
      Err(Status(InvalidArgument, "Version mismatch, server: " + serverVersion + ", client: " + version))
    else Ok(())
  }

  /** One read from the client stream: a message, the end, or a transport error. */
  datatype StreamItem = Item(msg: ClientMessage) | End | Failure

  /** `handle_first_message`: only a `Connect` carrying client info opens a session. */
  function HandleFirstMessage(first: StreamItem): (r: Result<(), Status>)
    ensures r.Ok? <==> first.Item? && first.msg.code == Connect && first.msg.info.Some?
    ensures first.Failure? ==> r == Err(Status(Unknown, "Got error on connect message"))
    ensures first.End? ==> r == Err(Status(InvalidArgument, "Got None on connect message"))
    ensures first.Item? && first.msg.code != Connect ==>
      r == Err(Status(InvalidArgument, "First message is not connect message"))
    ensures first.Item? && first.msg.code == Connect && first.msg.info.None? ==>
      r == Err(Status(InvalidArgument, "Connect message don't have connection field"))
  {
    match first
    case Item(m) =>
      if m.code != Connect then Err(Status(InvalidArgument, "First message is not connect message"))
      else if m.info.None? then Err(Status(InvalidArgument, "Connect message don't have connection field"))
      else Ok(())
    case End => Err(Status(InvalidArgument, "Got None on connect message"))
    case Failure => Err(Status(Unknown, "Got error on connect message"))
  }

  /** Which executor runs a script, and under which resource name. */
  datatype ScriptEntry = ScriptEntry(name: string, namespace: string, executor: ExecutorId)

  /** `SessionManager`: running scripts by id, connected executors with their
      address, and the executor id counter. */
  datatype SessionManager = SessionManager(
    scripts: map<u32, ScriptEntry>,
    executors: map<ExecutorId, string>,
    idgen: ExecutorIdGenerator)

  function NewSessionManager(): (m: SessionManager)
    ensures m.scripts == map[] && m.executors == map[] && m.idgen.inner == NEW_GENERATOR
  {
    SessionManager(map[], map[], ExecutorIdGenerator(NEW_GENERATOR))
  }

  /** What can happen next in a session's loop. `Received` carries, for a
      `Continue`, what the scheduler channel gave (`None`: it is closed). */
  datatype LoopEvent =
    | Received(msg: ClientMessage, task: Option<ManagerMsg>)
    | StreamError
    | StreamEnd
    | ServerStopping

  type Reply = Result<ServerMessage, Status>

  function Connected(id: ExecutorId): ServerMessage {
    ServerMessage(Some(Msg.Connected(ExecutorIdToU32(id))))
  }

  function DisconnectMessage(reason: DisconnectReason): ServerMessage {
    ServerMessage(Some(Disconnected(reason)))
  }

  /** One turn of the loop: the new manager, what is yielded (if anything),
      and whether the loop goes on. */
  function LoopStep(m: SessionManager, exec: ExecutorId, ev: LoopEvent): (r: (SessionManager, Option<Reply>, bool))
    ensures r.2 <==> ev.Received? && ev.msg.code == Continue && ev.task.Some?
    ensures r.1.None? <==> ev.StreamEnd?
    ensures r.0.executors == m.executors && r.0.idgen == m.idgen
    ensures !r.2 ==> r.0 == m
  {
    match ev
    case Received(msg, task) =>
      (match msg.code
       case Continue =>
         (match task
          case None => (m, Some(Err(Status(Internal, "Scheduler is down"))), false)
          case Some(t) =>
            var entry := ScriptEntry(t.name, t.namespace, exec);
            (m.(scripts := m.scripts[t.run.scriptId := entry]), Some(Ok(ServerMessage(Some(Msg.Script(t.run))))), true))
       case Connect => (m, Some(Err(Status(InvalidArgument, "Got unexpect Connect message"))), false)
       case Disconnect => (m, Some(Ok(DisconnectMessage(ClientExit))), false))
    case StreamError => (m, Some(Err(Status(InvalidArgument, "Got unexpect Error"))), false)
    case StreamEnd => (m, None, false)
    case ServerStopping => (m, Some(Ok(DisconnectMessage(ServerExit))), false)
  }

  /** The loop over the events seen so far: the manager, the replies yielded,
      and whether the loop has ended. On ending, the executor is removed. */
  function RunLoop(m: SessionManager, exec: ExecutorId, evs: seq<LoopEvent>): (r: (SessionManager, seq<Reply>, bool))
    ensures r.0.idgen == m.idgen
    ensures r.2 ==> r.0.executors == m.executors - {exec}
    ensures !r.2 ==> r.0.executors == m.executors
    ensures |r.1| <= |evs|
    decreases |evs|
  {
    if |evs| == 0 then (m, [], false)
    else
      var (m', out, goOn) := LoopStep(m, exec, evs[0]);
      var yielded := if out.Some? then [out.value] else [];
      if !goOn then (m'.(executors := m'.executors - {exec}), yielded, true)
      else
        var (m'', rest, ended) := RunLoop(m', exec, evs[1..]);
        (m'', yielded + rest, ended)
  }

  /** `run`: header check, handshake, a fresh executor id registered with
      the client's address, then the `Connected` reply and the loop. A
      rejected connection leaves the manager untouched and consumes no id. */
  function Run(m: SessionManager, headers: map<string, HeaderValue>, serverVersion: string,
               addr: string, first: StreamItem, evs: seq<LoopEvent>): (r: Result<(SessionManager, seq<Reply>, bool), Status>)
    ensures r.Err? <==> ValidateMetadata(headers, serverVersion).Err? || HandleFirstMessage(first).Err?
    ensures r.Err? ==> r.error == (if ValidateMetadata(headers, serverVersion).Err?
                                   then ValidateMetadata(headers, serverVersion).error
                                   else HandleFirstMessage(first).error)
    ensures r.Ok? ==>
      var exec := GenExecutor(m.idgen).0;
      && |r.value.1| >= 1 && r.value.1[0] == Ok(Connected(exec))
      && r.value.0.idgen == GenExecutor(m.idgen).1
      && (r.value.2 ==> r.value.0.executors == m.executors - {exec})
      && (!r.value.2 ==> r.value.0.executors == m.executors[exec := addr])
  {
    var _ :- ValidateMetadata(headers, serverVersion);
    var _ :- HandleFirstMessage(first);
    var (exec, gen') := GenExecutor(m.idgen);
    var m1 := m.(executors := m.executors[exec := addr], idgen := gen');
    var (m2, replies, ended) := RunLoop(m1, exec, evs);
    Ok((m2, [Ok(Connected(exec))] + replies, ended))
  }

  /** Index of the first event that ends the loop. */
  predicate FirstTerminal(evs: seq<LoopEvent>, k: int) {
    && 0 <= k < |evs| && !LoopStep(NewSessionManager(), ExecutorId(0), evs[k]).2
    && forall i :: 0 <= i < k ==> LoopStep(NewSessionManager(), ExecutorId(0), evs[i]).2
  }

  /** Whether an event continues the loop does not depend on the state. */
  lemma ContinuesIndependently(m: SessionManager, exec: ExecutorId, ev: LoopEvent)
    ensures LoopStep(m, exec, ev).2 == LoopStep(NewSessionManager(), ExecutorId(0), ev).2
  {
  }

  /** The loop serves every `Continue` before the first terminal event with
      its scheduler task, in order, recording each script under this
      executor; it yields the terminal event's reply (none for a closed
      stream) and nothing after it, and the executor is gone at the end. */
  lemma {:induction false} RunLoopServesTasks(m: SessionManager, exec: ExecutorId, evs: seq<LoopEvent>, k: nat)
    requires FirstTerminal(evs, k)
    ensures var (m', replies, ended) := RunLoop(m, exec, evs);
      && ended
      && m'.executors == m.executors - {exec}
      && |replies| == k + (if evs[k].StreamEnd? then 0 else 1)
      && (forall i :: 0 <= i < k ==>
            replies[i] == Ok(ServerMessage(Some(Msg.Script(evs[i].task.value.run)))))
      && (!evs[k].StreamEnd? ==> replies[k] == LoopStep(m, exec, evs[k]).1.value)
    decreases k
  {
    ContinuesIndependently(m, exec, evs[0]);
    if k > 0 {
      var (m1, out, goOn) := LoopStep(m, exec, evs[0]);
      assert FirstTerminal(evs[1..], k - 1) by {
        assert forall i :: 0 <= i < k - 1 ==> evs[1..][i] == evs[i + 1];
      }
      RunLoopServesTasks(m1, exec, evs[1..], k - 1);
      ContinuesIndependently(m1, exec, evs[k]);
      ContinuesIndependently(m, exec, evs[k]);
    }
  }

  /** Each served task is recorded under its script id with this executor,
      overwriting any earlier entry for that id; other ids are untouched. */
  lemma ContinueRecordsScript(m: SessionManager, exec: ExecutorId, msg: ClientMessage, t: ManagerMsg, id: u32)
    requires msg.code == Continue
    ensures var m' := LoopStep(m, exec, Received(msg, Some(t))).0;
      && m'.scripts[t.run.scriptId] == ScriptEntry(t.name, t.namespace, exec)
      && (id != t.run.scriptId ==> (id in m'.scripts <==> id in m.scripts))
      && (id != t.run.scriptId && id in m.scripts ==> m'.scripts[id] == m.scripts[id])
  {
  }

  // ---------------------------------------------------------------------
  // Time conversions
  // ---------------------------------------------------------------------

  /** `last_run`: milliseconds, nanoseconds divided rounding toward zero; 0 if absent. */
  function LastRunMillis(start: Option<Timestamp>): int {
    match start
    case None => 0
    case Some(t) => t.seconds * 1000 + TruncDiv(t.nanos, 1_000_000)
  }

  /** `elapsed_time`: microseconds, cast i64 -> u32 (low 32 bits); 0 if absent. */
  function ElapsedMicros(duration: Option<Timestamp>): u32 {
    match duration
    case None => 0
    case Some(d) => WrapU32(d.seconds * 1_000_000 + TruncDiv(d.nanos, 1000))
  }

  /** For a normalised time (non-negative nanoseconds) the conversions are
      the whole milliseconds and microseconds of the exact instant, the
      latter modulo 2^32; an absent value converts to 0. */
  lemma TimeConversionsExact(t: Timestamp)
    requires t.nanos >= 0
    ensures LastRunMillis(Some(t)) == (t.seconds * 1_000_000_000 + t.nanos) / 1_000_000
    ensures ElapsedMicros(Some(t)) == ((t.seconds * 1_000_000_000 + t.nanos) / 1000) % U32_MODULUS
    ensures LastRunMillis(None) == 0 && ElapsedMicros(None) == 0
  {
    MillisOfInstant(t.seconds, t.nanos);
    MicrosOfInstant(t.seconds, t.nanos);
  }

  lemma MillisOfInstant(s: int, n: int)
    ensures (s * 1_000_000_000 + n) / 1_000_000 == s * 1000 + n / 1_000_000
  {
  }

  lemma MicrosOfInstant(s: int, n: int)
    ensures (s * 1_000_000_000 + n) / 1000 == s * 1_000_000 + n / 1000
  {
  }

  /** The conversions round toward zero, not down: half a millisecond before
      an instant converts to the instant's millisecond. */
  lemma TruncationOnNegativeNanos()
    ensures LastRunMillis(Some(Timestamp(1, -500_000))) == 1000
    ensures (1 * 1_000_000_000 + -500_000) / 1_000_000 == 999
  {
  }

  // ---------------------------------------------------------------------
  // Status updates from the executor
  // ---------------------------------------------------------------------

  /** The status patch sent for a finished script: namespace, script name and status. */
  datatype StatusPatch = StatusPatch(namespace: string, name: string, status: ScriptStatus)

  /** `update_script_status`: the script leaves the running set whether or
      not the patch succeeds; an unknown id is rejected without a patch.
      `patchOk` is the outcome of the patch call. */
  function UpdateScriptStatus(m: SessionManager, req: ScriptStatusReport, patchOk: bool)
    : (r: (Result<(), Status>, SessionManager, Option<StatusPatch>))
    ensures req.scriptId !in m.scripts ==>
      && r.0 == Err(Status(InvalidArgument, "Got message of updating script status， but script isn't running"))
      && r.1 == m && r.2.None?
    ensures req.scriptId in m.scripts ==>
      var e := m.scripts[req.scriptId];
      && r.1 == m.(scripts := m.scripts - {req.scriptId})
      && r.2 == Some(StatusPatch(e.namespace, e.name,
           ScriptStatus(LastRunMillis(req.start), ElapsedMicros(req.duration), req.code, req.message)))
      && (r.0.Ok? <==> patchOk)
      && (r.0.Err? ==> r.0.error == Status(Internal, "Failed to update status of Script"))
  {
    if req.scriptId !in m.scripts then
      (Err(Status(InvalidArgument, "Got message of updating script status， but script isn't running")), m, None)
    else
      var e := m.scripts[req.scriptId];
      var status := ScriptStatus(LastRunMillis(req.start), ElapsedMicros(req.duration), req.code, req.message);
      var res := if patchOk then Ok(()) else Err(Status(Internal, "Failed to update status of Script"));
      (res, m.(scripts := m.scripts - {req.scriptId}), Some(StatusPatch(e.namespace, e.name, status)))
  }

  /** A second status report for the same run is rejected: the first one
      removed the entry. */
  lemma StatusReportedOnce(m: SessionManager, req: ScriptStatusReport, ok1: bool, ok2: bool)
    requires req.scriptId in m.scripts
    ensures var (_, m1, p1) := UpdateScriptStatus(m, req, ok1);
      && p1.Some?
      && UpdateScriptStatus(m1, req, ok2).0.Err?
      && UpdateScriptStatus(m1, req, ok2).0.error.code == InvalidArgument
      && UpdateScriptStatus(m1, req, ok2).2.None?
  {
  }

  /** The device patch a script asks for: namespace, device name and twins. */
  datatype DevicePatch = DevicePatch(namespace: string, name: string, status: DeviceStatus)

  /** One twin per desired entry: the value as desired, nothing reported. */
  predicate IsDesiredTwin(desired: map<string, string>, t: Twin) {
    t.propertyName in desired && t == Twin(t.propertyName, NewTwinProperty(desired[t.propertyName]), None)
  }

  /** The loop over the desired map (in the map's iteration order, which is
      unspecified): every entry becomes exactly one twin. */
  method DesiredTwins(desired: map<string, string>) returns (twins: seq<Twin>)
    ensures |twins| == |desired|
    ensures forall i :: 0 <= i < |twins| ==> IsDesiredTwin(desired, twins[i])
    ensures forall k :: k in desired ==> exists i :: 0 <= i < |twins| && twins[i].propertyName == k
    ensures forall i, j :: 0 <= i < j < |twins| ==> twins[i].propertyName != twins[j].propertyName
  {
    twins := [];
    var left := desired.Keys;
    while left != {}
      invariant left <= desired.Keys
      invariant |twins| + |left| == |desired|
      invariant forall i :: 0 <= i < |twins| ==> IsDesiredTwin(desired, twins[i]) && twins[i].propertyName !in left
      invariant forall k :: k in desired && k !in left ==> exists i :: 0 <= i < |twins| && twins[i].propertyName == k
      invariant forall i, j :: 0 <= i < j < |twins| ==> twins[i].propertyName != twins[j].propertyName
      decreases |left|
    {
      var k :| k in left;
      var before := twins;
      twins := before + [Twin(k, NewTwinProperty(desired[k]), None)];
      forall k' | k' in desired && k' !in left - {k}
        ensures exists i :: 0 <= i < |twins| && twins[i].propertyName == k'
      {
        if k' == k {
          assert twins[|before|].propertyName == k';
        } else {
          var i :| 0 <= i < |before| && before[i].propertyName == k';
          assert twins[i] == before[i];
        }
      }
      left := left - {k};
    }
  }

  /** `update_device_desired`: the script must be running (its entry is
      kept); the patch carries one twin per desired entry; a failed patch is
      an internal error; otherwise only `AtMostOnce` succeeds, the other
      policies answer "Not implemented" after the patch was sent. */
  method UpdateDeviceDesired(m: SessionManager, req: UpdateDevice, patchOk: bool)
    returns (r: Result<(), Status>, patch: Option<DevicePatch>)
    ensures req.scriptId !in m.scripts ==>
      r == Err(Status(InvalidArgument, "Got message of updating device desired, but script isn't running")) && patch.None?
    ensures req.scriptId in m.scripts ==>
      && patch.Some?
      && patch.value.namespace == m.scripts[req.scriptId].namespace
      && patch.value.name == req.name
      && |patch.value.status.twins| == |req.desired|
      && (forall i :: 0 <= i < |patch.value.status.twins| ==> IsDesiredTwin(req.desired, patch.value.status.twins[i]))
      && (forall k :: k in req.desired ==> exists i :: 0 <= i < |patch.value.status.twins| && patch.value.status.twins[i].propertyName == k)
    ensures req.scriptId in m.scripts && !patchOk ==> r == Err(Status(Internal, "Failed to update status of Device"))
    ensures req.scriptId in m.scripts && patchOk ==>
      (r.Ok? <==> QosOrDefault(req.qos) == AtMostOnce)
      && (r.Err? ==> r.error == Status(Internal, "Not implemented"))
  {
    if req.scriptId !in m.scripts {
      return Err(Status(InvalidArgument, "Got message of updating device desired, but script isn't running")), None;
    }
    var e := m.scripts[req.scriptId];
    var twins := DesiredTwins(req.desired);
    patch := Some(DevicePatch(e.namespace, req.name, DeviceStatus(twins)));
    if !patchOk {
      return Err(Status(Internal, "Failed to update status of Device")), patch;
    }
    match QosOrDefault(req.qos)
    case AtMostOnce => r := Ok(());
    case AtLeastOnce => r := Err(Status(Internal, "Not implemented"));
    case OnlyOnce => r := Err(Status(Internal, "Not implemented"));
  }
}
