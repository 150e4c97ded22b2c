/** The device ops a rule script calls (executor/deno/ops/devices.rs):
    listing device aliases, reading a reported property, staging desired
    values, and committing them to the controller. The controller's answer
    to a commit is a parameter. */
module DeviceOps {
  import opened Base
  import opened ScriptApi
  import opened Proto
  import opened Ops

  /** The keys of a map in some order (a `HashMap`'s order is unspecified):
      each key exactly once. */
  method ListKeys<V>(m: map<string, V>) returns (keys: seq<string>)
    ensures |keys| == |m|
    ensures forall k :: k in m <==> k in keys
    ensures forall i, j :: 0 <= i < j < |keys| ==> keys[i] != keys[j]
  {
    keys := [];
    var left := m.Keys;
    while left != {}
      invariant left <= m.Keys
      invariant |keys| + |left| == |m|
      invariant forall k :: k in keys ==> k in m && k !in left
      invariant forall k :: k in m && k !in left ==> k in keys
      invariant forall i, j :: 0 <= i < j < |keys| ==> keys[i] != keys[j]
      decreases |left|
    {
      var k :| k in left;
      keys := keys + [k];
      left := left - {k};
    }
  }

  /** `op_list_readable_devices`: every readable alias once. */
  method ListReadableDevices(st: OpState) returns (names: seq<string>)
    ensures forall k :: k in st.readable <==> k in names
    ensures |names| == |st.readable|
    ensures forall i, j :: 0 <= i < j < |names| ==> names[i] != names[j]
  {
    names := ListKeys(st.readable);
  }

  /** `op_list_writable_devices`: every writable alias once. */
  method ListWritableDevices(st: OpState) returns (names: seq<string>)
    ensures forall k :: k in st.writable <==> k in names
    ensures |names| == |st.writable|
    ensures forall i, j :: 0 <= i < j < |names| ==> names[i] != names[j]
  {
    names := ListKeys(st.writable);
  }

  /** `op_get_device_status`: the reported value of a property of a readable
      device, if both exist. */
  function GetDeviceStatus(st: OpState, name: string, property: string): (r: Option<string>)
    ensures r.Some? <==> name in st.readable && property in st.readable[name].status
    ensures r.Some? ==> r.value == st.readable[name].status[property]
  {
    if name in st.readable && property in st.readable[name].status
    then Some(st.readable[name].status[property])
    else None
  }

  /** `op_update_device_desired`: stage one desired value on a writable
      device, replacing an earlier value of the same property. */
  function UpdateDeviceDesired(st: OpState, name: string, property: string, value: string): (r: Result<OpState, string>)
    ensures r.Ok? <==> name in st.writable
    ensures r.Err? ==> r.error == "Device not found"
    ensures r.Ok? ==>
      && r.value.writable.Keys == st.writable.Keys
      && r.value.writable[name].name == st.writable[name].name
      && r.value.writable[name].commits == st.writable[name].commits[property := value]
      && (forall k :: k in st.writable && k != name ==> r.value.writable[k] == st.writable[k])
      && r.value.rule == st.rule && r.value.readable == st.readable && r.value.env == st.env
  {
    if name !in st.writable then Err("Device not found")
    else
      var d := st.writable[name];
      Ok(st.(writable := st.writable[name := d.(commits := d.commits[property := value])]))
  }

  datatype CommitError =
    | DeviceNotFound       // "Device not found"
    | InvalidQos           // range error "Invalid Qos value"
    | Rejected(s: Status)  // the controller's error status

  /** `op_commit_device`: take (and clear) the device's staged values, pick
      the QoS (the rule's default, or a valid explicit code), send them
      under the device's resource name, and pass on the controller's answer.
      Returns the outcome, the new state, and the request sent, if any. */
  function CommitDevice(st: OpState, name: string, qos: Option<i32>, answer: Result<(), Status>)
    : (r: (Result<(), CommitError>, OpState, Option<UpdateDevice>))
    ensures name !in st.writable ==> r == (Err(DeviceNotFound), st, None)
    ensures name in st.writable ==>
      && r.1 == st.(writable := st.writable[name := st.writable[name].(commits := map[])])
      && (qos.Some? && QosFromCode(qos.value).None? ==> r.0 == Err(InvalidQos) && r.2.None?)
    ensures r.2.Some? <==> name in st.writable && (qos.None? || QosFromCode(qos.value).Some?)
    ensures r.2.Some? ==>
      && r.2.value.scriptId == st.rule.scriptId
      && r.2.value.name == st.writable[name].name
      && r.2.value.desired == st.writable[name].commits
      && QosOrDefault(r.2.value.qos) == (if qos.None? then st.rule.qos else QosFromCode(qos.value).value)
      && (r.0.Ok? <==> answer.Ok?)
      && (r.0.Err? ==> r.0.error == Rejected(answer.error))
  {
    if name !in st.writable then (Err(DeviceNotFound), st, None)
    else
      var d := st.writable[name];
      var st' := st.(writable := st.writable[name := d.(commits := map[])]);
      var policy := if qos.None? then Some(st.rule.qos) else QosFromCode(qos.value);
      if policy.None? then (Err(InvalidQos), st', None)
      else
        var request := UpdateDevice(st.rule.scriptId, d.name, d.commits, QosCode(policy.value));
        var outcome := if answer.Ok? then Ok(()) else Err(Rejected(answer.error));
        (outcome, st', Some(request))
  }

  /** Staged values accumulate until a commit sends them all, and a second
      commit right after sends nothing. */
  lemma CommitSendsStaged(st: OpState, name: string, p: string, v: string, answer: Result<(), Status>)
    requires name in st.writable
    ensures var st1 := UpdateDeviceDesired(st, name, p, v).value;
      var (_, st2, sent) := CommitDevice(st1, name, None, answer);
      && sent == Some(UpdateDevice(st.rule.scriptId, st.writable[name].name,
                                   st.writable[name].commits[p := v], QosCode(st.rule.qos)))
      && CommitDevice(st2, name, None, answer).2.value.desired == map[]
  {
  }

  /** An invalid explicit QoS code loses the staged values: nothing is sent
      and the next commit finds the device's table empty. */
  lemma InvalidQosLosesCommits(st: OpState, name: string, q: i32, answer: Result<(), Status>)
    requires name in st.writable && !(0 <= q < 3)
    ensures var (r, st1, sent) := CommitDevice(st, name, Some(q), answer);
      && r == Err(InvalidQos) && sent.None?
      && st1.writable[name].commits == map[]
      && CommitDevice(st1, name, None, answer).2.value.desired == map[]
  {
  }

  /** Staging and committing touch only the writable table, so every
      status read gives the same answer before and after them. */
  lemma WritesDoNotChangeReads(st: OpState, name: string, p: string, v: string,
                               qos: Option<i32>, answer: Result<(), Status>, dev: string, property: string)
    ensures UpdateDeviceDesired(st, name, p, v).Ok? ==>
      GetDeviceStatus(UpdateDeviceDesired(st, name, p, v).value, dev, property) == GetDeviceStatus(st, dev, property)
    ensures GetDeviceStatus(CommitDevice(st, name, qos, answer).1, dev, property) == GetDeviceStatus(st, dev, property)
  {
  }
}
