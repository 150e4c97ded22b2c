/** The reflector (an in-memory index of devices, scripts and which scripts
    read which device) and the scheduler that turns a script index into a
    `RunScript` order (controller/common/src/scheduler.rs). The concurrent
    maps and sets of the source are plain maps and sets here: their
    iteration order is unspecified, so the model keeps only their contents. */
module Scheduler {
  import opened Base
  import opened ScriptApi
  import opened DeviceApi
  import opened Ids
  import opened Proto

  /** `ResourceIndex<K>`: equality and hashing look at namespace and name only,
      which is exactly datatype equality here. */
  datatype ResourceIndex = ResourceIndex(namespace: string, name: string)

  const DEFAULT_NAMESPACE: string := "default"

  /** `From<&Script>`: scripts are indexed by their manifest name. */
  function ScriptIndex(s: Script): ResourceIndex {
    ResourceIndex(DEFAULT_NAMESPACE, s.spec.manifest.name)
  }

  /** `From<&Device>`: devices are indexed by their name. */
  function DeviceIndex(d: Device): ResourceIndex {
    ResourceIndex(DEFAULT_NAMESPACE, d.spec.name)
  }

  /** The `Debug` rendering used in error messages (string escaping is not modelled). */
  function DebugIndex(i: ResourceIndex): string {
    "ResourceIndex { namespace: \"" + i.namespace + "\", name: \"" + i.name + "\" }"
  }

  datatype Reflector = Reflector(
    selectorMap: map<ResourceIndex, set<ResourceIndex>>,
    deviceStore: map<ResourceIndex, Device>,
    scriptStore: map<ResourceIndex, Script>)

  const EMPTY_REFLECTOR: Reflector := Reflector(map[], map[], map[])

  // ---------------------------------------------------------------------
  // Store maintenance
  // ---------------------------------------------------------------------

  function AddDevice(r: Reflector, d: Device): (r': Reflector)
    ensures r'.deviceStore == r.deviceStore[DeviceIndex(d) := d]
    ensures r'.selectorMap == r.selectorMap && r'.scriptStore == r.scriptStore
  {
    r.(deviceStore := r.deviceStore[DeviceIndex(d) := d])
  }

  /** Removing an absent device changes nothing (the source logs a warning). */
  function RemoveDevice(r: Reflector, d: Device): (r': Reflector)
    ensures r'.deviceStore.Keys == r.deviceStore.Keys - {DeviceIndex(d)}
    ensures forall i :: i in r'.deviceStore ==> r'.deviceStore[i] == r.deviceStore[i]
    ensures DeviceIndex(d) !in r.deviceStore ==> r' == r
    ensures r'.selectorMap == r.selectorMap && r'.scriptStore == r.scriptStore
  {
    r.(deviceStore := r.deviceStore - {DeviceIndex(d)})
  }

  function RestartDevice(r: Reflector, ds: seq<Device>): (r': Reflector)
    ensures r'.selectorMap == r.selectorMap && r'.scriptStore == r.scriptStore
    decreases |ds|
  {
    if |ds| == 0 then r else RestartDevice(AddDevice(r, ds[0]), ds[1..])
  }

  /** `get_selected_by_name`: the devices named by the values of the read
      selector's `match_names`. */
  function SelectedByName(s: Script): (devs: set<ResourceIndex>)
    ensures forall i :: i in devs <==>
      (s.spec.readSelector.matchNames.Some? && i.namespace == DEFAULT_NAMESPACE
       && i.name in s.spec.readSelector.matchNames.value.Values)
  {
    match s.spec.readSelector.matchNames
    case None => {}
    case Some(m) =>
      var devs := set v | v in m.Values :: ResourceIndex(DEFAULT_NAMESPACE, v);
      assert forall i: ResourceIndex :: i.namespace == DEFAULT_NAMESPACE && i.name in m.Values ==>
        ResourceIndex(DEFAULT_NAMESPACE, i.name) in devs;
      devs
  }

  /** `add_script`: store the script and put its index into the script set
      of every selected device, creating missing sets. */
  function AddScript(r: Reflector, s: Script): (r': Reflector)
    ensures r'.scriptStore == r.scriptStore[ScriptIndex(s) := s]
    ensures r'.deviceStore == r.deviceStore
    ensures r'.selectorMap.Keys == r.selectorMap.Keys + SelectedByName(s)
  {
    var idx := ScriptIndex(s);
    var devs := SelectedByName(s);
    var sm := map d | d in r.selectorMap.Keys + devs ::
      (if d in r.selectorMap then r.selectorMap[d] else {}) + (if d in devs then {idx} else {});
    Reflector(sm, r.deviceStore, r.scriptStore[idx := s])
  }

  /** `remove_script`: drop the index from every script set (the sets stay,
      possibly empty) and from the store; an absent script only logs. */
  function RemoveScript(r: Reflector, s: Script): Reflector {
    RemoveScriptIndex(r, ScriptIndex(s))
  }

  /** The removal of `remove_script`, by index. */
  function RemoveScriptIndex(r: Reflector, idx: ResourceIndex): (r': Reflector)
    ensures r'.scriptStore.Keys == r.scriptStore.Keys - {idx}
    ensures forall i :: i in r'.scriptStore ==> r'.scriptStore[i] == r.scriptStore[i]
    ensures r'.deviceStore == r.deviceStore
    ensures r'.selectorMap.Keys == r.selectorMap.Keys
  {
    var sm := map d | d in r.selectorMap :: r.selectorMap[d] - {idx};
    Reflector(sm, r.deviceStore, r.scriptStore - {idx})
  }

  function RestartScript(r: Reflector, ss: seq<Script>): (r': Reflector)
    ensures r'.deviceStore == r.deviceStore
    decreases |ss|
  {
    if |ss| == 0 then r else RestartScript(AddScript(r, ss[0]), ss[1..])
  }

  // ---------------------------------------------------------------------
  // Lookups (`RunScriptLookup for Arc<Reflector>`)
  // ---------------------------------------------------------------------

  function LookupScript(r: Reflector, i: ResourceIndex): (res: Result<Script, string>)
    ensures res.Ok? <==> i in r.scriptStore
    ensures res.Ok? ==> res.value == r.scriptStore[i]
    ensures res.Err? ==> res.error == "Script: " + DebugIndex(i) + " not found in store"
  {
    if i in r.scriptStore then Ok(r.scriptStore[i])
    else Err("Script: " + DebugIndex(i) + " not found in store")
  }

  function LookupDevice(r: Reflector, i: ResourceIndex): (res: Result<Device, string>)
    ensures res.Ok? <==> i in r.deviceStore
    ensures res.Ok? ==> res.value == r.deviceStore[i]
    ensures res.Err? ==> res.error == "Device: " + DebugIndex(i) + " not found in store"
  {
    if i in r.deviceStore then Ok(r.deviceStore[i])
    else Err("Device: " + DebugIndex(i) + " not found in store")
  }

  /** `map_device_to_script`: an error for a device no script ever selected
      (even if the device itself is stored). */
  function MapDeviceToScript(r: Reflector, dev: ResourceIndex): (res: Result<set<ResourceIndex>, string>)
    ensures res.Ok? <==> dev in r.selectorMap
    ensures res.Ok? ==> res.value == r.selectorMap[dev]
    ensures res.Err? ==> res.error == "Device: " + DebugIndex(dev) + " not found in store"
  {
    if dev in r.selectorMap then Ok(r.selectorMap[dev])
    else Err("Device: " + DebugIndex(dev) + " not found in store")
  }

  /** The reported values of a device's twins, by property name; a later twin
      with the same name overwrites an earlier one. */
  function ReportedStatus(ts: seq<Twin>): (m: map<string, string>)
    decreases |ts|
  {
    if |ts| == 0 then map[]
    else
      var m := ReportedStatus(ts[..|ts| - 1]);
      var last := ts[|ts| - 1];
      if last.reported.Some? then m[last.propertyName := last.reported.value.value] else m
  }

  /** Index of the last twin in `ts` named `p` that has a reported value. */
  predicate IsLastReported(ts: seq<Twin>, p: string, i: int) {
    && 0 <= i < |ts| && ts[i].propertyName == p && ts[i].reported.Some?
    && forall j :: i < j < |ts| ==> ts[j].propertyName != p || ts[j].reported.None?
  }

  /** `ReportedStatus` holds a property iff some twin reports it, and then
      the value of the last such twin. */
  lemma {:induction false} ReportedStatusLastWins(ts: seq<Twin>, p: string)
    ensures p in ReportedStatus(ts) <==>
      exists i :: 0 <= i < |ts| && ts[i].propertyName == p && ts[i].reported.Some?
    ensures p in ReportedStatus(ts) ==>
      exists i :: IsLastReported(ts, p, i) && ReportedStatus(ts)[p] == ts[i].reported.value.value
    decreases |ts|
  {
    if |ts| > 0 {
      var n := |ts| - 1;
      var init := ts[..n];
      ReportedStatusLastWins(init, p);
      assert forall i :: 0 <= i < n ==> init[i] == ts[i];
      if ts[n].propertyName == p && ts[n].reported.Some? {
        assert IsLastReported(ts, p, n);
      } else if p in ReportedStatus(ts) {
        var i :| IsLastReported(init, p, i) && ReportedStatus(init)[p] == init[i].reported.value.value;
        assert IsLastReported(ts, p, i);
      }
    }
  }

  function DeviceReadStatus(d: Device): map<string, string> {
    if d.status.Some? then ReportedStatus(d.status.value.twins) else map[]
  }

  /** `lookup_readable`: one entry per read-selector key whose device is
      stored; keys whose device is unknown are skipped. */
  function LookupReadable(r: Reflector, s: Script): (m: map<string, ReadDevice>)
    ensures s.spec.readSelector.matchNames.None? ==> m == map[]
    ensures s.spec.readSelector.matchNames.Some? ==>
      var names := s.spec.readSelector.matchNames.value;
      && (forall k :: k in m <==> k in names && ResourceIndex(DEFAULT_NAMESPACE, names[k]) in r.deviceStore)
      && (forall k :: k in m ==> m[k].name == names[k])
  {
    match s.spec.readSelector.matchNames
    case None => map[]
    case Some(names) =>
      map k | k in names && ResourceIndex(DEFAULT_NAMESPACE, names[k]) in r.deviceStore ::
        ReadDevice(names[k], DeviceReadStatus(r.deviceStore[ResourceIndex(DEFAULT_NAMESPACE, names[k])]))
  }

  /** `lookup_writable`: every write-selector entry, whether or not the device is stored. */
  function LookupWritable(s: Script): (m: map<string, WriteDevice>)
    ensures s.spec.writeSelector.matchNames.None? ==> m == map[]
    ensures s.spec.writeSelector.matchNames.Some? ==>
      var names := s.spec.writeSelector.matchNames.value;
      m.Keys == names.Keys && forall k :: k in m ==> m[k] == WriteDevice(names[k])
  {
    match s.spec.writeSelector.matchNames
    case None => map[]
    case Some(names) => map k | k in names :: WriteDevice(names[k])
  }

  /** The status a script reads for one of its devices is the device's
      reported values: the last reported twin of each property. */
  lemma ReadableShowsReported(r: Reflector, s: Script, k: string, p: string)
    requires s.spec.readSelector.matchNames.Some?
    requires k in LookupReadable(r, s)
    ensures var dev := r.deviceStore[ResourceIndex(DEFAULT_NAMESPACE, s.spec.readSelector.matchNames.value[k])];
      && (dev.status.None? ==> LookupReadable(r, s)[k].status == map[])
      && (dev.status.Some? ==>
           var ts := dev.status.value.twins;
           var st := LookupReadable(r, s)[k].status;
           && (p in st <==> exists i :: 0 <= i < |ts| && ts[i].propertyName == p && ts[i].reported.Some?)
           && (p in st ==> exists i :: IsLastReported(ts, p, i) && st[p] == ts[i].reported.value.value))
  {
    var dev := r.deviceStore[ResourceIndex(DEFAULT_NAMESPACE, s.spec.readSelector.matchNames.value[k])];
    if dev.status.Some? {
      ReportedStatusLastWins(dev.status.value.twins, p);
    }
  }

  // ---------------------------------------------------------------------
  // Trigger
  // ---------------------------------------------------------------------

  /** The scripts `trigger` sends when a device changes: the device's script
      set, or nothing for a device no script selects. */
  function Triggered(r: Reflector, dev: ResourceIndex): (scripts: set<ResourceIndex>)
    ensures MapDeviceToScript(r, dev).Ok? ==> scripts == MapDeviceToScript(r, dev).value
    ensures MapDeviceToScript(r, dev).Err? ==> scripts == {}
  {
    if dev in r.selectorMap then r.selectorMap[dev] else {}
  }

  /** After `add_script`, every device it reads triggers it, and the other
      devices trigger what they triggered before. */
  lemma AddScriptTriggers(r: Reflector, s: Script, dev: ResourceIndex)
    ensures dev in SelectedByName(s) ==> Triggered(AddScript(r, s), dev) == Triggered(r, dev) + {ScriptIndex(s)}
    ensures dev !in SelectedByName(s) ==> Triggered(AddScript(r, s), dev) == Triggered(r, dev)
  {
  }

  /** After `remove_script`, no device triggers the script any more, and
      nothing else changes in what devices trigger. */
  lemma RemoveScriptUntriggers(r: Reflector, s: Script, dev: ResourceIndex)
    ensures Triggered(RemoveScript(r, s), dev) == Triggered(r, dev) - {ScriptIndex(s)}
    ensures LookupScript(RemoveScript(r, s), ScriptIndex(s)).Err?
  {
  }

  /** A script added and then removed is neither stored nor triggered, and
      the device sets it did not join are as before. */
  lemma AddThenRemoveScript(r: Reflector, s: Script, dev: ResourceIndex)
    ensures var r' := RemoveScript(AddScript(r, s), s);
      && ScriptIndex(s) !in r'.scriptStore
      && ScriptIndex(s) !in Triggered(r', dev)
      && Triggered(r', dev) == Triggered(r, dev) - {ScriptIndex(s)}
  {
    AddScriptTriggers(r, s, dev);
    RemoveScriptUntriggers(AddScript(r, s), s, dev);
  }

  /** Adding a device makes it visible to lookups, removing it hides it, and
      other devices are untouched by either. */
  lemma DeviceStoreLookups(r: Reflector, d: Device, other: ResourceIndex)
    requires other != DeviceIndex(d)
    ensures LookupDevice(AddDevice(r, d), DeviceIndex(d)) == Ok(d)
    ensures LookupDevice(RemoveDevice(r, d), DeviceIndex(d)).Err?
    ensures LookupDevice(AddDevice(r, d), other) == LookupDevice(r, other)
    ensures LookupDevice(RemoveDevice(r, d), other) == LookupDevice(r, other)
  {
  }

  /** `restart_device` stores every listed device; the last of several with
      the same index wins, and unlisted devices keep their entry. */
  lemma {:induction false} RestartDeviceStoresAll(r: Reflector, ds: seq<Device>, i: ResourceIndex)
    ensures (exists k :: 0 <= k < |ds| && DeviceIndex(ds[k]) == i) ==>
      exists k :: 0 <= k < |ds| && DeviceIndex(ds[k]) == i
        && i in RestartDevice(r, ds).deviceStore && RestartDevice(r, ds).deviceStore[i] == ds[k]
        && forall j :: k < j < |ds| ==> DeviceIndex(ds[j]) != i
    ensures (forall k :: 0 <= k < |ds| ==> DeviceIndex(ds[k]) != i) ==>
      (i in RestartDevice(r, ds).deviceStore <==> i in r.deviceStore)
      && (i in r.deviceStore ==> RestartDevice(r, ds).deviceStore[i] == r.deviceStore[i])
    decreases |ds|
  {
    if |ds| > 0 {
      var r1 := AddDevice(r, ds[0]);
      RestartDeviceStoresAll(r1, ds[1..], i);
      assert forall k :: 0 < k < |ds| ==> ds[k] == ds[1..][k - 1];
      if exists k :: 1 <= k < |ds| && DeviceIndex(ds[k]) == i {
        var k' :| 0 <= k' < |ds[1..]| && DeviceIndex(ds[1..][k']) == i
          && i in RestartDevice(r1, ds[1..]).deviceStore && RestartDevice(r1, ds[1..]).deviceStore[i] == ds[1..][k']
          && forall j :: k' < j < |ds[1..]| ==> DeviceIndex(ds[1..][j]) != i;
        assert DeviceIndex(ds[k' + 1]) == i;
      } else if DeviceIndex(ds[0]) == i {
        assert RestartDevice(r, ds).deviceStore[i] == ds[0];
      }
    }
  }

  // ---------------------------------------------------------------------
  // Scheduler
  // ---------------------------------------------------------------------

  /** `ManagerMsg`: a run order plus the script's name and namespace. */
  datatype ManagerMsg = ManagerMsg(run: RunScript, name: string, namespace: string)

  datatype Scheduler = Scheduler(reflector: Reflector, idgen: ScriptIdGenerator)

  /** `Scheduler::new`. */
  function NewScheduler(r: Reflector): (s: Scheduler)
    ensures s.reflector == r && s.idgen.inner == NEW_GENERATOR
  {
    Scheduler(r, ScriptIdGenerator(NEW_GENERATOR))
  }

  /** `Scheduler::lookup`: an unknown script is an error and consumes no
      identifier (the lookups run before `gen`); otherwise the run order
      carries the next script id and the script's manifest, devices, env and
      QoS. */
  function Lookup(sch: Scheduler, i: ResourceIndex): (r: (Result<ManagerMsg, string>, Scheduler))
    ensures r.0.Ok? <==> i in sch.reflector.scriptStore
    ensures r.0.Err? ==> r.1 == sch && r.0.error == "Script: " + DebugIndex(i) + " not found in store"
    ensures r.0.Ok? ==>
      var s := sch.reflector.scriptStore[i];
      var m := r.0.value;
      && m.name == s.spec.manifest.name && m.namespace == DEFAULT_NAMESPACE
      && m.run.scriptId == sch.idgen.inner.next
      && r.1.reflector == sch.reflector
      && r.1.idgen.inner == Gen(sch.idgen.inner).1
      && m.run.manifest.Some?
      && m.run.manifest.value.packageName == s.spec.manifest.name
      && m.run.manifest.value.packageVersion == s.spec.manifest.version
      && m.run.manifest.value.register == s.spec.manifest.register.GetOr("")
      && 0 <= m.run.manifest.value.scriptType < 4
      && ALL_SCRIPT_TYPES[m.run.manifest.value.scriptType] == s.spec.manifest.scriptType
      && m.run.defaultQos == QosCode(s.spec.executePolicy.qos)
      && QosOrDefault(m.run.defaultQos) == s.spec.executePolicy.qos
      && m.run.readable == LookupReadable(sch.reflector, s)
      && m.run.writable == LookupWritable(s)
      && m.run.env == s.spec.env
  {
    match LookupScript(sch.reflector, i)
    case Err(e) => (Err(e), sch)
    case Ok(s) =>
      var readable := LookupReadable(sch.reflector, s);
      var writable := LookupWritable(s);
      var (id, gen') := GenScript(sch.idgen);
      var manifest := ProtoManifest(ScriptTypeCode(s.spec.manifest.scriptType), s.spec.manifest.name,
                                    s.spec.manifest.version, s.spec.manifest.register.GetOr(""));
      var run := RunScript(ScriptIdToU32(id), Some(manifest), readable, writable, s.spec.env,
                           QosCode(s.spec.executePolicy.qos));
      (Ok(ManagerMsg(run, s.spec.manifest.name, DEFAULT_NAMESPACE)), Scheduler(sch.reflector, gen'))
  }

  /** A sequence of lookups: the run orders handed out, in order. */
  function LookupAll(sch: Scheduler, idxs: seq<ResourceIndex>): (r: (seq<Result<ManagerMsg, string>>, Scheduler))
    ensures |r.0| == |idxs|
    ensures r.1.reflector == sch.reflector
    decreases |idxs|
  {
    if |idxs| == 0 then ([], sch)
    else
      var (first, sch') := Lookup(sch, idxs[0]);
      var (rest, sch'') := LookupAll(sch', idxs[1..]);
      ([first] + rest, sch'')
  }

  /** Failed lookups consume no identifier: the successful ones among a batch
      of lookups receive consecutive script ids, and the generator advances
      by the number of successes. */
  lemma {:induction false} LookupIdsConsecutive(sch: Scheduler, idxs: seq<ResourceIndex>)
    ensures var (rs, sch') := LookupAll(sch, idxs);
      var oks := CountOk(rs);
      && sch'.idgen.inner == GenMany(sch.idgen.inner, oks).1
      && forall k :: 0 <= k < |rs| && rs[k].Ok? ==>
           CountOk(rs[..k]) < oks &&
           rs[k].value.run.scriptId == GenMany(sch.idgen.inner, oks).0[CountOk(rs[..k])]
    decreases |idxs|
  {
    if |idxs| > 0 {
      var (first, sch1) := Lookup(sch, idxs[0]);
      var (rest, sch2) := LookupAll(sch1, idxs[1..]);
      var rs := [first] + rest;
      assert LookupAll(sch, idxs) == (rs, sch2);
      LookupIdsConsecutive(sch1, idxs[1..]);
      var g := sch.idgen.inner;
      var restOks := CountOk(rest);
      assert rs[1..] == rest;
      assert CountOk(rs) == (if first.Ok? then 1 else 0) + restOks;
      forall k | 0 <= k < |rs| && rs[k].Ok?
        ensures CountOk(rs[..k]) < CountOk(rs)
        ensures rs[k].value.run.scriptId == GenMany(g, CountOk(rs)).0[CountOk(rs[..k])]
      {
        if k == 0 {
          assert CountOk(rs[..0]) == 0;
        } else {
          assert rs[..k][1..] == rest[..k - 1];
          assert rs[k] == rest[k - 1];
          assert CountOk(rs[..k]) == (if first.Ok? then 1 else 0) + CountOk(rest[..k - 1]);
        }
      }
    } else {
      assert LookupAll(sch, idxs) == ([], sch);
    }
  }

  /** Number of successful results. */
  function CountOk(rs: seq<Result<ManagerMsg, string>>): (n: nat)
    ensures n <= |rs|
    decreases |rs|
  {
    if |rs| == 0 then 0 else (if rs[0].Ok? then 1 else 0) + CountOk(rs[1..])
  }
}
