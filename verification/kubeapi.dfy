/** The Kubernetes watcher glue of the controller
    (controller/common/src/trigger/kubeapi.rs): the reflector loop that fans
    each watch event out to its hooks, and the hooks that keep the
    scheduler's stores current and trigger scripts on device changes.
    Channels become the sequences of what is delivered or sent. */
module KubeApi {
  import opened Base
  import opened DeviceApi
  import opened ScriptApi
  import opened Scheduler

  /** The object metadata the hooks read. */
  datatype ObjectMeta = ObjectMeta(name: Option<string>, namespace: Option<string>)

  /** A watched object: its metadata and its body. */
  datatype Object<K> = Object(meta: ObjectMeta, body: K)

  /** `kube_runtime::watcher::Event`. */
  datatype Event<K> = Applied(obj: Object<K>) | Deleted(obj: Object<K>) | Restarted(objs: seq<Object<K>>)

  /** One read from the watch stream. */
  datatype WatchItem<K> = Next(event: Event<K>) | WatchError(message: string)

  /** Where an event is delivered: the i-th async hook or the j-th sync hook. */
  datatype Hook = AsyncHook(i: nat) | SyncHook(j: nat)

  /** One payload handed to one hook. */
  datatype Delivery<E> = Delivery(hook: Hook, event: E)

  /** Whether a hook is one of `asyncHooks` channel hooks and `syncHooks`
      callbacks. */
  predicate Registered(h: Hook, asyncHooks: nat, syncHooks: nat) {
    match h
    case AsyncHook(i) => i < asyncHooks
    case SyncHook(j) => j < syncHooks
  }

  /** One event to `asyncHooks` channel hooks, in order, then to
      `syncHooks` callbacks, in order. A hook's failure is only logged, so
      every registered hook receives the event exactly once, and every
      channel hook before any callback. */
  function FanOut<E>(e: E, asyncHooks: nat, syncHooks: nat): (ds: seq<Delivery<E>>)
    ensures |ds| == asyncHooks + syncHooks
    ensures forall h :: Delivery(h, e) in ds <==> Registered(h, asyncHooks, syncHooks)
    ensures forall d :: d in ds ==> d.event == e
    ensures forall p, q :: 0 <= p < q < |ds| ==> ds[p].hook != ds[q].hook
    ensures forall p, q :: 0 <= p < |ds| && 0 <= q < |ds| && ds[p].hook.AsyncHook? && ds[q].hook.SyncHook? ==> p < q
    ensures forall p, q :: 0 <= p < q < |ds| && ds[p].hook.AsyncHook? && ds[q].hook.AsyncHook? ==> ds[p].hook.i < ds[q].hook.i
    ensures forall p, q :: 0 <= p < q < |ds| && ds[p].hook.SyncHook? && ds[q].hook.SyncHook? ==> ds[p].hook.j < ds[q].hook.j
  {
    var ds := seq(asyncHooks, i requires 0 <= i => Delivery(AsyncHook(i), e))
      + seq(syncHooks, j requires 0 <= j => Delivery(SyncHook(j), e));
    assert forall p :: 0 <= p < asyncHooks ==> ds[p] == Delivery(AsyncHook(p), e);
    assert forall p :: asyncHooks <= p < |ds| ==> ds[p] == Delivery(SyncHook(p - asyncHooks), e);
    forall h | Registered(h, asyncHooks, syncHooks)
      ensures Delivery(h, e) in ds
    {
      if h.AsyncHook? {
        assert ds[h.i] == Delivery(h, e);
      } else {
        assert ds[asyncHooks + h.j] == Delivery(h, e);
      }
    }
    ds
  }

  /** `reflector` over what the watcher yields: the deliveries made and,
      once it stops, its error; it stops at the first watch error or when
      the stream ends, and never ends with success. */
  function ReflectorLoop<K>(items: seq<WatchItem<K>>, asyncHooks: nat, syncHooks: nat)
    : (r: (seq<Delivery<Event<K>>>, string))
    ensures |r.0| <= |items| * (asyncHooks + syncHooks)
    decreases |items|
  {
    if |items| == 0 then ([], "Reflector stop unexpected!")
    else
      match items[0]
      case WatchError(msg) => ([], msg)
      case Next(e) =>
        var (rest, err) := ReflectorLoop(items[1..], asyncHooks, syncHooks);
        (FanOut(e, asyncHooks, syncHooks) + rest, err)
  }

  /** The concatenation of a sequence of sequences, in order. */
  function Flatten<T>(xss: seq<seq<T>>): seq<T> {
    if |xss| == 0 then [] else xss[0] + Flatten(xss[1..])
  }

  /** The fan-outs of the first `k` events, event by event. */
  function FanOuts<K>(items: seq<WatchItem<K>>, k: nat, asyncHooks: nat, syncHooks: nat): (fs: seq<seq<Delivery<Event<K>>>>)
    requires k <= |items| && forall i :: 0 <= i < k ==> items[i].Next?
    ensures |fs| == k
  {
    seq(k, e requires 0 <= e < k => FanOut(items[e].event, asyncHooks, syncHooks))
  }

  /** Every event before the first watch error reaches every hook, event
      by event and, within an event, hook by hook; the loop's error is that
      watch error, or "Reflector stop unexpected!" when there is none. */
  lemma {:induction false} ReflectorDeliversInOrder<K>(items: seq<WatchItem<K>>, asyncHooks: nat, syncHooks: nat, k: nat)
    requires k <= |items|
    requires forall i :: 0 <= i < k ==> items[i].Next?
    requires k < |items| ==> items[k].WatchError?
    ensures ReflectorLoop(items, asyncHooks, syncHooks).0 == Flatten(FanOuts(items, k, asyncHooks, syncHooks))
    ensures ReflectorLoop(items, asyncHooks, syncHooks).1 == (if k < |items| then items[k].message else "Reflector stop unexpected!")
    decreases k
  {
    if k > 0 {
      assert forall i :: 0 <= i < k - 1 ==> items[1..][i] == items[i + 1];
      ReflectorDeliversInOrder(items[1..], asyncHooks, syncHooks, k - 1);
      var fs := FanOuts(items, k, asyncHooks, syncHooks);
      assert fs[1..] == FanOuts(items[1..], k - 1, asyncHooks, syncHooks);
    }
  }

  /** The index `trigger_hook` builds from metadata; a missing name or
      namespace is the `unwrap` panic. */
  function MetaIndex<K>(o: Object<K>): Result<ResourceIndex, string> {
    if o.meta.name.None? || o.meta.namespace.None? then Err("called `Option::unwrap()` on a `None` value")
    else Ok(ResourceIndex(o.meta.namespace.value, o.meta.name.value))
  }

  /** What a hook run sends to the scheduler, in order, and the panic that
      ends it, if any. */
  datatype HookRun = HookRun(sent: seq<ResourceIndex>, panic: Option<string>)

  /** The restart loop: each object's index is sent before the next one is
      looked at, so the objects before the first one missing a name or
      namespace are sent, and that one panics. */
  function MetaIndices<K>(os: seq<Object<K>>): (r: HookRun)
    ensures |r.sent| <= |os|
    ensures forall i :: 0 <= i < |r.sent| ==> MetaIndex(os[i]).Ok? && r.sent[i] == MetaIndex(os[i]).value
    ensures r.panic.None? <==> |r.sent| == |os|
    ensures |r.sent| < |os| ==> MetaIndex(os[|r.sent|]).Err? && r.panic == Some(MetaIndex(os[|r.sent|]).error)
    decreases |os|
  {
    if |os| == 0 then HookRun([], None)
    else
      match MetaIndex(os[0])
      case Err(e) => HookRun([], Some(e))
      case Ok(first) =>
        var rest := MetaIndices(os[1..]);
        assert forall i :: 1 <= i < |os| ==> os[1..][i - 1] == os[i];
        HookRun([first] + rest.sent, rest.panic)
  }

  /** `trigger_hook` for one device event: what it sends to the scheduler.
      An applied device is sent once, a restart sends every listed device
      in order up to the first one it cannot index, a deletion sends
      nothing. */
  function TriggerHook(e: Event<Device>): (r: HookRun)
    ensures e.Deleted? ==> r == HookRun([], None)
    ensures e.Applied? ==> (r.panic.None? <==> MetaIndex(e.obj).Ok?)
    ensures e.Applied? && MetaIndex(e.obj).Ok? ==> r.sent == [MetaIndex(e.obj).value]
    ensures e.Applied? && MetaIndex(e.obj).Err? ==> r.sent == []
    ensures e.Restarted? ==> r == MetaIndices(e.objs)
  {
    match e
    case Applied(o) =>
      (match MetaIndex(o)
       case Ok(idx) => HookRun([idx], None)
       case Err(msg) => HookRun([], Some(msg)))
    case Restarted(os) => MetaIndices(os)
    case Deleted(_) => HookRun([], None)
  }

  function Bodies<K>(os: seq<Object<K>>): (ks: seq<K>)
    ensures |ks| == |os| && forall i :: 0 <= i < |os| ==> ks[i] == os[i].body
  {
    seq(|os|, i requires 0 <= i < |os| => os[i].body)
  }

  /** `device_hook`: the device store follows the watch events. */
  function DeviceHook(r: Reflector, e: Event<Device>): (r': Reflector)
    ensures r'.scriptStore == r.scriptStore && r'.selectorMap == r.selectorMap
    ensures e.Applied? ==> LookupDevice(r', DeviceIndex(e.obj.body)) == Ok(e.obj.body)
    ensures e.Deleted? ==> LookupDevice(r', DeviceIndex(e.obj.body)).Err?
  {
    match e
    case Applied(o) => AddDevice(r, o.body)
    case Restarted(os) => RestartDevice(r, Bodies(os))
    case Deleted(o) => RemoveDevice(r, o.body)
  }

  /** `script_hook`: the script store and selector map follow the watch events. */
  function ScriptHook(r: Reflector, e: Event<Script>): (r': Reflector)
    ensures r'.deviceStore == r.deviceStore
    ensures e.Applied? ==> LookupScript(r', ScriptIndex(e.obj.body)) == Ok(e.obj.body)
    ensures e.Deleted? ==> LookupScript(r', ScriptIndex(e.obj.body)).Err?
  {
    match e
    case Applied(o) => AddScript(r, o.body)
    case Restarted(os) => RestartScript(r, Bodies(os))
    case Deleted(o) => RemoveScript(r, o.body)
  }

  /** A device whose metadata names it as the store does (namespace
      "default", name the spec's name) is sent under its store index, and a
      script applied afterwards is triggered by it exactly when its read
      selector names the device. */
  lemma AppliedDeviceTriggersSelectors(r: Reflector, o: Object<Device>, so: Object<Script>)
    requires o.meta == ObjectMeta(Some(o.body.spec.name), Some(DEFAULT_NAMESPACE))
    ensures TriggerHook(Applied(o)) == HookRun([DeviceIndex(o.body)], None)
    ensures var r' := ScriptHook(DeviceHook(r, Applied(o)), Applied(so));
      && (DeviceIndex(o.body) in SelectedByName(so.body) ==>
            Triggered(r', DeviceIndex(o.body)) == Triggered(r, DeviceIndex(o.body)) + {ScriptIndex(so.body)})
      && (DeviceIndex(o.body) !in SelectedByName(so.body) ==>
            Triggered(r', DeviceIndex(o.body)) == Triggered(r, DeviceIndex(o.body)))
  {
    var r1 := DeviceHook(r, Applied(o));
    AddScriptTriggers(r1, so.body, DeviceIndex(o.body));
  }

  /** `trigger_hook` sends the index built from a device's metadata, while
      the device store and the selector map index devices by `"default"`
      and the spec's name. A device outside the `default` namespace is
      therefore never selected, and adding scripts never makes it trigger
      anything; a device whose metadata name differs from its spec's name
      is sent under an index other than its store index. */
  lemma MetadataIndexMismatch(o: Object<Device>, s: Script, r: Reflector)
    requires o.meta.name.Some? && o.meta.namespace.Some?
    ensures var idx := ResourceIndex(o.meta.namespace.value, o.meta.name.value);
      && TriggerHook(Applied(o)) == HookRun([idx], None)
      && (o.meta.namespace.value != DEFAULT_NAMESPACE ==>
            idx !in SelectedByName(s) && Triggered(AddScript(r, s), idx) == Triggered(r, idx))
      && (o.meta.name.value != o.body.spec.name ==> idx != DeviceIndex(o.body))
  {
    var idx := ResourceIndex(o.meta.namespace.value, o.meta.name.value);
    AddScriptTriggers(r, s, idx);
  }
}
