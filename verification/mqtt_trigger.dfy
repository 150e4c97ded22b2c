/** The MQTT side of the controller (controller/common/src/trigger/mqtt.rs
    with the topic constants of controller/common/src/api/mqtt.rs): the
    broker session that subscribes to twin-update results and hands each
    publish to its hooks, the topic pattern that names the device, and the
    hook that asks the scheduler to run that device's scripts. The broker
    connection becomes the sequence of events it yields. */
module MqttTrigger {
  import opened Base
  import opened KubeApi
  import Scheduler

  /** The topic prefix of device events. */
  const DEVICE_ETPREFIX: string := "$hw/events/device/"
  /** The topic suffix of twin updates. */
  const TWIN_ETUPDATE_SUFFIX: string := "/twin/update"
  /** The topic suffix of twin update results. */
  const TWIN_ETUPDATE_RESULT_SUFFIX: string := TWIN_ETUPDATE_SUFFIX + "/result"

  // ---------------------------------------------------------------------
  // The device-name pattern
  // ---------------------------------------------------------------------

  /** A character of the class `[a-zA-Z0-9-_]`. */
  predicate NameChar(c: char) {
    ('a' <= c <= 'z') || ('A' <= c <= 'Z') || ('0' <= c <= '9') || c == '-' || c == '_'
  }

  /** What the capture group can hold: one or more class characters. */
  predicate ValidName(n: string) {
    |n| > 0 && forall k :: 0 <= k < |n| ==> NameChar(n[k])
  }

  /** The pattern `\$hw/events/device/([a-zA-Z0-9-_]+)/twin/update/result`
      matches at position `i` of `t`, capturing `n`. */
  predicate IsMatchAt(t: string, i: nat, n: string) {
    i <= |t| && ValidName(n) && DEVICE_ETPREFIX + n + TWIN_ETUPDATE_RESULT_SUFFIX <= t[i..]
  }

  /** The end of the longest run of class characters starting at `j`. */
  function RunEnd(t: string, j: nat): (e: nat)
    requires j <= |t|
    ensures j <= e <= |t|
    ensures forall k :: j <= k < e ==> NameChar(t[k])
    ensures e == |t| || !NameChar(t[e])
    decreases |t| - j
  {
    if j < |t| && NameChar(t[j]) then RunEnd(t, j + 1) else j
  }

  /** The match attempt at one position: the prefix, then the greedy run,
      then the suffix. The suffix begins with `/`, which the class excludes,
      so giving back characters of the run can never help. */
  function MatchAt(t: string, i: nat): (r: Option<string>)
    requires i <= |t|
    ensures forall n :: r == Some(n) <==> IsMatchAt(t, i, n)
  {
    SuffixStartsWithSlash();
    if DEVICE_ETPREFIX <= t[i..] then
      var p := i + |DEVICE_ETPREFIX|;
      var e := RunEnd(t, p);
      if e > p && TWIN_ETUPDATE_RESULT_SUFFIX <= t[e..] then
        MatchFound(t, i, p, e);
        Some(t[p..e])
      else
        NoMatchAt(t, i, p, e);
        None
    else None
  }

  lemma SuffixStartsWithSlash()
    ensures |TWIN_ETUPDATE_RESULT_SUFFIX| > 0 && TWIN_ETUPDATE_RESULT_SUFFIX[0] == '/' && !NameChar('/')
  {
  }

  /** A successful attempt is a match of the pattern, and the only one at
      that position. */
  lemma MatchFound(t: string, i: nat, p: nat, e: nat)
    requires i <= |t| && DEVICE_ETPREFIX <= t[i..] && p == i + |DEVICE_ETPREFIX|
    requires p < e <= |t| && e == RunEnd(t, p) && TWIN_ETUPDATE_RESULT_SUFFIX <= t[e..]
    ensures IsMatchAt(t, i, t[p..e])
    ensures forall n :: IsMatchAt(t, i, n) ==> n == t[p..e]
  {
    var n := t[p..e];
    var w := DEVICE_ETPREFIX + n + TWIN_ETUPDATE_RESULT_SUFFIX;
    assert |w| <= |t[i..]|;
    forall k | 0 <= k < |w| ensures w[k] == t[i..][k] {
      if k < |DEVICE_ETPREFIX| {
        assert w[k] == DEVICE_ETPREFIX[k];
      } else if k < |DEVICE_ETPREFIX| + |n| {
        assert w[k] == n[k - |DEVICE_ETPREFIX|];
      } else {
        assert w[k] == TWIN_ETUPDATE_RESULT_SUFFIX[k - |DEVICE_ETPREFIX| - |n|];
        assert t[i..][k] == t[e..][k - |DEVICE_ETPREFIX| - |n|];
      }
    }
    assert IsMatchAt(t, i, n);
    forall n' | IsMatchAt(t, i, n') ensures n' == n {
      MatchedRunIsMaximal(t, i, p, n');
    }
  }

  /** A failed attempt means no match at that position. */
  lemma NoMatchAt(t: string, i: nat, p: nat, e: nat)
    requires i <= |t| && DEVICE_ETPREFIX <= t[i..] && p == i + |DEVICE_ETPREFIX|
    requires p <= e <= |t| && e == RunEnd(t, p)
    requires !(e > p && TWIN_ETUPDATE_RESULT_SUFFIX <= t[e..])
    ensures forall n :: !IsMatchAt(t, i, n)
  {
    forall n | IsMatchAt(t, i, n) ensures false {
      MatchedRunIsMaximal(t, i, p, n);
    }
  }

  /** In a match at `i` the capture is exactly the longest run after the
      prefix. */
  lemma MatchedRunIsMaximal(t: string, i: nat, p: nat, n: string)
    requires IsMatchAt(t, i, n) && p == i + |DEVICE_ETPREFIX|
    ensures p + |n| < |t| && RunEnd(t, p) == p + |n| && t[p..p + |n|] == n
  {
    SuffixStartsWithSlash();
    var w := DEVICE_ETPREFIX + n + TWIN_ETUPDATE_RESULT_SUFFIX;
    assert w[..|DEVICE_ETPREFIX|] == DEVICE_ETPREFIX;
    forall k | 0 <= k < |n| ensures t[p + k] == n[k] {
      assert w[|DEVICE_ETPREFIX| + k] == n[k];
      assert t[i..][|DEVICE_ETPREFIX| + k] == t[p + k];
    }
    assert w[|DEVICE_ETPREFIX| + |n|] == '/';
    assert t[p + |n|] == '/' by {
      assert t[i..][|DEVICE_ETPREFIX| + |n|] == t[p + |n|];
    }
    assert t[p..p + |n|] == n;
  }

  /** The leftmost match at or after `i`: its position and capture. */
  function Search(t: string, i: nat): (r: Option<(nat, string)>)
    requires i <= |t|
    ensures r.Some? ==> i <= r.value.0 <= |t| && IsMatchAt(t, r.value.0, r.value.1)
    ensures forall j: nat, n :: i <= j <= |t| && (r.None? || j < r.value.0) ==> !IsMatchAt(t, j, n)
    decreases |t| - i
  {
    match MatchAt(t, i)
    case Some(n) => Some((i, n))
    case None => if i == |t| then None else Search(t, i + 1)
  }

  /** `DEVICE_UPDATE_RESULT_REGEX.captures(topic)` read at group 1: the
      pattern is not anchored, so the first position where it matches
      decides the name. */
  function Captures(t: string): (r: Option<string>)
    ensures r.Some? ==> ValidName(r.value)
    ensures r.Some? <==> exists i: nat, n :: IsMatchAt(t, i, n)
    ensures r.Some? ==> exists i: nat :: IsMatchAt(t, i, r.value) && forall j: nat, n :: j < i ==> !IsMatchAt(t, j, n)
  {
    var s := Search(t, 0);
    if s.None? then None else Some(s.value.1)
  }

  /** The topic a device's twin-update result is published on yields that
      device's name, for every name the class admits. */
  lemma {:induction false} CapturesExact(n: string)
    requires ValidName(n)
    ensures Captures(DEVICE_ETPREFIX + n + TWIN_ETUPDATE_RESULT_SUFFIX) == Some(n)
  {
    var t := DEVICE_ETPREFIX + n + TWIN_ETUPDATE_RESULT_SUFFIX;
    assert t[0..] == t;
    assert IsMatchAt(t, 0, n);
    assert MatchAt(t, 0) == Some(n);
  }

  // ---------------------------------------------------------------------
  // The broker session
  // ---------------------------------------------------------------------

  /** The MQTT quality-of-service levels. */
  datatype MqttQos = AtMostOnce | AtLeastOnce | ExactlyOnce

  /** A subscription request: topic filter and QoS. */
  datatype Subscription = Subscription(filter: string, qos: MqttQos)

  /** The one subscription the controller makes: every device's twin
      update result, at most once (never exactly once). */
  const SUBSCRIPTION: Subscription := Subscription(DEVICE_ETPREFIX + "+" + TWIN_ETUPDATE_RESULT_SUFFIX, AtMostOnce)

  /** The parts of a publish the hooks read. */
  datatype Publish = Publish(topic: string, payload: string)

  /** The packets an MQTT event loop can receive; `Pub` carries a publish. */
  datatype Packet =
    | Connect | ConnAck | Pub(publish: Publish) | PubAck | PubRec | PubRel | PubComp
    | Subscribe | SubAck | Unsubscribe | UnsubAck | PingReq | PingResp | Disconnect

  /** One `poll` of the event loop: a received packet, an outgoing event,
      or a connection error. */
  datatype PollEvent = Incoming(packet: Packet) | Outgoing | PollError(message: string)

  /** The acknowledgements and keep-alive replies the loop skips. */
  predicate Skipped(p: Packet) {
    p in {PingResp, PubAck, PubRec, PubRel, PubComp, SubAck}
  }

  /** Why the client stopped: an error with its message, or an unexpected
      packet, whose message is "Unexpected MQTT packet " followed by the
      packet's `Debug` dump. */
  datatype ClientError = Failed(message: string) | UnexpectedPacket(packet: Packet)

  /** What the loop does with one event. */
  datatype Step = Deliver(publish: Publish) | Skip | Fail(error: ClientError)

  /** A publish goes to the hooks; acknowledgements, keep-alive replies and
      outgoing events are passed over; a connection error or any other
      packet ends the loop. */
  function Classify(e: PollEvent): (s: Step)
    ensures s.Deliver? <==> e.Incoming? && e.packet.Pub?
    ensures s.Deliver? ==> s.publish == e.packet.publish
    ensures s.Skip? <==> e.Outgoing? || (e.Incoming? && Skipped(e.packet))
    ensures e.PollError? ==> s == Fail(Failed(e.message))
    ensures e.Incoming? && !e.packet.Pub? && !Skipped(e.packet) ==> s == Fail(UnexpectedPacket(e.packet))
  {
    match e
    case Outgoing => Skip
    case PollError(m) => Fail(Failed(m))
    case Incoming(p) =>
      (match p
       case Pub(publish) => Deliver(publish)
       case PingResp => Skip
       case PubAck => Skip
       case PubRec => Skip
       case PubRel => Skip
       case PubComp => Skip
       case SubAck => Skip
       case _ => Fail(UnexpectedPacket(p)))
  }

  /** The publish loop over the events it polls: the deliveries made and,
      if it stopped, why. It never stops with success; when the events run
      out it is still polling (`None`). */
  function PollLoop(events: seq<PollEvent>, asyncHooks: nat, syncHooks: nat)
    : (r: (seq<Delivery<Publish>>, Option<ClientError>))
    decreases |events|
  {
    if |events| == 0 then ([], None)
    else
      match Classify(events[0])
      case Fail(err) => ([], Some(err))
      case Skip => PollLoop(events[1..], asyncHooks, syncHooks)
      case Deliver(p) =>
        var (rest, stop) := PollLoop(events[1..], asyncHooks, syncHooks);
        (FanOut(p, asyncHooks, syncHooks) + rest, stop)
  }

  /** The publishes among the events, in order. */
  function Published(events: seq<PollEvent>): seq<Publish> {
    if |events| == 0 then []
    else if events[0].Incoming? && events[0].packet.Pub? then [events[0].packet.publish] + Published(events[1..])
    else Published(events[1..])
  }

  /** Each publish to every hook, publish by publish. */
  function FanOutAll(ps: seq<Publish>, asyncHooks: nat, syncHooks: nat): seq<Delivery<Publish>> {
    Flatten(seq(|ps|, i requires 0 <= i < |ps| => FanOut(ps[i], asyncHooks, syncHooks)))
  }

  lemma FanOutAllCons(ps: seq<Publish>, asyncHooks: nat, syncHooks: nat)
    requires |ps| > 0
    ensures FanOutAll(ps, asyncHooks, syncHooks) == FanOut(ps[0], asyncHooks, syncHooks) + FanOutAll(ps[1..], asyncHooks, syncHooks)
  {
    var fs := seq(|ps|, i requires 0 <= i < |ps| => FanOut(ps[i], asyncHooks, syncHooks));
    assert fs[1..] == seq(|ps[1..]|, i requires 0 <= i < |ps[1..]| => FanOut(ps[1..][i], asyncHooks, syncHooks));
  }

  /** Up to the first connection error or unexpected packet (position `k`,
      or the end), every publish reaches every hook in arrival order; the
      loop then stops with that event's error, or is still polling. */
  lemma {:induction false} PollLoopDeliversPublishes(events: seq<PollEvent>, asyncHooks: nat, syncHooks: nat, k: nat)
    requires k <= |events|
    requires forall i :: 0 <= i < k ==> !Classify(events[i]).Fail?
    requires k < |events| ==> Classify(events[k]).Fail?
    ensures PollLoop(events, asyncHooks, syncHooks).0 == FanOutAll(Published(events[..k]), asyncHooks, syncHooks)
    ensures PollLoop(events, asyncHooks, syncHooks).1 == if k < |events| then Some(Classify(events[k]).error) else None
    decreases k
  {
    if k > 0 {
      assert forall i :: 0 <= i < k - 1 ==> events[1..][i] == events[i + 1];
      PollLoopDeliversPublishes(events[1..], asyncHooks, syncHooks, k - 1);
      assert events[..k][1..] == events[1..][..k - 1];
      if events[0].Incoming? && events[0].packet.Pub? {
        FanOutAllCons(Published(events[..k]), asyncHooks, syncHooks);
      }
    }
  }

  /** How a session with the broker went. */
  datatype Session = Session(subscribed: Option<Subscription>, deliveries: seq<Delivery<Publish>>, stop: Option<ClientError>)

  /** `mqtt_client`: the first event must be the broker's `ConnAck` (a
      connection error is returned, anything else fails the assertion);
      then the subscription is sent (`subscribeResult` is the client's
      answer) and the publish loop runs. */
  function MqttClient(first: PollEvent, subscribeResult: Result<(), string>, events: seq<PollEvent>,
                      asyncHooks: nat, syncHooks: nat): (r: Session)
    ensures r.subscribed.Some? <==> first == Incoming(ConnAck)
    ensures r.subscribed.Some? ==> r.subscribed.value == SUBSCRIPTION && r.subscribed.value.qos != ExactlyOnce
    ensures first.PollError? ==> r == Session(None, [], Some(Failed(first.message)))
    ensures r.deliveries != [] ==> first == Incoming(ConnAck) && subscribeResult.Ok?
    ensures first == Incoming(ConnAck) && subscribeResult.Ok? ==> (r.deliveries, r.stop) == PollLoop(events, asyncHooks, syncHooks)
  {
    if first.PollError? then Session(None, [], Some(Failed(first.message)))
    else if first != Incoming(ConnAck) then
      Session(None, [], Some(Failed("assertion failed: matches!(connack, Event::Incoming(Packet::ConnAck(_)))")))
    else if subscribeResult.Err? then Session(Some(SUBSCRIPTION), [], Some(Failed(subscribeResult.error)))
    else
      var (ds, stop) := PollLoop(events, asyncHooks, syncHooks);
      Session(Some(SUBSCRIPTION), ds, stop)
  }

  // ---------------------------------------------------------------------
  // The scheduler hook
  // ---------------------------------------------------------------------

  /** `trigger_hook` on one publish: a topic the pattern does not match is
      ignored; otherwise the device (namespace "default") is sent to the
      scheduler, and a closed channel is "Scheduler is down!". Returns the
      hook's result and what the scheduler received. */
  function TriggerHook(p: Publish, sendOk: bool): (r: (Result<(), string>, seq<Scheduler.ResourceIndex>))
    ensures Captures(p.topic).None? ==> r == (Ok(()), [])
    ensures Captures(p.topic).Some? && sendOk ==>
      r == (Ok(()), [Scheduler.ResourceIndex(Scheduler.DEFAULT_NAMESPACE, Captures(p.topic).value)])
    ensures Captures(p.topic).Some? && !sendOk ==> r == (Err("Scheduler is down!"), [])
  {
    match Captures(p.topic)
    case None => (Ok(()), [])
    case Some(name) =>
      if sendOk then (Ok(()), [Scheduler.ResourceIndex(Scheduler.DEFAULT_NAMESPACE, name)])
      else (Err("Scheduler is down!"), [])
  }

  /** A twin-update result for any valid device name makes the scheduler
      receive exactly that device, under namespace "default". */
  lemma TriggerOnDeviceTopic(name: string, payload: string)
    requires ValidName(name)
    ensures TriggerHook(Publish(DEVICE_ETPREFIX + name + TWIN_ETUPDATE_RESULT_SUFFIX, payload), true)
         == (Ok(()), [Scheduler.ResourceIndex("default", name)])
  {
    CapturesExact(name);
  }

  /** The device `test_name`: its update-result topic yields name
      `test_name` and namespace `default`. */
  lemma TriggerTestName()
    ensures TriggerHook(Publish(DEVICE_ETPREFIX + "test_name" + TWIN_ETUPDATE_RESULT_SUFFIX, ""), true)
         == (Ok(()), [Scheduler.ResourceIndex("default", "test_name")])
  {
    assert ValidName("test_name") by {
      assert forall k :: 0 <= k < 9 ==> NameChar("test_name"[k]);
    }
    TriggerOnDeviceTopic("test_name", "");
  }
}
