/** The controller lifecycle Init -> Running -> Stop and the two waiting
    conditions its tasks use (controller/common/src/controller.rs). The
    watch channel is replaced by the state value itself, and a waiting task
    by the sequence of states it observes. Spawning, signals and aborting
    tasks are not modelled. */
module Controller {
  import opened Base

  /** `ControllerState`, ordered by declaration (`derive(PartialOrd, Ord)`). */
  datatype ControllerState = Init | Running | Stop

  function Rank(s: ControllerState): (n: nat)
    ensures n < 3
  {
    match s
    case Init => 0
    case Running => 1
    case Stop => 2
  }

  /** The derived order: Init < Running < Stop. */
  predicate Before(a: ControllerState, b: ControllerState) {
    Rank(a) < Rank(b)
  }

  /** A task handle; only the number of spawned tasks matters here. */
  type TaskHandle = nat

  datatype Controller = Controller(tasks: seq<TaskHandle>, state: ControllerState)

  /** `Controller::new`. */
  function NewController(): (c: Controller)
    ensures c.state == Init && c.tasks == []
  {
    Controller([], Init)
  }

  /** `init`: only from Init, to Running; otherwise the panic message. */
  function InitController(c: Controller): (r: Result<Controller, string>)
    ensures r.Ok? <==> c.state == Init
    ensures r.Ok? ==> r.value.state == Running && r.value.tasks == c.tasks
    ensures r.Err? ==> r.error == "Can't run twice"
  {
    if c.state != Init then Err("Can't run twice") else Ok(c.(state := Running))
  }

  /** `stop`: only from Running, to Stop; otherwise the panic message. */
  function StopController(c: Controller): (r: Result<Controller, string>)
    ensures r.Ok? <==> c.state == Running
    ensures r.Ok? ==> r.value.state == Stop && r.value.tasks == c.tasks
    ensures c.state == Init ==> r == Err("not init yet")
    ensures c.state == Stop ==> r == Err("Already stop")
  {
    match c.state
    case Init => Err("not init yet")
    case Stop => Err("Already stop")
    case Running => Ok(c.(state := Stop))
  }

  datatype Op = DoInit | DoStop

  function Apply(c: Controller, op: Op): Result<Controller, string> {
    match op
    case DoInit => InitController(c)
    case DoStop => StopController(c)
  }

  /** The states a controller passes through under a sequence of calls,
      starting with its current state; a panic ends the run with its message. */
  function Trace(c: Controller, ops: seq<Op>): (r: Result<seq<ControllerState>, string>)
    ensures r.Ok? ==> |r.value| == |ops| + 1 && r.value[0] == c.state
    decreases |ops|
  {
    if |ops| == 0 then Ok([c.state])
    else
      match Apply(c, ops[0])
      case Err(e) => Err(e)
      case Ok(c') =>
        match Trace(c', ops[1..])
        case Err(e) => Err(e)
        case Ok(rest) => Ok([c.state] + rest)
  }

  /** Every call that does not panic moves the state strictly forward. */
  lemma {:induction false} TraceStrictlyIncreasing(c: Controller, ops: seq<Op>)
    requires Trace(c, ops).Ok?
    ensures forall i :: 0 < i < |Trace(c, ops).value| ==>
      Before(Trace(c, ops).value[i - 1], Trace(c, ops).value[i])
    decreases |ops|
  {
    if |ops| > 0 {
      var c' := Apply(c, ops[0]).value;
      TraceStrictlyIncreasing(c', ops[1..]);
      var rest := Trace(c', ops[1..]).value;
      assert Trace(c, ops).value == [c.state] + rest;
    }
  }

  /** From a new controller, the calls that do not panic are exactly none,
      `init`, and `init` then `stop`; their traces are the prefixes of
      [Init, Running, Stop]. */
  lemma LegalTraces(ops: seq<Op>)
    ensures Trace(NewController(), ops).Ok? <==> ops in {[], [DoInit], [DoInit, DoStop]}
    ensures ops == [DoInit, DoStop] ==> Trace(NewController(), ops).value == [Init, Running, Stop]
    ensures ops == [DoInit] ==> Trace(NewController(), ops).value == [Init, Running]
  {
    var c0 := Controller([], Init);
    var c1 := Controller([], Running);
    var c2 := Controller([], Stop);
    assert Apply(c0, DoInit) == Ok(c1) && Apply(c1, DoStop) == Ok(c2);
    assert Trace(c2, []).value == [Stop];
    assert Trace(c1, []).value == [Running];
    assert Trace(c1, [DoStop]).value == [Running, Stop];
    if |ops| >= 1 {
      if ops[0] == DoStop {
        assert Trace(c0, ops).Err?;
      } else if |ops| >= 2 {
        var ops1 := ops[1..];
        if ops1[0] == DoInit {
          assert Trace(c1, ops1).Err?;
        } else if |ops| >= 3 {
          assert Trace(c2, ops1[1..]).Err?;
          assert ops !in {[], [DoInit], [DoInit, DoStop]};
        } else {
          assert ops == [DoInit, DoStop] && ops1 == [DoStop];
        }
      } else {
        assert ops == [DoInit] && ops[1..] == [];
      }
    }
  }

  // ---------------------------------------------------------------------
  // Waiting
  // ---------------------------------------------------------------------

  /** `wait_for_init`'s condition: it returns once the state is not Init. */
  predicate InitDone(s: ControllerState) {
    s != Init
  }

  /** `wait_for_stop`'s condition: it returns once the state is Stop. */
  predicate StopDone(s: ControllerState) {
    s == Stop
  }

  /** The loop of `wait_for_init` over the states it observes: the position
      at which it returns, or `None` if it is still waiting. */
  function WaitForInit(observed: seq<ControllerState>): (r: Option<nat>)
    ensures r.Some? <==> exists i :: 0 <= i < |observed| && InitDone(observed[i])
    ensures r.Some? ==>
      && r.value < |observed| && InitDone(observed[r.value])
      && forall j :: 0 <= j < r.value ==> !InitDone(observed[j])
    decreases |observed|
  {
    if |observed| == 0 then None
    else if InitDone(observed[0]) then Some(0)
    else
      match WaitForInit(observed[1..])
      case None => None
      case Some(i) => Some(i + 1)
  }

  /** The loop of `wait_for_stop`, likewise. */
  function WaitForStop(observed: seq<ControllerState>): (r: Option<nat>)
    ensures r.Some? <==> exists i :: 0 <= i < |observed| && StopDone(observed[i])
    ensures r.Some? ==>
      && r.value < |observed| && StopDone(observed[r.value])
      && forall j :: 0 <= j < r.value ==> !StopDone(observed[j])
    decreases |observed|
  {
    if |observed| == 0 then None
    else if StopDone(observed[0]) then Some(0)
    else
      match WaitForStop(observed[1..])
      case None => None
      case Some(i) => Some(i + 1)
  }

  /** Both conditions are thresholds of the order: waiting for init ends at
      Running or later, waiting for stop at Stop; so a task that sees the
      controller stop has also seen it start, no later. */
  lemma WaitConditionsOrdered(s: ControllerState, observed: seq<ControllerState>)
    ensures InitDone(s) <==> !Before(s, Running)
    ensures StopDone(s) <==> !Before(s, Stop)
    ensures StopDone(s) ==> InitDone(s)
    ensures WaitForStop(observed).Some? ==>
      WaitForInit(observed).Some? && WaitForInit(observed).value <= WaitForStop(observed).value
  {
  }
}
