/** The executor's side of the protocol (executor/common/src/lib.rs): the
    request stream it opens, the version header it sends, the handshake
    that yields its executor id, and the loop that forwards scheduled runs
    to the local worker channel. The server's replies arrive as a sequence
    of stream items; whether the worker channel accepts a run is a flag. */
module ExecutorClient {
  import opened Base
  import opened Ids
  import opened Proto
  import Session
  import Scheduler

  /** One read from the server stream. */
  datatype Incoming = Message(m: ServerMessage) | TransportError | Closed

  /** Why the client gives up. The `Debug` rendering of the offending
      message in two of the texts is not modelled. */
  datatype ClientError =
    | NoneOnFirst        // "Got None on first message"
    | ErrorOnFirst       // "Got error on first message"
    | EmptyServerMessage // "Got None on ServerMessage"
    | DisconnectOnFirst(reason: DisconnectReason)
    | ScriptOnFirst(run: RunScript)
    | ReceiveError       // "Got error when receive message"
    | UnexpectConnected  // "Unexpect Connected on ServerMessage"
    | UnexpectDisconnect // "Unexpect disconnect"
    | SendFailed         // the worker channel is closed

  /** The i-th message of the request stream: `Connect` with `max_job` 0,
      then `Continue` without info forever. */
  function RequestMessage(i: nat): ClientMessage {
    if i == 0 then ClientMessage(Connect, Some(ClientInfo(0)))
    else ClientMessage(Continue, None)
  }

  /** The request metadata: the version header carrying the client's version. */
  function RequestHeaders(clientVersion: string): map<string, Session.HeaderValue> {
    map[Session.RE_VERSION := Session.Visible(clientVersion)]
  }

  /** The server accepts this client's request exactly when the versions are
      equal, its first message opens the session, and each later message
      asks for the next task, so the session goes on while the scheduler
      has one. */
  lemma RequestAccepted(clientVersion: string, serverVersion: string, i: nat,
                        m: Session.SessionManager, exec: ExecutorId, task: Option<Scheduler.ManagerMsg>)
    ensures Session.ValidateMetadata(RequestHeaders(clientVersion), serverVersion).Ok? <==> clientVersion == serverVersion
    ensures Session.HandleFirstMessage(Session.Item(RequestMessage(0))).Ok?
    ensures i > 0 ==> (Session.LoopStep(m, exec, Session.Received(RequestMessage(i), task)).2 <==> task.Some?)
  {
  }

  /** `handle_first_message`: only `Connected` yields the executor id. */
  function FirstMessage(item: Incoming): (r: Result<u32, ClientError>)
    ensures r.Ok? <==> item.Message? && item.m.msg.Some? && item.m.msg.value.Connected?
    ensures r.Ok? ==> r.value == item.m.msg.value.executorId
    ensures item.Closed? ==> r == Err(NoneOnFirst)
    ensures item.TransportError? ==> r == Err(ErrorOnFirst)
    ensures item.Message? && item.m.msg.None? ==> r == Err(EmptyServerMessage)
  {
    match item
    case Closed => Err(NoneOnFirst)
    case TransportError => Err(ErrorOnFirst)
    case Message(sm) =>
      match sm.msg
      case None => Err(EmptyServerMessage)
      case Some(Connected(id)) => Ok(id)
      case Some(Disconnected(reason)) => Err(DisconnectOnFirst(reason))
      case Some(Script(run)) => Err(ScriptOnFirst(run))
  }

  /** A stream item that carries a run to forward. */
  predicate IsScript(item: Incoming) {
    item.Message? && item.m.msg.Some? && item.m.msg.value.Script?
  }

  /** How `run` ends on an item that is not a run: a disconnect is a clean
      end, everything else an error. */
  function Ending(item: Incoming): Result<(), ClientError>
    requires !IsScript(item)
  {
    match item
    case Closed => Err(UnexpectDisconnect)
    case TransportError => Err(ReceiveError)
    case Message(sm) =>
      match sm.msg
      case None => Err(EmptyServerMessage)
      case Some(Connected(_)) => Err(UnexpectConnected)
      case Some(Disconnected(_)) => Ok(())
  }

  /** When the worker's receiver is dropped, counted in runs still accepted
      before it: `None` while it stays open, `Some(0)` once it is gone. */
  function Later(closedAt: Option<nat>): Option<nat> {
    match closedAt
    case None => None
    case Some(n) => Some(if n == 0 then 0 else n - 1)
  }

  /** `run` over the items read so far: the runs forwarded, and how the loop
      ended (`None`: still reading). `closedAt` says after how many
      forwarded runs the worker channel closes (`None`: never). */
  function RunLoop(items: seq<Incoming>, closedAt: Option<nat>): (r: (seq<RunScript>, Option<Result<(), ClientError>>))
    ensures |r.0| <= |items|
    ensures closedAt.Some? ==> |r.0| <= closedAt.value
    decreases |items|
  {
    if |items| == 0 then ([], None)
    else if IsScript(items[0]) then
      if closedAt == Some(0) then ([], Some(Err(SendFailed)))
      else
        var (rest, outcome) := RunLoop(items[1..], Later(closedAt));
        ([items[0].m.msg.value.run] + rest, outcome)
    else ([], Some(Ending(items[0])))
  }

  /** With the worker channel open, the loop forwards the runs before the
      first other item, in order, and ends as that item says; if there is no
      such item it forwards every run and is still reading. */
  lemma {:induction false} RunForwardsInOrder(items: seq<Incoming>, k: nat)
    requires k <= |items|
    requires forall i :: 0 <= i < k ==> IsScript(items[i])
    requires k < |items| ==> !IsScript(items[k])
    ensures |RunLoop(items, None).0| == k
    ensures forall i :: 0 <= i < k ==> IsScript(items[i]) && RunLoop(items, None).0[i] == items[i].m.msg.value.run
    ensures k == |items| ==> RunLoop(items, None).1.None?
    ensures k < |items| ==> RunLoop(items, None).1 == Some(Ending(items[k]))
    decreases k
  {
    if k > 0 {
      assert forall i :: 0 <= i < k - 1 ==> items[1..][i] == items[i + 1];
      RunForwardsInOrder(items[1..], k - 1);
    }
  }

  /** A worker channel that closes after `n` runs, while more runs follow:
      the first `n` runs are forwarded in order, and the next send fails
      the loop. */
  lemma {:induction false} ClosedChannelStops(items: seq<Incoming>, n: nat, k: nat)
    requires n < k <= |items|
    requires forall i :: 0 <= i < k ==> IsScript(items[i])
    ensures |RunLoop(items, Some(n)).0| == n
    ensures forall i :: 0 <= i < n ==> IsScript(items[i]) && RunLoop(items, Some(n)).0[i] == items[i].m.msg.value.run
    ensures RunLoop(items, Some(n)).1 == Some(Err(SendFailed))
    decreases n
  {
    if n > 0 {
      assert forall i :: 0 <= i < k - 1 ==> items[1..][i] == items[i + 1];
      ClosedChannelStops(items[1..], n - 1, k - 1);
    }
  }

  /** What the client reads for one reply the server yields: the message,
      or the error status. */
  function ToIncoming(reply: Session.Reply): Incoming {
    if reply.Ok? then Message(reply.value) else TransportError
  }

  /** What the client reads for the replies of a session. */
  function Deliver(replies: seq<Session.Reply>): (items: seq<Incoming>)
    ensures |items| == |replies|
    ensures forall i :: 0 <= i < |replies| ==> items[i] == ToIncoming(replies[i])
  {
    if |replies| == 0 then [] else [ToIncoming(replies[0])] + Deliver(replies[1..])
  }

  /** What the client reads where the server's loop ends: the terminal
      reply, or the closed stream when the server yields none. */
  function TerminalItem(m: Session.SessionManager, exec: ExecutorId, ev: Session.LoopEvent): Incoming {
    var out := Session.LoopStep(m, exec, ev).1;
    if out.Some? then ToIncoming(out.value) else Closed
  }

  /** The server's terminal reply never carries a run, and the client takes
      it as a clean end exactly for a disconnect of either side. */
  lemma TerminalReplyEnding(m: Session.SessionManager, exec: ExecutorId, ev: Session.LoopEvent)
    requires !Session.LoopStep(m, exec, ev).2
    ensures !IsScript(TerminalItem(m, exec, ev))
    ensures Ending(TerminalItem(m, exec, ev)).Ok? <==> ev.ServerStopping? || (ev.Received? && ev.msg.code == Disconnect)
  {
  }

  /** The client's loop over what the server's loop yields, followed by the
      stream's end. */
  lemma {:induction false} LoopAgreement(m: Session.SessionManager, exec: ExecutorId, evs: seq<Session.LoopEvent>, k: nat)
    requires Session.FirstTerminal(evs, k)
    ensures var items := Deliver(Session.RunLoop(m, exec, evs).1) + [Closed];
      && |RunLoop(items, None).0| == k
      && (forall i :: 0 <= i < k ==> RunLoop(items, None).0[i] == evs[i].task.value.run)
      && (RunLoop(items, None).1 == Some(Ok(())) <==>
            evs[k].ServerStopping? || (evs[k].Received? && evs[k].msg.code == Disconnect))
  {
    Session.RunLoopServesTasks(m, exec, evs, k);
    var replies := Session.RunLoop(m, exec, evs).1;
    var items := Deliver(replies) + [Closed];
    assert forall i :: 0 <= i < k ==> items[i] == ToIncoming(replies[i]);
    assert items[k] == TerminalItem(m, exec, evs[k]);
    TerminalReplyEnding(m, exec, evs[k]);
    RunForwardsInOrder(items, k);
  }

  /** Client and server agree end to end: when the server accepts the
      session and its loop ends, the client learns the executor id the
      server generated, receives exactly the runs the server took from the
      scheduler, in order, and ends cleanly exactly when the server's loop
      ended with a disconnect of either side. The stream is closed after
      the server's last reply. */
  lemma SessionAgreement(m: Session.SessionManager, clientVersion: string, addr: string,
                         evs: seq<Session.LoopEvent>, k: nat)
    requires Session.FirstTerminal(evs, k)
    ensures var r := Session.Run(m, RequestHeaders(clientVersion), clientVersion, addr,
                                 Session.Item(RequestMessage(0)), evs);
      var items := Deliver(r.value.1) + [Closed];
      && r.Ok?
      && FirstMessage(items[0]) == Ok(ExecutorIdToU32(GenExecutor(m.idgen).0))
      && |RunLoop(items[1..], None).0| == k
      && (forall i :: 0 <= i < k ==> RunLoop(items[1..], None).0[i] == evs[i].task.value.run)
      && (RunLoop(items[1..], None).1 == Some(Ok(())) <==>
            evs[k].ServerStopping? || (evs[k].Received? && evs[k].msg.code == Disconnect))
  {
    RequestAccepted(clientVersion, clientVersion, 0, m, ExecutorId(0), None);
    var (exec, gen') := GenExecutor(m.idgen);
    var m1 := m.(executors := m.executors[exec := addr], idgen := gen');
    var loopReplies := Session.RunLoop(m1, exec, evs).1;
    var replies := Session.Run(m, RequestHeaders(clientVersion), clientVersion, addr,
                               Session.Item(RequestMessage(0)), evs).value.1;
    assert replies == [Ok(Session.Connected(exec))] + loopReplies;
    assert (Deliver(replies) + [Closed])[1..] == Deliver(loopReplies) + [Closed];
    LoopAgreement(m1, exec, evs, k);
  }
}
