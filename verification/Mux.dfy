/**
 The SPX multiplexer as a transition system: the controller end
 (`BridgeHandle`, its lifecycle task and `reader_loop` in
 `crates/ssh-proxy/src/bridge.rs`) and the remote end
 (`run_transport_with_egress_proxy` and `handle_open_tcp` in
 `crates/ssh-proxy/src/remote.rs`), joined by two pipes.

 An action is one lock section or await point of one task; any enabled action
 may come next, so a run is any interleaving of callers, timers, the two reader
 loops, the two writer tasks, the lifecycle clean-up and the remote tasks.
 Connection loss is `EndRead` and `StopWriter`, which are always possible.
 */
module Mux {
  import opened Bytes
  import opened Frames
  import opened Pipes

  // Stream ids: `next_id` is a wrapping u32 that starts at 1.

  function IdAt(n: nat): Id { (1 + n) % U32 }

  function RankOf(id: Id): nat { if id == 0 then U32 - 1 else id - 1 }

  /** Where a call of `open_tcp` or `register_udp` stands. */
  datatype Phase =
    | Start                       // id allocated
    | InPending                   // in pending_tcp
    | InStreams                   // in tcp_streams too; about to send OpenTcp
    | Waiting                     // awaiting the reply or the timer
    | AbandonPending              // send failed or timer fired: about to leave pending_tcp
    | AbandonStream               // about to leave tcp_streams
    | RefusedStream               // error reply received: about to leave tcp_streams
    | RefusedPending              // about to leave pending_tcp
    | Opened                      // returned Ok
    | Failed                      // returned Err
    | UdpStart
    | UdpReady                    // register_udp returned

  predicate Udp(p: Phase) { p.UdpStart? || p.UdpReady? }

  predicate InProgress(p: Phase) { !Udp(p) && !p.Opened? && !p.Failed? }

  datatype Reply = Accepted | Refused(message: Text)

  /** The lifecycle task after the reader has ended. */
  datatype Cleanup = Running | Drained | TcpCleared | UdpCleared | Done

  datatype Controller = Controller(
    allocs: nat,                  // allocations made so far; the next id is IdAt(allocs)
    calls: map<Id, Phase>,
    pending: set<Id>,             // keys of pending_tcp; each holds the id's own oneshot sender
    slots: map<Id, Reply>,        // value in the id's oneshot, once sent
    sends: multiset<Id>,          // every oneshot send ever made
    closing: set<Id>,             // close() has sent its frame and not yet left tcp_streams
    closingUdp: set<Id>,          // unregister_udp has left udp_streams and not yet sent its frame
    cleanup: Cleanup)

  /** Where a spawned `handle_open_tcp` task stands. */
  datatype Task =
    | Connecting(host: Text, port: u16, via: Option<Text>)   // to connect there, through that egress proxy
    | Connected                   // about to enter tcp_streams
    | Registered                  // about to reply ok
    | Relaying
    | Leaving                     // relay over: about to leave tcp_streams
    | Left                        // about to send Close
    | Finished
    | Refusing                    // connect failed: about to reply
    | Rejected

  predicate Entered(t: Task) { t.Registered? || Replied(t) }

  predicate Replied(t: Task) { t.Relaying? || t.Leaving? || t.Left? || t.Finished? }

  datatype State = State(
    c: Controller,
    down: Pipe, up: Pipe,
    tasks: map<Id, Task>,
    relays: set<Id>,              // live remote_to_local subtasks
    assocs: set<Id>,              // UDP associations ever spawned
    proxy: Option<Text>)          // the remote's default egress proxy

  function Init(proxy: Option<Text>): State {
    State(Controller(0, map[], {}, map[], multiset{}, {}, {}, Running), EMPTY_PIPE, EMPTY_PIPE, map[], {}, {}, proxy)
  }

  /** The steps of one `open_tcp` call. */
  datatype OpenAction =
    | InsertPending(id: Id) | InsertStream(id: Id)
    | SendOpen(id: Id, host: Text, port: u16, egress: Option<Text>) | SendOpenFails(id: Id)
    | TimeOut(id: Id) | LeavePending(id: Id) | LeaveStreams(id: Id)
    | Receive(id: Id) | RefusedLeaveStreams(id: Id) | RefusedLeavePending(id: Id)

  /** The other steps of callers of `BridgeHandle`; data goes only to ids that an open returned. */
  datatype UseAction =
    | AllocTcp | AllocUdp
    | SendData(id: Id, data: Blob)
    | CloseSend(id: Id, reason: Text) | CloseRemove(id: Id)
    | InsertUdp(id: Id) | SendUdp(id: Id, host: Text, port: u16, data: Blob)
    | UnregisterUdp(id: Id) | UnregisterSend(id: Id, reason: Text)
    | SendLog(message: Text)

  datatype LifeAction = Drain(message: Text) | ClearTcp | ClearUdp | AbortWriter

  /** The reader loops, the writer tasks and the stream receivers. */
  datatype LoopAction =
    | PumpOp(side: Side, op: Op)
    | Notify(side: Side, reason: Text)
    | Resolve | ClosePending | Spawn

  /** The steps of what the remote end spawns. */
  datatype TaskAction =
    | ConnectOk(id: Id) | ConnectFails(id: Id) | Enter(id: Id)
    | ReplyOk(id: Id, message: Text) | ReplyFails(id: Id, message: Text)
    | SocketRead(id: Id, data: Blob) | RelayStops(id: Id)
    | RelayEnds(id: Id) | Leave(id: Id) | TaskClose(id: Id, reason: Text)
    | UdpReply(id: Id, host: Text, port: u16, data: Blob) | UdpBindFails(id: Id, reason: Text)

  datatype Action =
    | OpenStep(open: OpenAction)
    | UseStep(use: UseAction)
    | LifeStep(life: LifeAction)
    | LoopStep(loop: LoopAction)
    | TaskStep(task: TaskAction)

  predicate At(s: State, id: Id, p: Phase) { id in s.c.calls && s.c.calls[id] == p }

  predicate TaskAt(s: State, id: Id, t: Task) { id in s.tasks && s.tasks[id] == t }

  predicate CanOpen(s: State, a: OpenAction) {
    match a
    case InsertPending(id) => At(s, id, Start)
    case InsertStream(id) => At(s, id, InPending)
    case SendOpen(id, _, _, _) => At(s, id, InStreams) && CanPush(s.down)
    case SendOpenFails(id) => At(s, id, InStreams) && !s.down.up
    case TimeOut(id) => At(s, id, Waiting) && id !in s.c.slots
    case LeavePending(id) => At(s, id, AbandonPending)
    case LeaveStreams(id) => At(s, id, AbandonStream)
    case Receive(id) => At(s, id, Waiting) && id in s.c.slots
    case RefusedLeaveStreams(id) => At(s, id, RefusedStream)
    case RefusedLeavePending(id) => At(s, id, RefusedPending)
  }

  predicate CanUse(s: State, a: UseAction) {
    match a
    case AllocTcp => s.c.allocs < U32
    case AllocUdp => s.c.allocs < U32
    case SendData(id, _) => At(s, id, Opened) && CanPush(s.down)
    case CloseSend(id, _) => At(s, id, Opened) && CanTrySend(s.down)
    case CloseRemove(id) => id in s.c.closing
    case InsertUdp(id) => At(s, id, UdpStart)
    case SendUdp(id, _, _, _) => At(s, id, UdpReady) && CanPush(s.down)
    case UnregisterUdp(id) => At(s, id, UdpReady)
    case UnregisterSend(id, _) => id in s.c.closingUdp && CanTrySend(s.down)
    case SendLog(_) => CanTrySend(s.down)
  }

  predicate CanLife(s: State, a: LifeAction) {
    match a
    case Drain(_) => s.c.cleanup == Running && s.up.reader.Ended?
    case ClearTcp => s.c.cleanup == Drained
    case ClearUdp => s.c.cleanup == TcpCleared
    case AbortWriter => s.c.cleanup == UdpCleared
  }

  predicate CanLoop(s: State, a: LoopAction) {
    match a
    case PumpOp(side, op) =>
      if side.Down? then CanPump(s.down, op, side) && (op.Take? || op.DropReceiver? ==> op.id in s.tasks)
      else CanPump(s.up, op, side)
           && (op.Take? ==> At(s, op.id, Opened))
           && (op.DropReceiver? ==> At(s, op.id, Opened) || At(s, op.id, Failed))
    case Notify(side, _) =>
      if side.Down? then s.down.reader.Notifying? && CanTrySend(s.up)
      else s.up.reader.Notifying? && CanTrySend(s.down)
    case Resolve => s.up.reader.Handling? && s.up.reader.frame.OpenTcpResult?
    case ClosePending => s.up.reader.ClosingPending?
    case Spawn => s.down.reader.Handling? && s.down.reader.frame.OpenTcp?
  }

  predicate CanTask(s: State, a: TaskAction) {
    match a
    case ConnectOk(id) => id in s.tasks && s.tasks[id].Connecting?
    case ConnectFails(id) => id in s.tasks && s.tasks[id].Connecting?
    case Enter(id) => TaskAt(s, id, Connected)
    case ReplyOk(id, _) => TaskAt(s, id, Registered) && CanTrySend(s.up)
    case ReplyFails(id, _) => TaskAt(s, id, Refusing) && CanTrySend(s.up)
    case SocketRead(id, data) => id in s.relays && data != [] && CanTrySend(s.up)
    case RelayStops(id) => id in s.relays
    case RelayEnds(id) => TaskAt(s, id, Relaying)
    case Leave(id) => TaskAt(s, id, Leaving)
    case TaskClose(id, _) => TaskAt(s, id, Left) && CanTrySend(s.up)
    case UdpReply(id, _, _, _) => id in s.assocs && CanTrySend(s.up)
    case UdpBindFails(id, _) => id in s.assocs && CanTrySend(s.up)
  }

  predicate Enabled(s: State, a: Action) {
    match a
    case OpenStep(o) => CanOpen(s, o)
    case UseStep(u) => CanUse(s, u)
    case LifeStep(l) => CanLife(s, l)
    case LoopStep(l) => CanLoop(s, l)
    case TaskStep(t) => CanTask(s, t)
  }

  // Changes to the controller's shared state; the methods of class BridgeInner perform them.

  function SetPhase(c: Controller, id: Id, p: Phase): Controller { c.(calls := c.calls[id := p]) }

  function Allocate(c: Controller, p: Phase): Controller {
    SetPhase(c, IdAt(c.allocs), p).(allocs := c.allocs + 1)
  }

  /** Take the oneshot sender out of `pending_tcp`, if it is still there, and send the reply. */
  function ResolveOpen(c: Controller, id: Id, r: Reply): Controller {
    if id in c.pending
    then c.(pending := c.pending - {id}, slots := c.slots[id := r], sends := c.sends + multiset{id})
    else c
  }

  function FillSlots(slots: map<Id, Reply>, pending: set<Id>, r: Reply): map<Id, Reply> {
    map id | id in slots.Keys + pending :: if id in pending then r else slots[id]
  }

  /** Send `r` to every pending open and empty the map. */
  function DrainOpens(c: Controller, r: Reply): Controller {
    c.(pending := {}, slots := FillSlots(c.slots, c.pending, r), sends := c.sends + multiset(c.pending))
  }

  function WithPipe(s: State, side: Side, p: Pipe): State {
    if side.Down? then s.(down := p) else s.(up := p)
  }

  function PipeOf(s: State, side: Side): Pipe { if side.Down? then s.down else s.up }

  function ApplyOpen(s: State, a: OpenAction): State
    requires CanOpen(s, a)
  {
    match a
    case InsertPending(id) => s.(c := SetPhase(s.c, id, InPending).(pending := s.c.pending + {id}))
    case InsertStream(id) => s.(c := SetPhase(s.c, id, InStreams), up := Register(s.up, id))
    case SendOpen(id, host, port, egress) =>
      s.(c := SetPhase(s.c, id, Waiting), down := Push(s.down, OpenTcp(id, host, port, egress)))
    case SendOpenFails(id) => s.(c := SetPhase(s.c, id, AbandonPending))
    case TimeOut(id) => s.(c := SetPhase(s.c, id, AbandonPending))
    case LeavePending(id) => s.(c := SetPhase(s.c, id, AbandonStream).(pending := s.c.pending - {id}))
    case LeaveStreams(id) => s.(c := SetPhase(s.c, id, Failed), up := Unroute(s.up, id))
    case Receive(id) => s.(c := SetPhase(s.c, id, if s.c.slots[id].Accepted? then Opened else RefusedStream))
    case RefusedLeaveStreams(id) => s.(c := SetPhase(s.c, id, RefusedPending), up := Unroute(s.up, id))
    case RefusedLeavePending(id) => s.(c := SetPhase(s.c, id, Failed).(pending := s.c.pending - {id}))
  }

  function ApplyUse(s: State, a: UseAction): State
    requires CanUse(s, a)
  {
    match a
    case AllocTcp => s.(c := Allocate(s.c, Start))
    case AllocUdp => s.(c := Allocate(s.c, UdpStart))
    case SendData(id, data) => s.(down := Push(s.down, Data(id, data)))
    case CloseSend(id, reason) =>
      s.(c := s.c.(closing := s.c.closing + {id}), down := TrySend(s.down, Close(id, reason)))
    case CloseRemove(id) => s.(c := s.c.(closing := s.c.closing - {id}), up := Unroute(s.up, id))
    case InsertUdp(id) => s.(c := SetPhase(s.c, id, UdpReady), up := s.up.(udp := s.up.udp + {id}))
    case SendUdp(id, host, port, data) => s.(down := Push(s.down, UdpPacket(id, host, port, data)))
    case UnregisterUdp(id) =>
      s.(c := s.c.(closingUdp := s.c.closingUdp + {id}), up := s.up.(udp := s.up.udp - {id}))
    case UnregisterSend(id, reason) =>
      s.(c := s.c.(closingUdp := s.c.closingUdp - {id}), down := TrySend(s.down, Close(id, reason)))
    case SendLog(message) => s.(down := TrySend(s.down, Log(message)))
  }

  function ApplyLife(s: State, a: LifeAction): State
    requires CanLife(s, a)
  {
    match a
    case Drain(message) => s.(c := DrainOpens(s.c, Refused(message)).(cleanup := Drained))
    case ClearTcp => s.(c := s.c.(cleanup := TcpCleared), up := s.up.(routes := {}))
    case ClearUdp => s.(c := s.c.(cleanup := UdpCleared), up := s.up.(udp := {}))
    case AbortWriter => s.(c := s.c.(cleanup := Done), down := Stop(s.down))
  }

  function ApplyLoop(s: State, a: LoopAction): State
    requires CanLoop(s, a)
  {
    match a
    case PumpOp(side, op) =>
      var q := Pump(PipeOf(s, side), op, side);
      WithPipe(s, side, q).(assocs := if side.Down? then s.assocs + q.udp else s.assocs)
    case Notify(side, reason) =>
      if side.Down?
      then s.(down := s.down.(reader := Idle), up := TrySend(s.up, Close(s.down.reader.id, reason)))
      else s.(up := s.up.(reader := Idle), down := TrySend(s.down, Close(s.up.reader.id, reason)))
    case Resolve =>
      var f := s.up.reader.frame;
      s.(c := ResolveOpen(s.c, f.id, if f.ok then Accepted else Refused(f.message)), up := s.up.(reader := Idle))
    case ClosePending =>
      s.(c := ResolveOpen(s.c, s.up.reader.id, Refused(s.up.reader.reason)), up := s.up.(reader := Idle))
    case Spawn =>
      var f := s.down.reader.frame;
      var via := if f.egress.Some? then f.egress else s.proxy;
      s.(tasks := s.tasks[f.id := Connecting(f.host, f.port, via)], down := s.down.(reader := Idle))
  }

  function ApplyTask(s: State, a: TaskAction): State
    requires CanTask(s, a)
  {
    match a
    case ConnectOk(id) => s.(tasks := s.tasks[id := Connected])
    case ConnectFails(id) => s.(tasks := s.tasks[id := Refusing])
    case Enter(id) => s.(tasks := s.tasks[id := Registered], down := Register(s.down, id))
    case ReplyOk(id, message) =>
      s.(tasks := s.tasks[id := Relaying], relays := s.relays + {id},
         up := TrySend(s.up, OpenTcpResult(id, true, message)))
    case ReplyFails(id, message) =>
      s.(tasks := s.tasks[id := Rejected], up := TrySend(s.up, OpenTcpResult(id, false, message)))
    case SocketRead(id, data) => s.(up := TrySend(s.up, Data(id, data)))
    case RelayStops(id) => s.(relays := s.relays - {id})
    case RelayEnds(id) => s.(tasks := s.tasks[id := Leaving])
    case Leave(id) => s.(tasks := s.tasks[id := Left], down := Unroute(s.down, id))
    case TaskClose(id, reason) => s.(tasks := s.tasks[id := Finished], up := TrySend(s.up, Close(id, reason)))
    case UdpReply(id, host, port, data) => s.(up := TrySend(s.up, UdpPacket(id, host, port, data)))
    case UdpBindFails(id, reason) => s.(up := TrySend(s.up, Close(id, reason)))
  }

  function Apply(s: State, a: Action): State
    requires Enabled(s, a)
  {
    match a
    case OpenStep(o) => ApplyOpen(s, o)
    case UseStep(u) => ApplyUse(s, u)
    case LifeStep(l) => ApplyLife(s, l)
    case LoopStep(l) => ApplyLoop(s, l)
    case TaskStep(t) => ApplyTask(s, t)
  }

  // Runs

  ghost predicate StepAt(run: seq<State>, acts: seq<Action>, i: nat)
    requires |run| == |acts| + 1 && i < |acts|
  {
    Enabled(run[i], acts[i]) && run[i + 1] == Apply(run[i], acts[i])
  }

  /** `run` is a run of the system from an initial state under the actions `acts`. */
  ghost predicate Run(run: seq<State>, acts: seq<Action>) {
    && |run| == |acts| + 1 && run[0] == Init(run[0].proxy)
    && forall i: nat :: i < |acts| ==> StepAt(run, acts, i)
  }
}
