/**
 What every run of the multiplexer keeps.
 */
module MuxTheorems {
  import opened Bytes
  import opened Frames
  import opened Pipes
  import opened Mux
  import opened MuxInvariant
  import opened MuxProofs

  // Stream ids

  /** The action issues the next id. */
  predicate Allocates(a: Action) { a.UseStep? && (a.use.AllocTcp? || a.use.AllocUdp?) }

  /** The wrapping counter issues distinct ids for exactly 2^32 allocations. */
  lemma IdsDistinctIff(n: nat)
    ensures (forall i: nat, j: nat :: i < j < n ==> IdAt(i) != IdAt(j)) <==> n <= U32
  {
    if n > U32 {
      assert IdAt(0) == IdAt(U32);
    } else {
      forall i: nat, j: nat | i < j < n ensures IdAt(i) != IdAt(j) {
        IdRank(i, IdAt(i));
        IdRank(j, IdAt(j));
      }
    }
  }

  lemma {:induction false} AllocsGrow(run: seq<State>, acts: seq<Action>, i: nat, j: nat)
    requires Run(run, acts) && i <= j < |run|
    ensures run[i].c.allocs <= run[j].c.allocs
    ensures i < j && Allocates(acts[i]) ==> run[i].c.allocs < run[j].c.allocs
  {
    if i < j {
      AllocsGrow(run, acts, i, j - 1);
      assert StepAt(run, acts, j - 1);
      AllocsStep(run[j - 1], acts[j - 1]);
    }
  }

  lemma AllocsStep(s: State, a: Action)
    requires Enabled(s, a)
    ensures Apply(s, a).c.allocs == s.c.allocs + if Allocates(a) then 1 else 0
  {
  }

  /** Two allocations of one run never issue the same id. */
  lemma IssuedIdsDistinct(run: seq<State>, acts: seq<Action>, i: nat, j: nat)
    requires Run(run, acts) && i < j < |acts| && Allocates(acts[i]) && Allocates(acts[j])
    ensures IdAt(run[i].c.allocs) != IdAt(run[j].c.allocs)
  {
    assert StepAt(run, acts, j);
    AllocsGrow(run, acts, i, j);
    IdsDistinctIff(run[j].c.allocs + 1);
  }

  /** An allocation in the first `n` steps of the run issued `id`. */
  ghost predicate Issued(run: seq<State>, acts: seq<Action>, n: nat, id: Id)
    requires Run(run, acts) && n <= |acts|
  {
    exists i :: 0 <= i < n && Allocates(acts[i]) && IdAt(run[i].c.allocs) == id
  }

  lemma {:induction false} CallsIssued(run: seq<State>, acts: seq<Action>, n: nat, id: Id)
    requires Run(run, acts) && n <= |acts| && id in run[n].c.calls
    ensures Issued(run, acts, n, id)
  {
    if n > 0 {
      var s, a := run[n - 1], acts[n - 1];
      assert StepAt(run, acts, n - 1);
      if id in s.c.calls {
        CallsIssued(run, acts, n - 1, id);
      } else {
        NewCall(s, a, id);
      }
    }
  }

  lemma NewCall(s: State, a: Action, id: Id)
    requires Enabled(s, a) && id in Apply(s, a).c.calls && id !in s.c.calls
    ensures Allocates(a) && id == IdAt(s.c.allocs)
  {
    match a
    case OpenStep(o) => if o.id != id { OpenLeavesCall(s, o, id); } else { OpenPhase(s, o); }
    case UseStep(u) =>
    case LifeStep(l) =>
    case LoopStep(l) => LoopCallsStay(s, l);
    case TaskStep(t) => TaskLeavesController(s, t);
  }

  /** Every id in a map of either end was issued before, and at neither end is an id in both stream maps. */
  lemma MapsHoldIssuedIds(run: seq<State>, acts: seq<Action>, n: nat, id: Id)
    requires Run(run, acts) && n <= |acts|
    ensures var s := run[n];
            && (id in s.c.pending || id in s.up.routes || id in s.up.udp || id in s.down.routes || id in s.down.udp
                ==> Issued(run, acts, n, id))
            && !(id in s.up.routes && id in s.up.udp)
            && !(id in s.down.routes && id in s.down.udp)
  {
    var s := run[n];
    RunInv(run, acts, n);
    assert CallOk(s, id) && MapsOk(s, id) && OpenOk(s, id) && Sound(s.down, id);
    if id in s.c.calls { CallsIssued(run, acts, n, id); }
  }

  // Where frames come from

  /** Every frame in flight was sent by an earlier step of the run, as it is. */
  lemma {:induction false} FrameOrigin(run: seq<State>, acts: seq<Action>, side: Side, n: nat, f: Frame)
    requires Run(run, acts) && n <= |acts| && f in InFlight(PipeOf(run[n], side))
    ensures exists i :: 0 <= i < n && Sends(run[i], acts[i], side) == Some(f)
  {
    if n > 0 {
      assert StepAt(run, acts, n - 1);
      NewFrames(run[n - 1], acts[n - 1], side, f);
      if f in InFlight(PipeOf(run[n - 1], side)) { FrameOrigin(run, acts, side, n - 1, f); }
    }
  }

  lemma {:induction false} ProxyStays(run: seq<State>, acts: seq<Action>, n: nat)
    requires Run(run, acts) && n < |run|
    ensures run[n].proxy == run[0].proxy
  {
    if n > 0 {
      ProxyStays(run, acts, n - 1);
      assert StepAt(run, acts, n - 1);
    }
  }

  /** A request that a caller sent in the first `n` steps asks for that host and port, through that proxy or the default. */
  ghost predicate Asked(run: seq<State>, acts: seq<Action>, n: nat, id: Id, host: Text, port: u16, via: Option<Text>)
    requires Run(run, acts) && n <= |acts|
  {
    exists i, egress :: 0 <= i < n && acts[i] == OpenStep(SendOpen(id, host, port, egress))
                        && via == if egress.Some? then egress else run[0].proxy
  }

  lemma SpawnAsked(run: seq<State>, acts: seq<Action>, n: nat)
    requires Run(run, acts) && n < |acts| && acts[n] == LoopStep(Spawn)
    ensures run[n].down.reader.Handling? && run[n].down.reader.frame.OpenTcp?
    ensures var f := run[n].down.reader.frame;
            Asked(run, acts, n, f.id, f.host, f.port, if f.egress.Some? then f.egress else run[0].proxy)
  {
    assert StepAt(run, acts, n);
    var f := run[n].down.reader.frame;
    assert f in Held(run[n].down) && f in InFlight(run[n].down);
    FrameOrigin(run, acts, Down, n, f);
    var i :| 0 <= i < n && Sends(run[i], acts[i], Down) == Some(f);
  }

  lemma NewTarget(s: State, a: Action, id: Id)
    requires Enabled(s, a) && id in Apply(s, a).tasks && Apply(s, a).tasks[id].Connecting?
    requires !(id in s.tasks && s.tasks[id] == Apply(s, a).tasks[id])
    ensures a == LoopStep(Spawn) && s.down.reader.frame.id == id
    ensures var f := s.down.reader.frame;
            Apply(s, a).tasks[id] == Connecting(f.host, f.port, if f.egress.Some? then f.egress else s.proxy)
  {
  }

  lemma {:induction false} TargetAsked(run: seq<State>, acts: seq<Action>, n: nat, id: Id)
    requires Run(run, acts) && n <= |acts| && id in run[n].tasks && run[n].tasks[id].Connecting?
    ensures Asked(run, acts, n, id, run[n].tasks[id].host, run[n].tasks[id].port, run[n].tasks[id].via)
  {
    if n > 0 {
      var s, a := run[n - 1], acts[n - 1];
      assert StepAt(run, acts, n - 1);
      if id in s.tasks && s.tasks[id] == run[n].tasks[id] {
        TargetAsked(run, acts, n - 1, id);
      } else {
        NewTarget(s, a, id);
        SpawnAsked(run, acts, n - 1);
        ProxyStays(run, acts, n - 1);
      }
    }
  }

  /** The remote connects to the host and port that the caller asked for, through the proxy asked for or else its default. */
  lemma ConnectsAsAsked(run: seq<State>, acts: seq<Action>, n: nat, id: Id)
    requires Run(run, acts) && n < |acts| && acts[n] in [TaskStep(ConnectOk(id)), TaskStep(ConnectFails(id))]
    ensures id in run[n].tasks && run[n].tasks[id].Connecting?
    ensures Asked(run, acts, n, id, run[n].tasks[id].host, run[n].tasks[id].port, run[n].tasks[id].via)
  {
    assert StepAt(run, acts, n);
    TargetAsked(run, acts, n, id);
  }

  /** The answer an open gets is the one that the remote's task for that id sent. */
  lemma AnswersAsSent(run: seq<State>, acts: seq<Action>, n: nat)
    requires Run(run, acts) && n < |acts| && acts[n] == LoopStep(Resolve)
    ensures run[n].up.reader.Handling? && run[n].up.reader.frame.OpenTcpResult?
    ensures var f := run[n].up.reader.frame;
            exists i :: 0 <= i < n && acts[i] == TaskStep(if f.ok then ReplyOk(f.id, f.message) else ReplyFails(f.id, f.message))
  {
    assert StepAt(run, acts, n);
    var f := run[n].up.reader.frame;
    assert f in Held(run[n].up) && f in InFlight(run[n].up);
    FrameOrigin(run, acts, Up, n, f);
    var i :| 0 <= i < n && Sends(run[i], acts[i], Up) == Some(f);
  }

  lemma {:induction false} TaskStaysOverRun(run: seq<State>, acts: seq<Action>, i: nat, j: nat, id: Id)
    requires Run(run, acts) && i <= j < |run| && id in run[i].tasks
    ensures id in run[j].tasks
  {
    if i < j {
      TaskStaysOverRun(run, acts, i, j - 1, id);
      assert StepAt(run, acts, j - 1);
    }
  }

  /** The remote starts at most one task for an open. */
  lemma ConnectsOnce(run: seq<State>, acts: seq<Action>, i: nat, j: nat)
    requires Run(run, acts) && i < j < |acts| && acts[i] == acts[j] == LoopStep(Spawn)
    ensures run[i].down.reader.Handling? && run[j].down.reader.Handling?
    ensures run[i].down.reader.frame != run[j].down.reader.frame
    ensures run[i].down.reader.frame.OpenTcp? && run[j].down.reader.frame.OpenTcp?
    ensures run[i].down.reader.frame.id != run[j].down.reader.frame.id
  {
    assert StepAt(run, acts, i) && StepAt(run, acts, j);
    var f := run[i].down.reader.frame;
    TaskStaysOverRun(run, acts, i + 1, j, f.id);
    RunInv(run, acts, j);
    assert OpenOk(run[j], f.id);
    HandledOpen(run[j].down);
  }

  lemma HandledOpen(p: Pipe)
    requires p.reader.Handling? && p.reader.frame.OpenTcp?
    ensures CountOpens(InFlight(p), p.reader.frame.id) >= 1
  {
    HandledLine(p, p.(reader := Idle), p.reader.frame.id);
  }

  // No early data

  /** A task that has entered the remote stream map did so by an earlier `Enter` step. */
  lemma {:induction false} EnteredBefore(run: seq<State>, acts: seq<Action>, n: nat, id: Id)
    requires Run(run, acts) && n <= |acts| && id in run[n].tasks && Entered(run[n].tasks[id])
    ensures exists i :: 0 <= i < n && acts[i] == TaskStep(Enter(id))
  {
    if n > 0 {
      var s, a := run[n - 1], acts[n - 1];
      assert StepAt(run, acts, n - 1);
      if id in s.tasks && Entered(s.tasks[id]) {
        EnteredBefore(run, acts, n - 1, id);
      } else {
        EnterEnters(s, a, id);
      }
    }
  }

  lemma EnterEnters(s: State, a: Action, id: Id)
    requires Enabled(s, a) && id in Apply(s, a).tasks && Entered(Apply(s, a).tasks[id])
    requires !(id in s.tasks && Entered(s.tasks[id]))
    ensures a == TaskStep(Enter(id))
  {
  }

  /** Data in flight towards the remote belongs to a stream that the remote has registered already. */
  lemma NoEarlyData(run: seq<State>, acts: seq<Action>, n: nat, f: Frame)
    requires Run(run, acts) && n <= |acts| && f in InFlight(run[n].down) && f.Data?
    ensures exists i :: 0 <= i < n && acts[i] == TaskStep(Enter(f.id)) && f.id in run[i + 1].down.routes
  {
    var s := run[n];
    RunInv(run, acts, n);
    DataOfMember(InFlight(s.down), f);
    assert Flow(s.down, f.id) && OpenOk(s, f.id) && CallOk(s, f.id);
    EnteredBefore(run, acts, n, f.id);
    var i :| 0 <= i < n && acts[i] == TaskStep(Enter(f.id));
    assert StepAt(run, acts, i);
  }

  // Streams

  /** The chunks enqueued for `id` on one side in the first `n` steps of a run. */
  ghost function Enqueued(run: seq<State>, acts: seq<Action>, side: Side, id: Id, n: nat): seq<Blob>
    requires Run(run, acts) && n <= |acts|
  {
    if n == 0 then [] else
    var a := acts[n - 1];
    Enqueued(run, acts, side, id, n - 1) +
    if side.Down? && a.UseStep? && a.use.SendData? && a.use.id == id then [a.use.data]
    else if side.Up? && a.TaskStep? && a.task.SocketRead? && a.task.id == id && run[n - 1].up.up then [a.task.data]
    else []
  }

  /** The chunks that the receiver of stream `id` was handed in the first `n` steps of a run. */
  ghost function Received(run: seq<State>, acts: seq<Action>, side: Side, id: Id, n: nat): seq<Blob>
    requires Run(run, acts) && n <= |acts|
  {
    if n == 0 then [] else
    assert StepAt(run, acts, n - 1);
    Received(run, acts, side, id, n - 1) +
    if acts[n - 1] == LoopStep(PumpOp(side, Take(id)))
    then [PipeOf(run[n - 1], side).chans[id].pushed[PipeOf(run[n - 1], side).chans[id].taken]]
    else []
  }

  lemma OpenSent(s: State, a: OpenAction)
    requires CanOpen(s, a)
    ensures ApplyOpen(s, a).up.sent == s.up.sent && ApplyOpen(s, a).down.sent == s.down.sent
  {
  }

  lemma UseSent(s: State, a: UseAction, id: Id)
    requires CanUse(s, a)
    ensures ApplyUse(s, a).up.sent == s.up.sent
    ensures Sent(ApplyUse(s, a).down, id)
         == Sent(s.down, id) + if a.SendData? && a.id == id then [a.data] else []
  {
  }

  lemma LoopSent(s: State, a: LoopAction)
    requires CanLoop(s, a)
    ensures ApplyLoop(s, a).up.sent == s.up.sent && ApplyLoop(s, a).down.sent == s.down.sent
  {
    if a.PumpOp? { PumpShrinks(PipeOf(s, a.side), a.op, a.side, 0); }
  }

  lemma TaskSent(s: State, a: TaskAction, id: Id)
    requires CanTask(s, a)
    ensures ApplyTask(s, a).down.sent == s.down.sent
    ensures Sent(ApplyTask(s, a).up, id)
         == Sent(s.up, id) + if a.SocketRead? && a.id == id && s.up.up then [a.data] else []
  {
  }

  lemma SentStep(s: State, a: Action, side: Side, id: Id)
    requires Enabled(s, a)
    ensures Sent(PipeOf(Apply(s, a), side), id) == Sent(PipeOf(s, side), id) +
            if side.Down? && a.UseStep? && a.use.SendData? && a.use.id == id then [a.use.data]
            else if side.Up? && a.TaskStep? && a.task.SocketRead? && a.task.id == id && s.up.up then [a.task.data]
            else []
  {
    match a
    case LoopStep(l) => LoopSent(s, l);
    case TaskStep(t) => TaskSent(s, t, id);
    case OpenStep(o) => OpenSent(s, o);
    case UseStep(u) => UseSent(s, u, id);
    case LifeStep(l) =>
  }

  lemma PumpTaken(p: Pipe, op: Op, side: Side, id: Id)
    requires CanPump(p, op, side) && Sound(p, id)
    ensures Taken(Pump(p, op, side), id)
         == Taken(p, id) + if op == Take(id) then [p.chans[id].pushed[p.chans[id].taken]] else []
  {
  }

  lemma OpenChannels(s: State, a: OpenAction, side: Side, id: Id)
    requires CanOpen(s, a) && MapsOk(s, id)
    ensures var before, after := PipeOf(s, side).chans, PipeOf(ApplyOpen(s, a), side).chans;
            if id in before then id in after && after[id] == before[id] else id in after ==> after[id] == Channel([], 0, true)
  {
  }

  lemma UseChannels(s: State, a: UseAction, side: Side)
    requires CanUse(s, a)
    ensures PipeOf(ApplyUse(s, a), side).chans == PipeOf(s, side).chans
  {
  }

  lemma TaskChannels(s: State, a: TaskAction, side: Side, id: Id)
    requires CanTask(s, a) && MapsOk(s, id)
    ensures var before, after := PipeOf(s, side).chans, PipeOf(ApplyTask(s, a), side).chans;
            if id in before then id in after && after[id] == before[id] else id in after ==> after[id] == Channel([], 0, true)
  {
  }

  /** Outside the loops a stream's channel is created empty, once, and not touched. */
  lemma ChannelStays(s: State, a: Action, side: Side, id: Id)
    requires Enabled(s, a) && MapsOk(s, id) && !a.LoopStep?
    ensures Taken(PipeOf(Apply(s, a), side), id) == Taken(PipeOf(s, side), id)
  {
    match a
    case OpenStep(o) => OpenChannels(s, o, side, id);
    case UseStep(u) => UseChannels(s, u, side);
    case LifeStep(l) =>
    case TaskStep(t) => TaskChannels(s, t, side, id);
  }

  lemma TakenStep(s: State, a: Action, side: Side, id: Id)
    requires Enabled(s, a) && MapsOk(s, id) && Sound(PipeOf(s, side), id)
    ensures Taken(PipeOf(Apply(s, a), side), id) == Taken(PipeOf(s, side), id) +
            if a == LoopStep(PumpOp(side, Take(id)))
            then [PipeOf(s, side).chans[id].pushed[PipeOf(s, side).chans[id].taken]] else []
  {
    if !a.LoopStep? {
      ChannelStays(s, a, side, id);
    } else if a.loop.PumpOp? && a.loop.side == side {
      PumpTaken(PipeOf(s, side), a.loop.op, side, id);
    }
  }

  /** The pipe's record of a stream is the run's own history of it. */
  lemma {:induction false} History(run: seq<State>, acts: seq<Action>, side: Side, id: Id, n: nat)
    requires Run(run, acts) && n <= |acts|
    ensures Sent(PipeOf(run[n], side), id) == Enqueued(run, acts, side, id, n)
    ensures Taken(PipeOf(run[n], side), id) == Received(run, acts, side, id, n)
  {
    if n > 0 {
      History(run, acts, side, id, n - 1);
      RunInv(run, acts, n - 1);
      var s := run[n - 1];
      assert StepAt(run, acts, n - 1);
      assert MapsOk(s, id) && Sound(s.down, id) && Sound(s.up, id);
      SentStep(s, acts[n - 1], side, id);
      TakenStep(s, acts[n - 1], side, id);
    }
  }

  /** In each direction a stream's receiver is handed a prefix of the chunks enqueued for that stream. */
  lemma StreamIsPrefix(run: seq<State>, acts: seq<Action>, side: Side, id: Id, n: nat)
    requires Run(run, acts) && n <= |acts|
    ensures Received(run, acts, side, id, n) <= Enqueued(run, acts, side, id, n)
  {
    History(run, acts, side, id, n);
    RunInv(run, acts, n);
    var p := PipeOf(run[n], side);
    assert Flow(p, id) && Sound(p, id);
    assert Taken(p, id) <= Pushed(p, id) <= Arrived(p, id);
  }

  /** While the route lives and the sender's writer runs, no chunk of the stream is missing anywhere. */
  lemma NothingLost(run: seq<State>, acts: seq<Action>, side: Side, id: Id, n: nat)
    requires Run(run, acts) && n <= |acts|
    requires Live(PipeOf(run[n], side), id) && PipeOf(run[n], side).up
    ensures var p := PipeOf(run[n], side);
            Arrived(p, id) + DataOf(InFlight(p), id) == Enqueued(run, acts, side, id, n)
  {
    History(run, acts, side, id, n);
    RunInv(run, acts, n);
    assert Flow(PipeOf(run[n], side), id);
  }

  /** Only the loops move the readers. */
  lemma ReadersStay(s: State, a: Action, side: Side)
    requires Enabled(s, a) && !a.LoopStep?
    ensures PipeOf(Apply(s, a), side).reader == PipeOf(s, side).reader
  {
    match a
    case OpenStep(o) => assert ApplyOpen(s, o).up.reader == s.up.reader && ApplyOpen(s, o).down.reader == s.down.reader;
    case UseStep(u) => assert ApplyUse(s, u).up.reader == s.up.reader && ApplyUse(s, u).down.reader == s.down.reader;
    case LifeStep(l) =>
    case TaskStep(t) => assert ApplyTask(s, t).up.reader == s.up.reader && ApplyTask(s, t).down.reader == s.down.reader;
  }

  /** A reader that is to notify the peer of a drop does nothing else first. */
  lemma NotifyStep(s: State, a: Action, side: Side, id: Id)
    requires Enabled(s, a) && PipeOf(s, side).reader == Notifying(id)
    ensures PipeOf(Apply(s, a), side).reader == Notifying(id) || (a.LoopStep? && a.loop.Notify? && a.loop.side == side)
  {
    if !a.LoopStep? { ReadersStay(s, a, side); }
  }

  function OtherSide(side: Side): Side { if side.Down? then Up else Down }

  /** In step `i` a Close for stream `id` goes to the side that a reader serves; it is queued unless that writer is gone. */
  predicate Notified(run: seq<State>, acts: seq<Action>, side: Side, id: Id, i: nat)
    requires |run| == |acts| + 1
  {
    i < |acts| &&
    var sent := Sends(run[i], acts[i], OtherSide(side));
    && sent.Some? && sent.value.Close? && sent.value.id == id
    && (PipeOf(run[i], OtherSide(side)).up ==> sent.value in PipeOf(run[i + 1], OtherSide(side)).queue)
  }

  /** A stream that a reader drops for backpressure is closed towards its sender before the reader goes on. */
  lemma {:induction false} DropIsNotified(run: seq<State>, acts: seq<Action>, side: Side, op: Op, k: nat, n: nat)
    requires Run(run, acts) && k < n <= |acts| && acts[k] == LoopStep(PumpOp(side, op)) && (op.Discard? || op.DiscardUdp?)
    ensures var r := PipeOf(run[k], side).reader; if op.Discard? then r.TimingOut? else r.TimingOutUdp?
    ensures var id, p := PipeOf(run[k], side).reader.id, PipeOf(run[k + 1], side);
            && id !in (if op.Discard? then p.routes else p.udp)
            && (PipeOf(run[n], side).reader == Notifying(id)
                || exists i :: k < i < n && Notified(run, acts, side, id, i))
  {
    assert StepAt(run, acts, k);
    var id := PipeOf(run[k], side).reader.id;
    if n > k + 1 {
      DropIsNotified(run, acts, side, op, k, n - 1);
      assert StepAt(run, acts, n - 1);
      if PipeOf(run[n - 1], side).reader == Notifying(id) {
        NotifyStep(run[n - 1], acts[n - 1], side, id);
        assert PipeOf(run[n], side).reader == Notifying(id) || Notified(run, acts, side, id, n - 1);
      }
    }
  }

  // Opens

  lemma LoopSlotStays(s: State, a: LoopAction, id: Id)
    requires CallOk(s, id) && CanLoop(s, a) && id in s.c.slots
    ensures id in ApplyLoop(s, a).c.slots && ApplyLoop(s, a).c.slots[id] == s.c.slots[id]
  {
  }

  /** A reply once sent is never replaced. */
  lemma SlotStays(s: State, a: Action, id: Id)
    requires CallOk(s, id) && Enabled(s, a) && id in s.c.slots
    ensures id in Apply(s, a).c.slots && Apply(s, a).c.slots[id] == s.c.slots[id]
  {
    match a
    case OpenStep(o) => OpenRemote(s, o);
    case UseStep(u) =>
    case LifeStep(l) =>
    case LoopStep(l) => LoopSlotStays(s, l, id);
    case TaskStep(t) => TaskLeavesController(s, t);
  }

  lemma {:induction false} SlotStaysOverRun(run: seq<State>, acts: seq<Action>, i: nat, j: nat, id: Id)
    requires Run(run, acts) && i <= j < |run| && id in run[i].c.slots
    ensures id in run[j].c.slots && run[j].c.slots[id] == run[i].c.slots[id]
  {
    if i < j {
      SlotStaysOverRun(run, acts, i, j - 1, id);
      RunInv(run, acts, j - 1);
      assert CallOk(run[j - 1], id);
      assert StepAt(run, acts, j - 1);
      SlotStays(run[j - 1], acts[j - 1], id);
    }
  }

  /** The reader handles an accepting result for `id` in the step from `s`. */
  predicate Accepts(s: State, a: Action, id: Id) {
    a == LoopStep(Resolve) && s.up.reader.Handling? && s.up.reader.frame.OpenTcpResult?
    && s.up.reader.frame.id == id && s.up.reader.frame.ok
  }

  lemma AcceptStep(s: State, a: Action, id: Id)
    requires Enabled(s, a) && AcceptedAt(Apply(s, a), id) && !AcceptedAt(s, id)
    ensures Accepts(s, a, id)
  {
  }

  lemma {:induction false} AcceptedBefore(run: seq<State>, acts: seq<Action>, n: nat, id: Id) returns (i: nat)
    requires Run(run, acts) && n <= |acts| && AcceptedAt(run[n], id)
    ensures i < n && Accepts(run[i], acts[i], id) && AcceptedAt(run[i + 1], id)
  {
    assert StepAt(run, acts, n - 1);
    if AcceptedAt(run[n - 1], id) {
      i := AcceptedBefore(run, acts, n - 1, id);
    } else {
      AcceptStep(run[n - 1], acts[n - 1], id);
      i := n - 1;
    }
  }

  /** The remote had registered the stream before the controller handled its accepting result. */
  lemma EnteredBeforeAccept(run: seq<State>, acts: seq<Action>, i: nat, id: Id) returns (j: nat)
    requires Run(run, acts) && i < |acts| && Accepts(run[i], acts[i], id) && AcceptedAt(run[i + 1], id)
    ensures j < i && acts[j] == TaskStep(Enter(id))
  {
    RunInv(run, acts, i + 1);
    assert OpenOk(run[i + 1], id);
    assert StepAt(run, acts, i);
    assert run[i + 1].tasks == run[i].tasks;
    EnteredBefore(run, acts, i, id);
    j :| 0 <= j < i && acts[j] == TaskStep(Enter(id));
  }

  /**
   At every point of every run: an open's oneshot has been sent to at most once; an open that has
   returned is out of the pending map; one that failed is out of the stream map too; one that
   succeeded had an ok result carrying its own id, sent by a remote that had registered the stream.
   */
  lemma OpenResolution(run: seq<State>, acts: seq<Action>, n: nat, id: Id)
    requires Run(run, acts) && n <= |acts|
    ensures run[n].c.sends[id] <= 1
    ensures At(run[n], id, Opened) || At(run[n], id, Failed) ==> id !in run[n].c.pending
    ensures At(run[n], id, Failed) ==> id !in run[n].up.routes
    ensures At(run[n], id, Opened) ==>
              exists i, j :: 0 <= j < i < n && acts[j] == TaskStep(Enter(id)) && Accepts(run[i], acts[i], id)
  {
    RunInv(run, acts, n);
    var s := run[n];
    assert CallOk(s, id) && MapsOk(s, id) && OpenOk(s, id);
    if At(s, id, Opened) {
      var i := AcceptedBefore(run, acts, n, id);
      var j := EnteredBeforeAccept(run, acts, i, id);
    }
  }

  /** An open waits for a reply that can still come: its sender is pending, or the reply is there. */
  lemma NoLostReply(run: seq<State>, acts: seq<Action>, n: nat, id: Id)
    requires Run(run, acts) && n <= |acts| && At(run[n], id, Waiting)
    ensures (id in run[n].c.pending) != (id in run[n].c.slots)
  {
    RunInv(run, acts, n);
    assert CallOk(run[n], id);
  }

  // Shutdown

  /** An open that was not accepted by the time the reader ended never succeeds. */
  lemma {:induction false} NoLateOpen(run: seq<State>, acts: seq<Action>, i: nat, j: nat, id: Id)
    requires Run(run, acts) && i <= j < |run| && run[i].up.reader.Ended? && !AcceptedAt(run[i], id)
    ensures run[j].up.reader.Ended? && !AcceptedAt(run[j], id) && !At(run[j], id, Opened)
  {
    RunInv(run, acts, j);
    assert CallOk(run[j], id);
    if i < j {
      NoLateOpen(run, acts, i, j - 1, id);
      assert StepAt(run, acts, j - 1);
      EndedStays(run[j - 1], acts[j - 1]);
      if AcceptedAt(run[j], id) { NoLateAccept(run[j - 1], acts[j - 1], id); }
    }
  }

  /** Every open pending at the drain gets that one error, and keeps it; none of them succeeds. */
  lemma DrainAnswersAll(run: seq<State>, acts: seq<Action>, i: nat, j: nat, message: Text, id: Id)
    requires Run(run, acts) && i < j < |run|
    requires acts[i] == LifeStep(Drain(message)) && id in run[i].c.pending
    ensures run[i].c.sends[id] == 0 && run[j].c.sends[id] == 1
    ensures id in run[j].c.slots && run[j].c.slots[id] == Refused(message) && !At(run[j], id, Opened)
  {
    RunInv(run, acts, i);
    RunInv(run, acts, j);
    assert CallOk(run[i], id) && CallOk(run[j], id);
    assert StepAt(run, acts, i);
    SlotStaysOverRun(run, acts, i + 1, j, id);
  }

  /** Once no open is in progress the pending map is empty, and after the clean-up so is the stream map. */
  lemma MapsDrain(run: seq<State>, acts: seq<Action>, n: nat)
    requires Run(run, acts) && n <= |acts|
    requires forall id :: id in run[n].c.calls ==> !InProgress(run[n].c.calls[id])
    ensures run[n].c.pending == {}
    ensures run[n].c.cleanup.TcpCleared? || run[n].c.cleanup.UdpCleared? || run[n].c.cleanup.Done?
            ==> run[n].up.routes == {}
  {
    RunInv(run, acts, n);
    var s := run[n];
    forall id: Id ensures id !in s.c.pending { assert CallOk(s, id); }
    if s.c.cleanup.TcpCleared? || s.c.cleanup.UdpCleared? || s.c.cleanup.Done? {
      forall id: Id ensures id !in s.up.routes { assert CallOk(s, id) && MapsOk(s, id); }
    }
  }

  /** How many own steps an open can still take. */
  function StepsLeft(p: Phase): nat {
    match p
    case Start => 6
    case InPending => 5
    case InStreams => 4
    case Waiting => 3
    case AbandonPending => 2
    case AbandonStream => 1
    case RefusedStream => 2
    case RefusedPending => 1
    case _ => 0
  }

  /** How many of the actions `i` to `j` are steps of the open with this id. */
  function OwnSteps(acts: seq<Action>, i: nat, j: nat, id: Id): nat
    requires i <= j <= |acts|
  {
    if i == j then 0
    else OwnSteps(acts, i, j - 1, id) + if acts[j - 1].OpenStep? && acts[j - 1].open.id == id then 1 else 0
  }

  lemma OpenDecreases(s: State, o: OpenAction)
    requires CanOpen(s, o)
    ensures o.id in s.c.calls && o.id in ApplyOpen(s, o).c.calls && !Udp(ApplyOpen(s, o).c.calls[o.id])
    ensures StepsLeft(ApplyOpen(s, o).c.calls[o.id]) < StepsLeft(s.c.calls[o.id])
  {
  }

  lemma OwnStepDecreases(s: State, a: Action, id: Id)
    requires CallOk(s, id) && s.c.allocs <= U32 && Enabled(s, a) && id in s.c.calls
    ensures id in Apply(s, a).c.calls
    ensures StepsLeft(Apply(s, a).c.calls[id]) + (if a.OpenStep? && a.open.id == id then 1 else 0)
         <= StepsLeft(s.c.calls[id])
  {
    PhaseStays(s, a, id);
    if a.OpenStep? && a.open.id == id { OpenDecreases(s, a.open); }
  }

  /** An open takes at most six steps of its own, whatever the rest of the system does. */
  lemma {:induction false} OpenIsBounded(run: seq<State>, acts: seq<Action>, i: nat, j: nat, id: Id)
    requires Run(run, acts) && i <= j < |run| && id in run[i].c.calls
    ensures id in run[j].c.calls
    ensures OwnSteps(acts, i, j, id) + StepsLeft(run[j].c.calls[id]) <= StepsLeft(run[i].c.calls[id]) <= 6
  {
    if i < j {
      OpenIsBounded(run, acts, i, j - 1, id);
      RunInv(run, acts, j - 1);
      assert CallOk(run[j - 1], id);
      assert StepAt(run, acts, j - 1);
      OwnStepDecreases(run[j - 1], acts[j - 1], id);
    }
  }

  /** The own step that an open in progress can take. */
  function NextStep(s: State, id: Id): OpenAction
    requires id in s.c.calls && InProgress(s.c.calls[id])
  {
    match s.c.calls[id]
    case Start => InsertPending(id)
    case InPending => InsertStream(id)
    case InStreams => if s.down.up then SendOpen(id, [], 0, None) else SendOpenFails(id)
    case Waiting => if id in s.c.slots then Receive(id) else TimeOut(id)
    case AbandonPending => LeavePending(id)
    case AbandonStream => LeaveStreams(id)
    case RefusedStream => RefusedLeaveStreams(id)
    case _ => RefusedLeavePending(id)
  }

  /** An open in progress can always take its next step, except exactly while the writer's queue is full. */
  lemma OnlyBackpressureBlocks(s: State, id: Id)
    requires id in s.c.calls && InProgress(s.c.calls[id])
    ensures (exists o: OpenAction :: o.id == id && CanOpen(s, o))
       <==> !(At(s, id, InStreams) && s.down.up && |s.down.queue| >= FRAME_CHANNEL_CAPACITY)
  {
    if !(At(s, id, InStreams) && s.down.up && |s.down.queue| >= FRAME_CHANNEL_CAPACITY) {
      assert CanOpen(s, NextStep(s, id));
    }
  }

  lemma NextStepEnabled(s: State, id: Id)
    requires id in s.c.calls && InProgress(s.c.calls[id]) && !s.down.up
    ensures NextStep(s, id).id == id && CanOpen(s, NextStep(s, id))
  {
  }

  lemma CleanupStays(s: State, o: OpenAction)
    requires CanOpen(s, o)
    ensures ApplyOpen(s, o).c.cleanup == s.c.cleanup
  {
  }

  lemma NextStepRuns(s: State, id: Id)
    requires Inv(s) && s.c.cleanup.Done? && id in s.c.calls && InProgress(s.c.calls[id])
    ensures NextStep(s, id).id == id && CanOpen(s, NextStep(s, id))
    ensures var t := ApplyOpen(s, NextStep(s, id));
            && Inv(t) && t.c.cleanup.Done? && id in t.c.calls && !Udp(t.c.calls[id])
            && StepsLeft(t.c.calls[id]) < StepsLeft(s.c.calls[id])
  {
    NextStepEnabled(s, id);
    StepKeepsInv(s, OpenStep(NextStep(s, id)));
    CleanupStays(s, NextStep(s, id));
    OpenDecreases(s, NextStep(s, id));
  }

  /** After the clean-up every open still in progress can run to its end on its own steps alone. */
  lemma OpenEndsAfterCleanup(s: State, id: Id) returns (os: seq<OpenAction>, states: seq<State>)
    requires Inv(s) && s.c.cleanup.Done? && id in s.c.calls && !Udp(s.c.calls[id])
    ensures |states| == |os| + 1 && states[0] == s && |os| <= StepsLeft(s.c.calls[id])
    ensures forall i :: 0 <= i < |os| ==> os[i].id == id && CanOpen(states[i], os[i]) && states[i + 1] == ApplyOpen(states[i], os[i])
    ensures At(states[|os|], id, Opened) || At(states[|os|], id, Failed)
    decreases StepsLeft(s.c.calls[id])
  {
    if !InProgress(s.c.calls[id]) {
      os, states := [], [s];
    } else {
      NextStepRuns(s, id);
      var o := NextStep(s, id);
      var os', states' := OpenEndsAfterCleanup(ApplyOpen(s, o), id);
      os, states := [o] + os', [s] + states';
    }
  }
}
