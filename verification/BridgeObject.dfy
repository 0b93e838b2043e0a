/**
 The shared object behind a `BridgeHandle` (`BridgeInner` in
 `crates/ssh-proxy/src/bridge.rs`) and the calls on it.  A call is a series of lock
 sections; between two of them other tasks run, and what they do is any series of
 steps of the system that are not the call's own.
 */
module BridgeObject {
  import opened Bytes
  import opened Frames
  import opened Pipes
  import opened Mux
  import opened MuxInvariant
  import opened MuxProofs
  import MuxTheorems

  lemma FillOne(slots: map<Id, Reply>, pending: set<Id>, id: Id, r: Reply)
    requires id in pending
    ensures FillSlots(slots[id := r], pending - {id}, r) == FillSlots(slots, pending, r)
    ensures multiset{id} + multiset(pending - {id}) == multiset(pending)
  {
    assert slots[id := r].Keys + (pending - {id}) == slots.Keys + pending;
    assert multiset(pending) == multiset(pending - {id} + {id});
  }

  lemma FillNone(slots: map<Id, Reply>, r: Reply)
    ensures FillSlots(slots, {}, r) == slots
  {
    assert slots.Keys + {} == slots.Keys;
  }

  // Other tasks

  /** A task that is in the middle of a call, or the lifecycle task in the middle of its clean-up. */
  datatype Caller = Opening(id: Id) | Closing(id: Id) | Unregistering(id: Id) | CleaningUp

  /** The steps that nobody else takes meanwhile. */
  predicate Own(a: Action, caller: Caller) {
    match caller
    case Opening(id) => MovesPhase(a, id)
    case Closing(id) => a == UseStep(CloseRemove(id))
    case Unregistering(id) => a.UseStep? && a.use.UnregisterSend? && a.use.id == id
    case CleaningUp => a.LifeStep?
  }

  /** What therefore stays as the caller left it. */
  ghost predicate Stays(s: State, t: State, caller: Caller) {
    match caller
    case Opening(id) => id in s.c.calls ==> id in t.c.calls && t.c.calls[id] == s.c.calls[id]
    case Closing(id) => id in s.c.closing ==> id in t.c.closing
    case Unregistering(id) => id in s.c.closingUdp ==> id in t.c.closingUdp
    case CleaningUp => t.c.cleanup == s.c.cleanup && (s.up.reader.Ended? ==> t.up.reader.Ended?)
  }

  lemma OthersLeave(s: State, a: Action, caller: Caller)
    requires Inv(s) && Enabled(s, a) && !Own(a, caller)
    ensures Stays(s, Apply(s, a), caller)
  {
    match caller
    case Opening(id) => if id in s.c.calls { InvAt(s, id); PhaseStays(s, a, id); }
    case Closing(id) => if id in s.c.closing { ClosingStays(s, a, id); }
    case Unregistering(id) => if id in s.c.closingUdp { UnregisteringStays(s, a, id); }
    case CleaningUp => EndedStays(s, a); CleanupStays(s, a);
  }

  lemma ClosingStays(s: State, a: Action, id: Id)
    requires Enabled(s, a) && a != UseStep(CloseRemove(id)) && id in s.c.closing
    ensures id in Apply(s, a).c.closing
  {
    match a
    case OpenStep(o) => OpenLeavesRest(s, o);
    case UseStep(u) =>
    case LifeStep(l) =>
    case LoopStep(l) =>
    case TaskStep(t) => TaskLeavesController(s, t);
  }

  lemma OpenLeavesRest(s: State, a: OpenAction)
    requires CanOpen(s, a)
    ensures ApplyOpen(s, a).c.closing == s.c.closing && ApplyOpen(s, a).c.closingUdp == s.c.closingUdp
    ensures ApplyOpen(s, a).c.cleanup == s.c.cleanup
  {
  }

  lemma UnregisteringStays(s: State, a: Action, id: Id)
    requires Enabled(s, a) && !Own(a, Unregistering(id)) && id in s.c.closingUdp
    ensures id in Apply(s, a).c.closingUdp
  {
    match a
    case OpenStep(o) => OpenLeavesRest(s, o);
    case UseStep(u) =>
    case LifeStep(l) =>
    case LoopStep(l) =>
    case TaskStep(t) => TaskLeavesController(s, t);
  }

  lemma CleanupStays(s: State, a: Action)
    requires Enabled(s, a) && !a.LifeStep?
    ensures Apply(s, a).c.cleanup == s.c.cleanup
  {
    match a
    case OpenStep(o) => OpenLeavesRest(s, o);
    case UseStep(u) =>
    case LoopStep(l) =>
    case TaskStep(t) => TaskLeavesController(s, t);
  }

  /** `s` leads to `t` by steps of the system. */
  ghost predicate Leads(s: State, t: State, acts: seq<Action>)
    decreases acts
  {
    if acts == [] then s == t
    else Enabled(s, acts[0]) && Leads(Apply(s, acts[0]), t, acts[1..])
  }

  lemma {:induction false} LeadsOn(s: State, t: State, u: State, acts: seq<Action>, more: seq<Action>)
    requires Leads(s, t, acts) && Leads(t, u, more)
    ensures Leads(s, u, acts + more)
    decreases acts
  {
    if acts == [] {
      assert acts + more == more;
    } else {
      LeadsOn(Apply(s, acts[0]), t, u, acts[1..], more);
      assert (acts + more)[0] == acts[0] && (acts + more)[1..] == acts[1..] + more;
    }
  }

  /** Some steps of the system, of whatever tasks, lead from `s` to `t`. */
  ghost predicate Reaches(s: State, t: State) { exists acts :: Leads(s, t, acts) }

  lemma ReachesSelf(s: State)
    ensures Reaches(s, s)
  {
    assert Leads(s, s, []);
  }

  lemma ReachesOn(s: State, t: State, u: State)
    requires Reaches(s, t) && Reaches(t, u)
    ensures Reaches(s, u)
  {
    var acts :| Leads(s, t, acts);
    var more :| Leads(t, u, more);
    LeadsOn(s, t, u, acts, more);
  }

  lemma ReachesNext(s: State, t: State, a: Action)
    requires Reaches(s, t) && Enabled(t, a)
    ensures Reaches(s, Apply(t, a))
  {
    assert Leads(t, Apply(t, a), [a]) by { assert [a][1..] == []; }
    ReachesOn(s, t, Apply(t, a));
  }

  /** A state of some run of the system. */
  ghost predicate Reachable(s: State) { exists proxy: Option<Text> :: Reaches(Init(proxy), s) }

  lemma ReachableOn(s: State, t: State)
    requires Reachable(s) && Reaches(s, t)
    ensures Reachable(t)
  {
    var proxy :| Reaches(Init(proxy), s);
    ReachesOn(Init(proxy), s, t);
  }

  lemma {:induction false} LeadsInv(s: State, t: State, acts: seq<Action>)
    requires Leads(s, t, acts) && Inv(s)
    ensures Inv(t)
    decreases acts
  {
    if acts != [] {
      StepKeepsInv(s, acts[0]);
      LeadsInv(Apply(s, acts[0]), t, acts[1..]);
    }
  }

  lemma ReachableInv(s: State, id: Id)
    requires Reachable(s)
    ensures Inv(s) && IdOk(s, id)
  {
    var proxy :| Reaches(Init(proxy), s);
    var acts :| Leads(Init(proxy), s, acts);
    InitInv(proxy);
    LeadsInv(Init(proxy), s, acts);
    InvAt(s, id);
  }

  lemma OthersStep(s: State, t: State, a: Action, caller: Caller)
    requires Reachable(s) && Reaches(s, t) && Stays(s, t, caller) && Enabled(t, a) && !Own(a, caller)
    ensures Reaches(s, Apply(t, a)) && Stays(s, Apply(t, a), caller)
  {
    ReachableOn(s, t);
    ReachableInv(t, 0);
    OthersLeave(t, a, caller);
    ReachesNext(s, t, a);
  }

  /** How a call of `open_tcp` stands: it has returned, or still waits for room in the writer's queue. */
  datatype Outcome = Succeeded | Failure | Blocked

  /** Those of the given steps happen that are possible at their turn and are not the caller's own. */
  method RunOthers(ghost s: State, t: State, others: seq<Action>, caller: Caller) returns (u: State)
    requires Reachable(s) && Reaches(s, t)
    ensures Reaches(s, u) && Stays(t, u, caller)
  {
    ReachableOn(s, t);
    ReachesSelf(t);
    u := t;
    for i := 0 to |others|
      invariant Reaches(t, u) && Stays(t, u, caller)
    {
      if Enabled(u, others[i]) && !Own(others[i], caller) {
        OthersStep(t, u, others[i], caller);
        u := Apply(u, others[i]);
      }
    }
    ReachesOn(s, t, u);
  }

  class BridgeInner {
    var nextId: Id
    var pendingTcp: set<Id>
    var replies: map<Id, Reply>        // the oneshot values, by the id of their open
    var tcpStreams: set<Id>
    var udpStreams: set<Id>
    var queue: seq<Frame>
    var writerUp: bool
    ghost var sends: multiset<Id>

    /** The object holds the controller's shared part of the system state `s`. */
    ghost predicate Represents(s: State)
      reads this
    {
      && nextId == IdAt(s.c.allocs) && pendingTcp == s.c.pending && replies == s.c.slots && sends == s.c.sends
      && tcpStreams == s.up.routes && udpStreams == s.up.udp
      && queue == s.down.queue && writerUp == s.down.up
    }

    constructor (ghost proxy: Option<Text>)
      ensures Represents(Init(proxy))
    {
      nextId, pendingTcp, replies, tcpStreams, udpStreams := 1, {}, map[], {}, {};
      queue, writerUp, sends := [], true, multiset{};
    }

    method FetchId(ghost s: State, udp: bool) returns (id: Id)
      requires Represents(s) && s.c.allocs < U32
      modifies this
      ensures id == IdAt(s.c.allocs)
      ensures Represents(ApplyUse(s, if udp then AllocUdp else AllocTcp))
    {
      id := nextId;
      nextId := (nextId + 1) % U32;
    }

    method InsertPendingTcp(ghost s: State, id: Id)
      requires Represents(s) && CanOpen(s, InsertPending(id))
      modifies this
      ensures Represents(ApplyOpen(s, InsertPending(id)))
    {
      pendingTcp := pendingTcp + {id};
    }

    method InsertTcpStream(ghost s: State, id: Id)
      requires Represents(s) && CanOpen(s, InsertStream(id))
      modifies this
      ensures Represents(ApplyOpen(s, InsertStream(id)))
    {
      tcpStreams := tcpStreams + {id};
    }

    /** `writer.send` of an open: refused only when the writer task is gone. */
    method SendOpenTcp(ghost s: State, id: Id, host: Text, port: u16, egress: Option<Text>) returns (ok: bool)
      requires Represents(s) && At(s, id, InStreams) && CanTrySend(s.down)
      modifies this
      ensures ok == s.down.up
      ensures Represents(if ok then ApplyOpen(s, SendOpen(id, host, port, egress)) else ApplyOpen(s, SendOpenFails(id)))
    {
      ok := writerUp;
      if ok { queue := queue + [OpenTcp(id, host, port, egress)]; }
    }

    /** The removals on the failure paths: `step` says on which. */
    method RemovePendingTcp(ghost s: State, ghost step: OpenAction, id: Id)
      requires Represents(s) && step in [LeavePending(id), RefusedLeavePending(id)] && CanOpen(s, step)
      modifies this
      ensures Represents(ApplyOpen(s, step))
    {
      pendingTcp := pendingTcp - {id};
    }

    method RemoveTcpStream(ghost s: State, ghost step: OpenAction, id: Id)
      requires Represents(s) && step in [LeaveStreams(id), RefusedLeaveStreams(id)] && CanOpen(s, step)
      modifies this
      ensures Represents(ApplyOpen(s, step))
    {
      tcpStreams := tcpStreams - {id};
    }

    /** The frame that `close` and `unregister_udp` send; it is lost when the writer task is gone. */
    method SendCloseFrame(id: Id, reason: Text)
      requires writerUp ==> |queue| < FRAME_CHANNEL_CAPACITY
      modifies this`queue
      ensures queue == if writerUp then old(queue) + [Close(id, reason)] else old(queue)
    {
      if writerUp { queue := queue + [Close(id, reason)]; }
    }

    /** The reader's lock section for a result or a close: take the sender out and send, if it is there. */
    method ResolvePending(id: Id, reply: Reply)
      modifies this
      ensures old(id in pendingTcp) ==> pendingTcp == old(pendingTcp) - {id} && replies == old(replies)[id := reply]
                                        && sends == old(sends) + multiset{id}
      ensures old(id !in pendingTcp) ==> pendingTcp == old(pendingTcp) && replies == old(replies) && sends == old(sends)
      ensures unchanged(`nextId, `tcpStreams, `udpStreams, `queue, `writerUp)
    {
      if id in pendingTcp {
        pendingTcp := pendingTcp - {id};
        replies := replies[id := reply];
        sends := sends + multiset{id};
      }
    }

    /** The reader's step for an open result, and its last one for a Close: the open is answered if it still waits. */
    method AnswerOpen(s: State) returns (t: State)
      requires Represents(s) && Reachable(s) && (CanLoop(s, Resolve) || CanLoop(s, ClosePending))
      modifies this
      ensures Represents(t) && Reaches(s, t)
      ensures var r := s.up.reader;
              var (id, reply) := if r.ClosingPending? then (r.id, Refused(r.reason))
                                 else (r.frame.id, if r.frame.ok then Accepted else Refused(r.frame.message));
              && id !in pendingTcp && pendingTcp == old(pendingTcp) - {id}
              && replies == if id in old(pendingTcp) then old(replies)[id := reply] else old(replies)
    {
      ReachesSelf(s);
      var r := s.up.reader;
      if r.ClosingPending? {
        ResolvePending(r.id, Refused(r.reason));
        ReachesNext(s, s, LoopStep(ClosePending));
        t := ApplyLoop(s, ClosePending);
      } else {
        ResolvePending(r.frame.id, if r.frame.ok then Accepted else Refused(r.frame.message));
        ReachesNext(s, s, LoopStep(Resolve));
        t := ApplyLoop(s, Resolve);
      }
    }

    /** Take every sender out of the map and send it the reply. */
    method SendToAll(reply: Reply)
      modifies this
      ensures pendingTcp == {} && replies == FillSlots(old(replies), old(pendingTcp), reply)
      ensures sends == old(sends) + multiset(old(pendingTcp))
      ensures unchanged(`nextId, `tcpStreams, `udpStreams, `queue, `writerUp)
    {
      while pendingTcp != {}
        invariant FillSlots(replies, pendingTcp, reply) == FillSlots(old(replies), old(pendingTcp), reply)
        invariant sends + multiset(pendingTcp) == old(sends) + multiset(old(pendingTcp))
        invariant unchanged(`nextId, `tcpStreams, `udpStreams, `queue, `writerUp)
        decreases pendingTcp
      {
        var id :| id in pendingTcp;
        FillOne(replies, pendingTcp, id, reply);
        ResolvePending(id, reply);
      }
      FillNone(replies, reply);
    }

    /** The lifecycle task's drain. */
    method DrainPending(ghost s: State, message: Text)
      requires Represents(s) && CanLife(s, Drain(message))
      modifies this
      ensures Represents(ApplyLife(s, Drain(message)))
    {
      SendToAll(Refused(message));
    }

    method ClearStreams(ghost s: State)
      requires Represents(s) && CanLife(s, ClearTcp)
      modifies this
      ensures Represents(ApplyLife(s, ClearTcp))
    {
      tcpStreams := {};
    }

    method ClearUdpStreams(ghost s: State)
      requires Represents(s) && CanLife(s, ClearUdp)
      modifies this
      ensures Represents(ApplyLife(s, ClearUdp))
    {
      udpStreams := {};
    }

    method StopWriterTask(ghost s: State)
      requires Represents(s) && CanLife(s, AbortWriter)
      modifies this
      ensures Represents(ApplyLife(s, AbortWriter))
    {
      writerUp, queue := false, [];
    }

    // Calls

    /** Other tasks run, and the object holds what they leave. */
    method Yield(ghost s: State, t: State, others: seq<Action>, caller: Caller) returns (u: State)
      requires Represents(t) && Reachable(s) && Reaches(s, t)
      modifies this
      ensures Represents(u) && Reaches(s, u) && Stays(t, u, caller)
    {
      u := RunOthers(s, t, others, caller);
      nextId, pendingTcp, replies, sends := IdAt(u.c.allocs), u.c.pending, u.c.slots, u.c.sends;
      tcpStreams, udpStreams, queue, writerUp := u.up.routes, u.up.udp, u.down.queue, u.down.up;
    }

    /** The failed send and the timeout: out of the pending map, then out of the stream map. */
    method Abandon(ghost s: State, t: State, id: Id, between: seq<Action>) returns (u: State)
      requires Represents(t) && Reachable(s) && Reaches(s, t) && At(t, id, AbandonPending)
      modifies this
      ensures Represents(u) && Reaches(s, u) && At(u, id, Failed)
    {
      RemovePendingTcp(t, LeavePending(id), id);
      ReachesNext(s, t, OpenStep(LeavePending(id)));
      u := Yield(s, ApplyOpen(t, LeavePending(id)), between, Opening(id));
      RemoveTcpStream(u, LeaveStreams(id), id);
      ReachesNext(s, u, OpenStep(LeaveStreams(id)));
      u := ApplyOpen(u, LeaveStreams(id));
    }

    /** The refusal: out of the stream map, then out of the pending map. */
    method Refuse(ghost s: State, t: State, id: Id, between: seq<Action>) returns (u: State)
      requires Represents(t) && Reachable(s) && Reaches(s, t) && At(t, id, RefusedStream)
      modifies this
      ensures Represents(u) && Reaches(s, u) && At(u, id, Failed)
    {
      RemoveTcpStream(t, RefusedLeaveStreams(id), id);
      ReachesNext(s, t, OpenStep(RefusedLeaveStreams(id)));
      u := Yield(s, ApplyOpen(t, RefusedLeaveStreams(id)), between, Opening(id));
      RemovePendingTcp(u, RefusedLeavePending(id), id);
      ReachesNext(s, u, OpenStep(RefusedLeavePending(id)));
      u := ApplyOpen(u, RefusedLeavePending(id));
    }

    /** The first part of an open: a fresh id, pending and routed, with other tasks running in between. */
    method EnterOpen(s: State, others: seq<seq<Action>>) returns (id: Id, t: State)
      requires Represents(s) && Reachable(s) && s.c.allocs < U32 && |others| == 3
      modifies this
      ensures id == IdAt(s.c.allocs) && Represents(t) && Reaches(s, t) && At(t, id, InStreams)
    {
      ReachesSelf(s);
      id := FetchId(s, false);
      ReachesNext(s, s, UseStep(AllocTcp));
      t := Yield(s, ApplyUse(s, AllocTcp), others[0], Opening(id));
      InsertPendingTcp(t, id);
      ReachesNext(s, t, OpenStep(InsertPending(id)));
      t := Yield(s, ApplyOpen(t, InsertPending(id)), others[1], Opening(id));
      InsertTcpStream(t, id);
      ReachesNext(s, t, OpenStep(InsertStream(id)));
      t := Yield(s, ApplyOpen(t, InsertStream(id)), others[2], Opening(id));
    }

    /** The second part: await the reply or the timer, and act on it. */
    method AwaitReply(ghost s: State, t: State, id: Id, others: seq<seq<Action>>) returns (out: Outcome, u: State)
      requires Represents(t) && Reachable(s) && Reaches(s, t) && At(t, id, Waiting) && |others| == 2
      modifies this
      ensures Represents(u) && Reaches(s, u)
      ensures (out.Succeeded? && At(u, id, Opened)) || (out.Failure? && At(u, id, Failed))
    {
      u := Yield(s, t, others[0], Opening(id));
      if id !in replies {
        ReachesNext(s, u, OpenStep(TimeOut(id)));
        u := Abandon(s, ApplyOpen(u, TimeOut(id)), id, others[1]);
        return Failure, u;
      }
      ReachesNext(s, u, OpenStep(Receive(id)));
      u := ApplyOpen(u, Receive(id));
      if replies[id].Accepted? { return Succeeded, u; }
      u := Refuse(s, u, id, others[1]);
      return Failure, u;
    }

    /**
     `open_tcp`, with any interference between its lock sections. When it has returned, its id is out of
     the pending map; on an error it is out of the stream map too; and it succeeds only on an accepting reply.
     */
    method OpenTcpStream(s: State, host: Text, port: u16, egress: Option<Text>, others: seq<seq<Action>>)
      returns (id: Id, out: Outcome, t: State)
      requires Represents(s) && Reachable(s) && s.c.allocs < U32 && |others| == 5
      modifies this
      ensures id == IdAt(s.c.allocs) && Represents(t) && Reaches(s, t)
      ensures out.Succeeded? ==> id !in pendingTcp && id in replies && replies[id].Accepted?
      ensures out.Failure? ==> id !in pendingTcp && id !in tcpStreams
      ensures out.Blocked? ==> writerUp && |queue| >= FRAME_CHANNEL_CAPACITY
    {
      id, t := EnterOpen(s, others[..3]);
      if writerUp && |queue| >= FRAME_CHANNEL_CAPACITY { return id, Blocked, t; }
      out, t := SendAndAwait(s, t, id, host, port, egress, others[3..]);
      ReachableOn(s, t);
      ReturnedIs(t, id);
    }

    method SendAndAwait(ghost s: State, t: State, id: Id, host: Text, port: u16, egress: Option<Text>,
                        others: seq<seq<Action>>) returns (out: Outcome, u: State)
      requires Represents(t) && Reachable(s) && Reaches(s, t) && At(t, id, InStreams) && CanTrySend(t.down) && |others| == 2
      modifies this
      ensures Represents(u) && Reaches(s, u)
      ensures (out.Succeeded? && At(u, id, Opened)) || (out.Failure? && At(u, id, Failed))
    {
      var sent := SendOpenTcp(t, id, host, port, egress);
      if sent {
        ReachesNext(s, t, OpenStep(SendOpen(id, host, port, egress)));
        out, u := AwaitReply(s, ApplyOpen(t, SendOpen(id, host, port, egress)), id, others);
      } else {
        ReachesNext(s, t, OpenStep(SendOpenFails(id)));
        u := Abandon(s, ApplyOpen(t, SendOpenFails(id)), id, others[0]);
        out := Failure;
      }
    }

    /** `close`: the frame goes out, or is lost if the writer is gone, and the stream leaves the map. */
    method CloseStream(s: State, id: Id, reason: Text, between: seq<Action>) returns (t: State)
      requires Represents(s) && Reachable(s) && CanUse(s, CloseSend(id, reason))
      modifies this
      ensures Represents(t) && Reaches(s, t) && id !in tcpStreams
    {
      ReachesSelf(s);
      SendCloseFrame(id, reason);
      ReachesNext(s, s, UseStep(CloseSend(id, reason)));
      t := Yield(s, ApplyUse(s, CloseSend(id, reason)), between, Closing(id));
      tcpStreams := tcpStreams - {id};
      ReachesNext(s, t, UseStep(CloseRemove(id)));
      t := ApplyUse(t, CloseRemove(id));
    }

    /** `register_udp`. */
    method RegisterUdp(s: State, between: seq<Action>) returns (id: Id, t: State)
      requires Represents(s) && Reachable(s) && s.c.allocs < U32
      modifies this
      ensures id == IdAt(s.c.allocs) && Represents(t) && Reaches(s, t)
      ensures id in udpStreams && id !in tcpStreams && id !in pendingTcp
    {
      ReachesSelf(s);
      id := FetchId(s, true);
      ReachesNext(s, s, UseStep(AllocUdp));
      t := Yield(s, ApplyUse(s, AllocUdp), between, Opening(id));
      udpStreams := udpStreams + {id};
      ReachesNext(s, t, UseStep(InsertUdp(id)));
      t := ApplyUse(t, InsertUdp(id));
      ReachableOn(s, t);
      UdpIs(t, id);
    }

    /** `unregister_udp`: the stream leaves the map before the frame goes out; blocked while there is no room for it. */
    method UnregisterUdpStream(s: State, id: Id, reason: Text, between: seq<Action>) returns (done: bool, t: State)
      requires Represents(s) && Reachable(s) && At(s, id, UdpReady)
      modifies this
      ensures Represents(t) && Reaches(s, t)
      ensures done || (writerUp && |queue| >= FRAME_CHANNEL_CAPACITY)
      ensures done && writerUp ==> queue != [] && queue[|queue| - 1] == Close(id, reason)
    {
      ReachesSelf(s);
      udpStreams := udpStreams - {id};
      ReachesNext(s, s, UseStep(UnregisterUdp(id)));
      t := Yield(s, ApplyUse(s, UnregisterUdp(id)), between, Unregistering(id));
      if writerUp && |queue| >= FRAME_CHANNEL_CAPACITY { return false, t; }
      SendCloseFrame(id, reason);
      ReachesNext(s, t, UseStep(UnregisterSend(id, reason)));
      t := ApplyUse(t, UnregisterSend(id, reason));
      done := true;
    }

    /** The rest of the clean-up, after the drain. */
    method ClearAndStop(s: State, others: seq<seq<Action>>) returns (t: State)
      requires Represents(s) && Reachable(s) && s.c.cleanup.Drained? && |others| == 3
      modifies this
      ensures Represents(t) && Reaches(s, t) && t.c.cleanup.Done?
    {
      ReachesSelf(s);
      t := Yield(s, s, others[0], CleaningUp);
      ClearStreams(t);
      ReachesNext(s, t, LifeStep(ClearTcp));
      t := Yield(s, ApplyLife(t, ClearTcp), others[1], CleaningUp);
      ClearUdpStreams(t);
      ReachesNext(s, t, LifeStep(ClearUdp));
      t := Yield(s, ApplyLife(t, ClearUdp), others[2], CleaningUp);
      StopWriterTask(t);
      ReachesNext(s, t, LifeStep(AbortWriter));
      t := ApplyLife(t, AbortWriter);
    }

    /**
     The lifecycle task after the reader has ended, with any interference: it answers every pending open
     with the error, clears both stream maps and stops the writer. Afterwards nothing is queued, and no
     stream that was accepted is still in the map.
     */
    method CleanUp(s: State, message: Text, others: seq<seq<Action>>) returns (t: State)
      requires Represents(s) && Reachable(s) && CanLife(s, Drain(message)) && |others| == 3
      modifies this
      ensures Represents(t) && Reaches(s, t)
      ensures forall id :: id in old(pendingTcp) ==> id in replies && replies[id] == Refused(message)
      ensures !writerUp && queue == []
      ensures forall id :: id in tcpStreams ==> !(id in replies && replies[id].Accepted?)
    {
      ReachesSelf(s);
      DrainPending(s, message);
      ReachesNext(s, s, LifeStep(Drain(message)));
      var u := ApplyLife(s, Drain(message));
      ReachableOn(s, u);
      t := ClearAndStop(u, others);
      ReachesOn(s, u, t);
      DrainedStay(s, message, t);
      ReachableOn(u, t);
      DoneIs(t);
    }
  }

  lemma {:induction false} SlotsStay(s: State, t: State, acts: seq<Action>, id: Id)
    requires Leads(s, t, acts) && Inv(s) && id in s.c.slots
    ensures id in t.c.slots && t.c.slots[id] == s.c.slots[id]
    decreases acts
  {
    if acts != [] {
      InvAt(s, id);
      MuxTheorems.SlotStays(s, acts[0], id);
      StepKeepsInv(s, acts[0]);
      SlotsStay(Apply(s, acts[0]), t, acts[1..], id);
    }
  }

  lemma DrainedStay(s: State, message: Text, t: State)
    requires Reachable(s) && CanLife(s, Drain(message)) && Reaches(ApplyLife(s, Drain(message)), t)
    ensures forall id :: id in s.c.pending ==> id in t.c.slots && t.c.slots[id] == Refused(message)
  {
    var u := ApplyLife(s, Drain(message));
    ReachesSelf(s);
    ReachesNext(s, s, LifeStep(Drain(message)));
    ReachableOn(s, u);
    ReachableInv(u, 0);
    var acts :| Leads(u, t, acts);
    forall id | id in s.c.pending ensures id in t.c.slots && t.c.slots[id] == Refused(message) {
      SlotsStay(u, t, acts, id);
    }
  }

  lemma UdpIs(s: State, id: Id)
    requires Reachable(s) && At(s, id, UdpReady)
    ensures id !in s.up.routes && id !in s.c.pending
  {
    ReachableInv(s, id);
  }

  lemma ReturnedIs(s: State, id: Id)
    requires Reachable(s)
    ensures At(s, id, Opened) ==> id !in s.c.pending && AcceptedAt(s, id)
    ensures At(s, id, Failed) ==> id !in s.c.pending && id !in s.up.routes
  {
    ReachableInv(s, id);
  }

  lemma DoneIs(s: State)
    requires Reachable(s) && s.c.cleanup.Done?
    ensures !s.down.up && s.down.queue == []
    ensures forall id :: id in s.up.routes ==> !AcceptedAt(s, id)
  {
    ReachableInv(s, 0);
  }
}
