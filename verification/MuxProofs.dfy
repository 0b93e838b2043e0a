/**
 Every action of the multiplexer keeps the invariant.
 */
module MuxProofs {
  import opened Bytes
  import opened Frames
  import opened Pipes
  import opened Mux
  import opened MuxInvariant

  ghost predicate IdOk(s: State, id: Id) { CallOk(s, id) && MapsOk(s, id) && OpenOk(s, id) }

  // The facts about one id

  lemma TrySendLine(p: Pipe, f: Frame, id: Id)
    requires CanTrySend(p)
    ensures CountOpens(InFlight(TrySend(p, f)), id)
         <= CountOpens(InFlight(p), id) + if f.OpenTcp? && f.id == id then 1 else 0
    ensures forall g :: g in InFlight(TrySend(p, f)) ==> g in InFlight(p) || g == f
  {
    if p.up { PushLine(p, f, id); }
  }

  /** The controller's record of `id` is the same. */
  ghost predicate SameCall(s: State, t: State, id: Id) {
    && (RankOf(id) < t.c.allocs <==> RankOf(id) < s.c.allocs)
    && (id in t.c.calls <==> id in s.c.calls) && (id in s.c.calls ==> t.c.calls[id] == s.c.calls[id])
    && (id in t.c.pending <==> id in s.c.pending) && (id in t.c.closing <==> id in s.c.closing)
    && (id in t.c.slots <==> id in s.c.slots) && (id in s.c.slots ==> t.c.slots[id] == s.c.slots[id])
    && t.c.sends[id] == s.c.sends[id]
  }

  lemma SameKeepsCall(s: State, t: State, id: Id)
    requires CallOk(s, id) && SameCall(s, t, id)
    ensures CallOk(t, id)
  {
  }

  /** Neither end's maps tell anything new of `id`. */
  ghost predicate SameMaps(s: State, t: State, id: Id) {
    && (id in t.up.routes ==> id in s.up.routes) && (id in t.up.chans ==> id in s.up.chans)
    && (id in t.up.udp ==> id in s.up.udp) && (id in t.down.udp ==> id in s.down.udp)
    && (id in t.down.chans <==> id in s.down.chans)
    && t.tasks == s.tasks && t.relays == s.relays
  }

  lemma SameKeepsMaps(s: State, t: State, id: Id)
    requires MapsOk(s, id) && SameCall(s, t, id) && SameMaps(s, t, id)
    ensures MapsOk(t, id)
  {
  }

  /** A step of one open leaves the others alone. */
  lemma OpenLeavesCall(s: State, a: OpenAction, id: Id)
    requires CanOpen(s, a) && a.id != id
    ensures SameCall(s, ApplyOpen(s, a), id)
  {
  }

  lemma OpenLeavesMaps(s: State, a: OpenAction, id: Id)
    requires CanOpen(s, a) && a.id != id
    ensures SameMaps(s, ApplyOpen(s, a), id)
  {
  }

  predicate Entering(a: OpenAction) { a.InsertPending? || a.InsertStream? || a.SendOpen? || a.SendOpenFails? || a.TimeOut? }

  lemma OpenEntersCall(s: State, a: OpenAction)
    requires CallOk(s, a.id) && CanOpen(s, a) && Entering(a)
    ensures CallOk(ApplyOpen(s, a), a.id)
  {
  }

  lemma OpenLeaves(s: State, a: OpenAction)
    requires CallOk(s, a.id) && CanOpen(s, a) && !Entering(a)
    ensures CallOk(ApplyOpen(s, a), a.id)
  {
  }

  lemma OpenKeepsCall(s: State, a: OpenAction, id: Id)
    requires CallOk(s, id) && CanOpen(s, a)
    ensures CallOk(ApplyOpen(s, a), id)
  {
    if a.id != id {
      OpenLeavesCall(s, a, id);
      SameKeepsCall(s, ApplyOpen(s, a), id);
    } else if Entering(a) {
      OpenEntersCall(s, a);
    } else {
      OpenLeaves(s, a);
    }
  }

  lemma OpenEntersMaps(s: State, a: OpenAction)
    requires CallOk(s, a.id) && MapsOk(s, a.id) && CanOpen(s, a) && Entering(a)
    ensures MapsOk(ApplyOpen(s, a), a.id)
  {
  }

  lemma OpenLeavesOwnMaps(s: State, a: OpenAction)
    requires CallOk(s, a.id) && MapsOk(s, a.id) && CanOpen(s, a) && !Entering(a)
    ensures MapsOk(ApplyOpen(s, a), a.id)
  {
  }

  lemma OpenKeepsMaps(s: State, a: OpenAction, id: Id)
    requires CallOk(s, id) && MapsOk(s, id) && CanOpen(s, a)
    ensures MapsOk(ApplyOpen(s, a), id)
  {
    if a.id != id {
      OpenLeavesCall(s, a, id);
      OpenLeavesMaps(s, a, id);
      SameKeepsMaps(s, ApplyOpen(s, a), id);
    } else if Entering(a) {
      OpenEntersMaps(s, a);
    } else {
      OpenLeavesOwnMaps(s, a);
    }
  }

  lemma SendOpenKeepsOpen(s: State, a: OpenAction, id: Id)
    requires OpenOk(s, id) && CanOpen(s, a) && a.SendOpen?
    ensures OpenOk(ApplyOpen(s, a), id)
  {
    PushLine(s.down, OpenTcp(a.id, a.host, a.port, a.egress), id);
  }

  /** The phase moves on, but not back before the request, and to success only on an accepting reply. */
  ghost predicate MovesOn(s: State, t: State, id: Id) {
    && (id in s.c.calls ==> id in t.c.calls)
    && (id in s.c.calls && SentPhase(s.c.calls[id]) ==> SentPhase(t.c.calls[id]))
    && (At(s, id, Opened) ==> At(t, id, Opened))
    && t.c.slots == s.c.slots && t.tasks == s.tasks
  }

  lemma MovesOnKeepsOpen(s: State, t: State, id: Id)
    requires OpenOk(s, id) && MovesOn(s, t, id)
    requires InFlight(t.down) == InFlight(s.down) && t.down.sent == s.down.sent && t.up.sent == s.up.sent
    ensures OpenOk(t, id)
  {
  }

  lemma OpenPhase(s: State, a: OpenAction)
    requires CanOpen(s, a)
    ensures var t := ApplyOpen(s, a);
            && a.id in s.c.calls && a.id in t.c.calls && !s.c.calls[a.id].Opened?
            && (SentPhase(s.c.calls[a.id]) ==> SentPhase(t.c.calls[a.id]))
  {
  }

  lemma OpenRemote(s: State, a: OpenAction)
    requires CanOpen(s, a)
    ensures ApplyOpen(s, a).c.slots == s.c.slots && ApplyOpen(s, a).tasks == s.tasks
  {
  }

  lemma OpenMovesOn(s: State, a: OpenAction, id: Id)
    requires CanOpen(s, a)
    ensures MovesOn(s, ApplyOpen(s, a), id)
  {
    OpenRemote(s, a);
    if a.id == id { OpenPhase(s, a); } else { OpenLeavesCall(s, a, id); }
  }

  lemma OpenSendsNothing(s: State, a: OpenAction)
    requires CanOpen(s, a) && !a.SendOpen?
    ensures var t := ApplyOpen(s, a);
            InFlight(t.down) == InFlight(s.down) && t.down.sent == s.down.sent && t.up.sent == s.up.sent
  {
  }

  lemma OpenKeepsOpen(s: State, a: OpenAction, id: Id)
    requires OpenOk(s, id) && CanOpen(s, a)
    ensures OpenOk(ApplyOpen(s, a), id)
  {
    if a.SendOpen? {
      SendOpenKeepsOpen(s, a, id);
    } else {
      OpenMovesOn(s, a, id);
      OpenSendsNothing(s, a);
      MovesOnKeepsOpen(s, ApplyOpen(s, a), id);
    }
  }

  lemma OpenKeepsId(s: State, a: OpenAction, id: Id)
    requires IdOk(s, id) && CanOpen(s, a)
    ensures IdOk(ApplyOpen(s, a), id)
  {
    OpenKeepsCall(s, a, id);
    OpenKeepsMaps(s, a, id);
    OpenKeepsOpen(s, a, id);
  }

  predicate Allocating(a: UseAction) { a.AllocTcp? || a.AllocUdp? }

  /** Allocating an id is new for that id alone. */
  lemma AllocOther(s: State, a: UseAction, id: Id)
    requires CanUse(s, a) && Allocating(a) && id != IdAt(s.c.allocs)
    ensures SameCall(s, ApplyUse(s, a), id) && MovesOn(s, ApplyUse(s, a), id)
  {
    IdRank(s.c.allocs, id);
  }

  lemma AllocOwn(s: State, a: UseAction)
    requires IdOk(s, IdAt(s.c.allocs)) && CanUse(s, a) && Allocating(a)
    ensures IdOk(ApplyUse(s, a), IdAt(s.c.allocs))
  {
    IdRank(s.c.allocs, IdAt(s.c.allocs));
    assert IdAt(s.c.allocs) !in s.c.calls;
  }

  lemma AllocKeepsId(s: State, a: UseAction, id: Id)
    requires IdOk(s, id) && CanUse(s, a) && Allocating(a)
    ensures IdOk(ApplyUse(s, a), id)
  {
    if id == IdAt(s.c.allocs) {
      AllocOwn(s, a);
    } else {
      AllocOther(s, a, id);
      SameKeepsCall(s, ApplyUse(s, a), id);
      SameKeepsMaps(s, ApplyUse(s, a), id);
      MovesOnKeepsOpen(s, ApplyUse(s, a), id);
    }
  }

  lemma UseKeepsCall(s: State, a: UseAction, id: Id)
    requires CallOk(s, id) && CanUse(s, a) && !Allocating(a)
    ensures CallOk(ApplyUse(s, a), id)
  {
  }

  lemma UseKeepsMaps(s: State, a: UseAction, id: Id)
    requires CallOk(s, id) && MapsOk(s, id) && CanUse(s, a) && !Allocating(a)
    ensures MapsOk(ApplyUse(s, a), id)
  {
  }

  /** The frame that a use of the bridge sends; none of them opens a stream. */
  function UseSends(a: UseAction): Option<Frame> {
    match a
    case SendData(id, data) => Some(Data(id, data))
    case CloseSend(id, reason) => Some(Close(id, reason))
    case SendUdp(id, host, port, data) => Some(UdpPacket(id, host, port, data))
    case UnregisterSend(id, reason) => Some(Close(id, reason))
    case SendLog(message) => Some(Log(message))
    case _ => None
  }

  lemma UsePipe(s: State, a: UseAction)
    requires CanUse(s, a)
    ensures ApplyUse(s, a).up.sent == s.up.sent
    ensures UseSends(a).Some? ==> CanTrySend(s.down) && ApplyUse(s, a).down == TrySend(s.down, UseSends(a).value)
    ensures UseSends(a).None? ==> ApplyUse(s, a).down == s.down
  {
  }

  lemma UseMovesOn(s: State, a: UseAction, id: Id)
    requires CanUse(s, a) && !Allocating(a)
    ensures MovesOn(s, ApplyUse(s, a), id)
  {
  }

  lemma SendKeepsOpen(s: State, t: State, f: Frame, id: Id)
    requires OpenOk(s, id) && MovesOn(s, t, id) && t.up.sent == s.up.sent
    requires CanTrySend(s.down) && t.down == TrySend(s.down, f) && !f.OpenTcp? && (f.Data? ==> At(s, f.id, Opened))
    ensures OpenOk(t, id)
  {
    TrySendLine(s.down, f, id);
  }

  lemma UseKeepsOpen(s: State, a: UseAction, id: Id)
    requires OpenOk(s, id) && CanUse(s, a) && !Allocating(a)
    ensures OpenOk(ApplyUse(s, a), id)
  {
    UsePipe(s, a);
    UseMovesOn(s, a, id);
    if UseSends(a).Some? {
      SendKeepsOpen(s, ApplyUse(s, a), UseSends(a).value, id);
    } else {
      MovesOnKeepsOpen(s, ApplyUse(s, a), id);
    }
  }

  lemma UseKeepsId(s: State, a: UseAction, id: Id)
    requires IdOk(s, id) && s.c.allocs <= U32 && CanUse(s, a)
    ensures IdOk(ApplyUse(s, a), id)
  {
    if Allocating(a) {
      AllocKeepsId(s, a, id);
    } else {
      UseKeepsCall(s, a, id);
      UseKeepsMaps(s, a, id);
      UseKeepsOpen(s, a, id);
    }
  }

  lemma LifeKeepsCall(s: State, a: LifeAction, id: Id)
    requires CallOk(s, id) && CanLife(s, a)
    ensures CallOk(ApplyLife(s, a), id)
  {
  }

  /** Both pipes only shrink and nothing else about `id` changes. */
  lemma ShrinkKeepsMaps(s: State, t: State, id: Id)
    requires MapsOk(s, id) && t.tasks == s.tasks && t.relays == s.relays && t.c.calls == s.c.calls
    requires Shrinks(s.down, t.down, id) && Shrinks(s.up, t.up, id) && t.up.udp <= s.up.udp
    requires id in t.down.udp ==> At(s, id, UdpReady)
    ensures MapsOk(t, id)
  {
  }

  lemma ShrinkKeepsOpen(s: State, t: State, id: Id)
    requires OpenOk(s, id) && t.tasks == s.tasks && t.c.calls == s.c.calls && t.c.slots == s.c.slots
    requires Shrinks(s.down, t.down, id) && Shrinks(s.up, t.up, id)
    ensures OpenOk(t, id)
  {
  }

  lemma ShrinkKeepsId(s: State, t: State, id: Id)
    requires IdOk(s, id) && t.tasks == s.tasks && t.relays == s.relays && t.c == s.c.(cleanup := t.c.cleanup)
    requires Shrinks(s.down, t.down, id) && Shrinks(s.up, t.up, id) && t.up.udp <= s.up.udp
    requires id in t.down.udp ==> At(s, id, UdpReady)
    ensures IdOk(t, id)
  {
    ShrinkKeepsMaps(s, t, id);
    ShrinkKeepsOpen(s, t, id);
  }

  lemma DrainKeepsId(s: State, message: Text, id: Id)
    requires IdOk(s, id) && CanLife(s, Drain(message))
    ensures IdOk(ApplyLife(s, Drain(message)), id)
  {
    LifeKeepsCall(s, Drain(message), id);
  }

  lemma LifeKeepsId(s: State, a: LifeAction, id: Id)
    requires IdOk(s, id) && CanLife(s, a)
    ensures IdOk(ApplyLife(s, a), id)
  {
    if a.Drain? {
      DrainKeepsId(s, a.message, id);
    } else {
      StopShrinks(s.down, id);
      ShrinkKeepsId(s, ApplyLife(s, a), id);
    }
  }

  predicate Answering(a: TaskAction) { a.ConnectOk? || a.ConnectFails? || a.Enter? || a.ReplyOk? || a.ReplyFails? }

  lemma AnswerKeepsMaps(s: State, a: TaskAction, id: Id)
    requires MapsOk(s, id) && CanTask(s, a) && Answering(a)
    ensures MapsOk(ApplyTask(s, a), id)
  {
  }

  lemma RelayKeepsMaps(s: State, a: TaskAction, id: Id)
    requires MapsOk(s, id) && CanTask(s, a) && !Answering(a)
    ensures MapsOk(ApplyTask(s, a), id)
  {
  }

  lemma AnswerKeepsOpen(s: State, a: TaskAction, id: Id)
    requires MapsOk(s, id) && OpenOk(s, id) && CanTask(s, a) && Answering(a)
    ensures OpenOk(ApplyTask(s, a), id)
  {
  }

  lemma RelayKeepsOpen(s: State, a: TaskAction, id: Id)
    requires MapsOk(s, id) && OpenOk(s, id) && CanTask(s, a) && !Answering(a)
    ensures OpenOk(ApplyTask(s, a), id)
  {
  }

  lemma TaskLeavesController(s: State, a: TaskAction)
    requires CanTask(s, a)
    ensures ApplyTask(s, a).c == s.c
  {
  }

  lemma TaskKeepsId(s: State, a: TaskAction, id: Id)
    requires IdOk(s, id) && CanTask(s, a)
    ensures IdOk(ApplyTask(s, a), id)
  {
    TaskLeavesController(s, a);
    SameKeepsCall(s, ApplyTask(s, a), id);
    if Answering(a) {
      AnswerKeepsMaps(s, a, id);
      AnswerKeepsOpen(s, a, id);
    } else {
      RelayKeepsMaps(s, a, id);
      RelayKeepsOpen(s, a, id);
    }
  }

  lemma PumpUdp(p: Pipe, op: Op, side: Side)
    requires CanPump(p, op, side)
    ensures Pump(p, op, side).udp <= p.udp
         || (side.Down? && op.LookupUdp? && Pump(p, op, side).udp == p.udp + {p.reader.frame.id})
  {
  }

  lemma PumpKeepsId(s: State, side: Side, op: Op, id: Id)
    requires IdOk(s, id) && CanLoop(s, PumpOp(side, op))
    requires s.down.reader.Handling? ==> FrameOk(s, Down, s.down.reader.frame)
    ensures IdOk(ApplyLoop(s, PumpOp(side, op)), id)
  {
    PumpShrinks(PipeOf(s, side), op, side, id);
    PumpUdp(PipeOf(s, side), op, side);
    ShrinkKeepsId(s, ApplyLoop(s, PumpOp(side, op)), id);
  }

  lemma ResolveOpenKeeps(s: State, t: State, i: Id, r: Reply, id: Id)
    requires CallOk(s, id) && t.c == ResolveOpen(s.c, i, r)
    ensures CallOk(t, id)
  {
    if i != id || id !in s.c.pending { SameKeepsCall(s, t, id); }
  }

  lemma ResolveKeepsCall(s: State, a: LoopAction, id: Id)
    requires CallOk(s, id) && CanLoop(s, a) && (a.Resolve? || a.ClosePending?)
    ensures CallOk(ApplyLoop(s, a), id)
  {
    var f := s.up.reader;
    if a.Resolve? {
      ResolveOpenKeeps(s, ApplyLoop(s, a), f.frame.id, if f.frame.ok then Accepted else Refused(f.frame.message), id);
    } else {
      ResolveOpenKeeps(s, ApplyLoop(s, a), f.id, Refused(f.reason), id);
    }
  }

  lemma ResolveKeepsMaps(s: State, a: LoopAction, id: Id)
    requires MapsOk(s, id) && CanLoop(s, a) && (a.Resolve? || a.ClosePending?)
    ensures MapsOk(ApplyLoop(s, a), id)
  {
    assert ApplyLoop(s, a).c.calls == s.c.calls;
  }

  lemma ResolveKeepsOpen(s: State, a: LoopAction, id: Id)
    requires OpenOk(s, id) && CanLoop(s, a) && (a.Resolve? || a.ClosePending?)
    requires s.up.reader.Handling? ==> FrameOk(s, Up, s.up.reader.frame)
    ensures OpenOk(ApplyLoop(s, a), id)
  {
    assert ApplyLoop(s, a).c.calls == s.c.calls && ApplyLoop(s, a).down == s.down && ApplyLoop(s, a).tasks == s.tasks;
  }

  lemma ResolveKeepsId(s: State, a: LoopAction, id: Id)
    requires IdOk(s, id) && CanLoop(s, a) && (a.Resolve? || a.ClosePending?)
    requires s.up.reader.Handling? ==> FrameOk(s, Up, s.up.reader.frame)
    ensures IdOk(ApplyLoop(s, a), id)
  {
    ResolveKeepsCall(s, a, id);
    ResolveKeepsMaps(s, a, id);
    ResolveKeepsOpen(s, a, id);
  }

  lemma SpawnKeepsMaps(s: State, id: Id)
    requires MapsOk(s, id) && OpenOk(s, id) && CanLoop(s, Spawn)
    ensures MapsOk(ApplyLoop(s, Spawn), id)
  {
    HandledLine(s.down, s.down.(reader := Idle), id);
  }

  lemma SpawnKeepsOpen(s: State, id: Id)
    requires OpenOk(s, id) && CanLoop(s, Spawn)
    ensures OpenOk(ApplyLoop(s, Spawn), id)
  {
    HandledLine(s.down, s.down.(reader := Idle), id);
  }

  lemma SpawnKeepsId(s: State, id: Id)
    requires IdOk(s, id) && CanLoop(s, Spawn)
    ensures IdOk(ApplyLoop(s, Spawn), id)
  {
    assert ApplyLoop(s, Spawn).c == s.c;
    SpawnKeepsMaps(s, id);
    SpawnKeepsOpen(s, id);
  }

  lemma NotifyKeepsId(s: State, side: Side, reason: Text, id: Id)
    requires IdOk(s, id) && CanLoop(s, Notify(side, reason))
    ensures IdOk(ApplyLoop(s, Notify(side, reason)), id)
  {
    var t := ApplyLoop(s, Notify(side, reason));
    assert InFlight(s.down.(reader := Idle)) == InFlight(s.down) || !side.Down?;
    if side.Up? { TrySendLine(s.down, Close(s.up.reader.id, reason), id); }
    assert CountOpens(InFlight(t.down), id) <= CountOpens(InFlight(s.down), id);
  }

  lemma LoopKeepsId(s: State, a: LoopAction, id: Id)
    requires IdOk(s, id) && CanLoop(s, a)
    requires s.down.reader.Handling? ==> FrameOk(s, Down, s.down.reader.frame)
    requires s.up.reader.Handling? ==> FrameOk(s, Up, s.up.reader.frame)
    ensures IdOk(ApplyLoop(s, a), id)
  {
    match a
    case PumpOp(side, op) => PumpKeepsId(s, side, op, id);
    case Notify(side, reason) => NotifyKeepsId(s, side, reason, id);
    case Spawn => SpawnKeepsId(s, id);
    case _ => ResolveKeepsId(s, a, id);
  }

  lemma StepKeepsId(s: State, a: Action, id: Id)
    requires IdOk(s, id) && s.c.allocs <= U32 && Enabled(s, a)
    requires s.down.reader.Handling? ==> FrameOk(s, Down, s.down.reader.frame)
    requires s.up.reader.Handling? ==> FrameOk(s, Up, s.up.reader.frame)
    ensures IdOk(Apply(s, a), id)
  {
    match a
    case OpenStep(o) => OpenKeepsId(s, o, id);
    case UseStep(u) => UseKeepsId(s, u, id);
    case LifeStep(l) => LifeKeepsId(s, l, id);
    case LoopStep(l) => LoopKeepsId(s, l, id);
    case TaskStep(t) => TaskKeepsId(s, t, id);
  }

  // What no step takes back

  predicate MovesPhase(a: Action, id: Id) {
    (a.OpenStep? && a.open.id == id) || (a.UseStep? && a.use == InsertUdp(id))
  }

  lemma UsePhaseStays(s: State, a: UseAction, id: Id)
    requires CallOk(s, id) && s.c.allocs <= U32 && CanUse(s, a) && id in s.c.calls
    ensures id in ApplyUse(s, a).c.calls
    ensures a != InsertUdp(id) ==> ApplyUse(s, a).c.calls[id] == s.c.calls[id]
  {
    if Allocating(a) { IdRank(s.c.allocs, id); }
  }

  lemma LoopCallsStay(s: State, a: LoopAction)
    requires CanLoop(s, a)
    ensures ApplyLoop(s, a).c.calls == s.c.calls
  {
  }

  /** Only a call's own steps change its phase, and no id is forgotten or issued again. */
  lemma PhaseStays(s: State, a: Action, id: Id)
    requires CallOk(s, id) && s.c.allocs <= U32 && Enabled(s, a) && id in s.c.calls
    ensures id in Apply(s, a).c.calls
    ensures !MovesPhase(a, id) ==> Apply(s, a).c.calls[id] == s.c.calls[id]
  {
    match a
    case OpenStep(o) => if o.id != id { OpenLeavesCall(s, o, id); } else { OpenMovesOn(s, o, id); }
    case UseStep(u) => UsePhaseStays(s, u, id);
    case LifeStep(l) =>
    case LoopStep(l) => LoopCallsStay(s, l);
    case TaskStep(t) =>
  }

  /** A remote task is spawned once, and having entered the stream map or replied is for good. */
  lemma TaskStays(s: State, a: Action, id: Id)
    requires OpenOk(s, id) && Enabled(s, a) && id in s.tasks
    ensures var t := Apply(s, a).tasks;
            && id in t && (Entered(s.tasks[id]) ==> Entered(t[id])) && (Replied(s.tasks[id]) ==> Replied(t[id]))
  {
    if a.LoopStep? && a.loop.Spawn? { HandledLine(s.down, s.down.(reader := Idle), id); }
  }

  // The frames in flight

  lemma FrameStays(s: State, a: Action, side: Side, f: Frame)
    requires Enabled(s, a) && FrameOk(s, side, f) && s.c.allocs <= U32
    requires !f.Log? ==> IdOk(s, f.id)
    ensures FrameOk(Apply(s, a), side, f)
  {
    if side.Up? && f.OpenTcpResult? && f.ok { TaskStays(s, a, f.id); }
    if side.Down? && f.UdpPacket? { PhaseStays(s, a, f.id); }
  }

  lemma TrySendFrames(p: Pipe, f: Frame)
    requires CanTrySend(p)
    ensures forall g :: g in InFlight(TrySend(p, f)) ==> g in InFlight(p) || g == f
  {
    TrySendLine(p, f, 0);
  }

  /** The frame that a step of a caller sends to the remote. */
  function CallerSends(a: Action): Option<Frame> {
    match a
    case OpenStep(SendOpen(id, host, port, egress)) => Some(OpenTcp(id, host, port, egress))
    case UseStep(u) => UseSends(u)
    case _ => None
  }

  /** The frame that a step of a remote task sends to the controller. */
  function TaskSends(a: TaskAction): Option<Frame> {
    match a
    case ReplyOk(id, message) => Some(OpenTcpResult(id, true, message))
    case ReplyFails(id, message) => Some(OpenTcpResult(id, false, message))
    case SocketRead(id, data) => Some(Data(id, data))
    case TaskClose(id, reason) => Some(Close(id, reason))
    case UdpReply(id, host, port, data) => Some(UdpPacket(id, host, port, data))
    case UdpBindFails(id, reason) => Some(Close(id, reason))
    case _ => None
  }

  /** The frame that a step sends on one side, if it sends one. */
  function Sends(s: State, a: Action, side: Side): Option<Frame> {
    match a
    case OpenStep(_) => if side.Down? then CallerSends(a) else None
    case UseStep(_) => if side.Down? then CallerSends(a) else None
    case TaskStep(t) => if side.Up? then TaskSends(t) else None
    case LoopStep(Notify(on, reason)) =>
      if on != side && PipeOf(s, on).reader.Notifying? then Some(Close(PipeOf(s, on).reader.id, reason)) else None
    case _ => None
  }

  lemma CallerFrames(s: State, a: Action, f: Frame)
    requires (a.OpenStep? || a.UseStep?) && Enabled(s, a) && f in InFlight(Apply(s, a).down)
    ensures f in InFlight(s.down) || CallerSends(a) == Some(f)
  {
    if a.UseStep? {
      UsePipe(s, a.use);
    } else if CallerSends(a).None? {
      OpenSendsNothing(s, a.open);
    }
    if CallerSends(a).Some? { TrySendFrames(s.down, CallerSends(a).value); }
  }

  lemma TaskFrames(s: State, a: TaskAction, f: Frame)
    requires CanTask(s, a) && f in InFlight(ApplyTask(s, a).up)
    ensures f in InFlight(s.up) || TaskSends(a) == Some(f)
  {
    if TaskSends(a).Some? { TrySendFrames(s.up, TaskSends(a).value); }
  }

  lemma LoopFrames(s: State, a: LoopAction, side: Side, f: Frame)
    requires CanLoop(s, a) && f in InFlight(PipeOf(ApplyLoop(s, a), side))
    ensures f in InFlight(PipeOf(s, side)) || Sends(s, LoopStep(a), side) == Some(f)
  {
    match a
    case PumpOp(on, op) => PumpShrinks(PipeOf(s, on), op, on, 0);
    case Notify(on, reason) =>
      if on.Down? { TrySendFrames(s.up, Close(s.down.reader.id, reason)); }
      else { TrySendFrames(s.down, Close(s.up.reader.id, reason)); }
    case _ =>
  }

  /** The frames in flight after a step: those from before, and at most the one it sends. */
  lemma NewFrames(s: State, a: Action, side: Side, f: Frame)
    requires Enabled(s, a)
    requires f in InFlight(PipeOf(Apply(s, a), side))
    ensures f in InFlight(PipeOf(s, side)) || Sends(s, a, side) == Some(f)
  {
    match a
    case OpenStep(o) =>
      if side.Down? { CallerFrames(s, a, f); } else { assert InFlight(ApplyOpen(s, o).up) == InFlight(s.up); }
    case UseStep(u) =>
      if side.Down? { CallerFrames(s, a, f); } else { assert InFlight(ApplyUse(s, u).up) == InFlight(s.up); }
    case LifeStep(l) => StopShrinks(s.down, 0);
    case LoopStep(l) => LoopFrames(s, l, side, f);
    case TaskStep(t) =>
      if side.Up? { TaskFrames(s, t, f); } else { assert InFlight(ApplyTask(s, t).down) == InFlight(s.down); }
  }

  lemma SentFrameOk(s: State, a: Action, side: Side, f: Frame)
    requires Enabled(s, a) && Sends(s, a, side) == Some(f)
    ensures FrameOk(Apply(s, a), side, f)
  {
  }

  // The pipes

  lemma OpenKeepsPipes(s: State, a: OpenAction)
    requires PipeInv(s.down) && PipeInv(s.up) && CanOpen(s, a) && IdOk(s, a.id)
    ensures PipeInv(ApplyOpen(s, a).down) && PipeInv(ApplyOpen(s, a).up)
  {
    match a
    case InsertStream(id) => RegisterKeeps(s.up, id);
    case SendOpen(id, host, port, egress) => PushKeeps(s.down, OpenTcp(id, host, port, egress));
    case LeaveStreams(id) => UnrouteKeeps(s.up, s.up.routes - {id}, s.up.udp);
    case RefusedLeaveStreams(id) => UnrouteKeeps(s.up, s.up.routes - {id}, s.up.udp);
    case _ =>
  }

  lemma TrySendKeeps(p: Pipe, f: Frame)
    requires PipeInv(p) && CanTrySend(p)
    ensures PipeInv(TrySend(p, f))
  {
    if p.up { PushKeeps(p, f); }
  }

  lemma UseKeepsPipes(s: State, a: UseAction)
    requires PipeInv(s.down) && PipeInv(s.up) && CanUse(s, a)
    ensures PipeInv(ApplyUse(s, a).down) && PipeInv(ApplyUse(s, a).up)
  {
    match a
    case SendData(i, data) => PushKeeps(s.down, Data(i, data));
    case CloseSend(i, reason) => TrySendKeeps(s.down, Close(i, reason));
    case CloseRemove(i) => UnrouteKeeps(s.up, s.up.routes - {i}, s.up.udp);
    case InsertUdp(i) => UnrouteKeeps(s.up, s.up.routes, s.up.udp + {i});
    case SendUdp(i, host, port, data) => PushKeeps(s.down, UdpPacket(i, host, port, data));
    case UnregisterUdp(i) => UnrouteKeeps(s.up, s.up.routes, s.up.udp - {i});
    case UnregisterSend(i, reason) => TrySendKeeps(s.down, Close(i, reason));
    case SendLog(message) => TrySendKeeps(s.down, Log(message));
    case _ =>
  }

  lemma LifeKeepsPipes(s: State, a: LifeAction)
    requires PipeInv(s.down) && PipeInv(s.up) && CanLife(s, a)
    ensures PipeInv(ApplyLife(s, a).down) && PipeInv(ApplyLife(s, a).up)
  {
    StopKeeps(s.down);
    UnrouteKeeps(s.up, {}, s.up.udp);
    UnrouteKeeps(s.up, s.up.routes, {});
  }

  lemma LoopKeepsPipes(s: State, a: LoopAction)
    requires PipeInv(s.down) && PipeInv(s.up) && CanLoop(s, a)
    ensures PipeInv(ApplyLoop(s, a).down) && PipeInv(ApplyLoop(s, a).up)
  {
    match a
    case PumpOp(on, op) => PumpKeeps(PipeOf(s, on), op, on);
    case Notify(on, reason) =>
      IdleKeeps(PipeOf(s, on));
      if on.Down? { TrySendKeeps(s.up, Close(s.down.reader.id, reason)); }
      else { TrySendKeeps(s.down, Close(s.up.reader.id, reason)); }
    case Spawn => IdleKeeps(s.down);
    case _ => IdleKeeps(s.up);
  }

  lemma TaskKeepsPipes(s: State, a: TaskAction)
    requires PipeInv(s.down) && PipeInv(s.up) && CanTask(s, a) && IdOk(s, a.id)
    ensures PipeInv(ApplyTask(s, a).down) && PipeInv(ApplyTask(s, a).up)
  {
    match a
    case Enter(id) => RegisterKeeps(s.down, id);
    case ReplyOk(i, message) => TrySendKeeps(s.up, OpenTcpResult(i, true, message));
    case ReplyFails(i, message) => TrySendKeeps(s.up, OpenTcpResult(i, false, message));
    case SocketRead(i, data) => TrySendKeeps(s.up, Data(i, data));
    case Leave(i) => UnrouteKeeps(s.down, s.down.routes - {i}, s.down.udp);
    case TaskClose(i, reason) => TrySendKeeps(s.up, Close(i, reason));
    case UdpReply(i, host, port, data) => TrySendKeeps(s.up, UdpPacket(i, host, port, data));
    case UdpBindFails(i, reason) => TrySendKeeps(s.up, Close(i, reason));
    case _ =>
  }

  lemma StepKeepsPipes(s: State, a: Action)
    requires Inv(s) && Enabled(s, a)
    ensures PipeInv(Apply(s, a).down) && PipeInv(Apply(s, a).up)
  {
    match a
    case OpenStep(o) => assert CallOk(s, o.id) && MapsOk(s, o.id) && OpenOk(s, o.id); OpenKeepsPipes(s, o);
    case UseStep(u) => UseKeepsPipes(s, u);
    case LifeStep(l) => LifeKeepsPipes(s, l);
    case LoopStep(l) => LoopKeepsPipes(s, l);
    case TaskStep(t) => assert CallOk(s, t.id) && MapsOk(s, t.id) && OpenOk(s, t.id); TaskKeepsPipes(s, t);
  }

  // The clean-up

  lemma LoopRoutes(s: State, a: LoopAction)
    requires CanLoop(s, a)
    ensures ApplyLoop(s, a).up.routes <= s.up.routes
  {
    if a.PumpOp? { PumpShrinks(PipeOf(s, a.side), a.op, a.side, 0); }
  }

  lemma OpenRoutes(s: State, a: OpenAction)
    requires CanOpen(s, a)
    ensures ApplyOpen(s, a).up.routes <= s.up.routes + if a.InsertStream? then {a.id} else {}
    ensures ApplyOpen(s, a).up.reader == s.up.reader && ApplyOpen(s, a).down.up == s.down.up
  {
  }

  lemma UseRoutes(s: State, a: UseAction)
    requires CanUse(s, a)
    ensures ApplyUse(s, a).up.routes <= s.up.routes
    ensures ApplyUse(s, a).up.reader == s.up.reader && ApplyUse(s, a).down.up == s.down.up
  {
  }

  lemma TaskRoutes(s: State, a: TaskAction)
    requires CanTask(s, a)
    ensures ApplyTask(s, a).up.routes == s.up.routes
    ensures ApplyTask(s, a).up.reader == s.up.reader && ApplyTask(s, a).down.up == s.down.up
  {
  }

  /** A route on the controller is new only if its own call has just inserted it. */
  lemma RoutesGrow(s: State, a: Action, id: Id)
    requires Enabled(s, a) && id in Apply(s, a).up.routes && id !in s.up.routes
    ensures a == OpenStep(InsertStream(id))
  {
    match a
    case OpenStep(o) => OpenRoutes(s, o);
    case UseStep(u) => UseRoutes(s, u);
    case LifeStep(l) =>
    case LoopStep(l) => LoopRoutes(s, l);
    case TaskStep(t) => TaskRoutes(s, t);
  }

  /** Once the reader has ended no open can still be accepted. */
  lemma NoLateAccept(s: State, a: Action, id: Id)
    requires Enabled(s, a) && s.up.reader.Ended? && AcceptedAt(Apply(s, a), id)
    ensures AcceptedAt(s, id)
  {
  }

  lemma LoopEndedStays(s: State, a: LoopAction)
    requires CanLoop(s, a)
    ensures s.up.reader.Ended? ==> ApplyLoop(s, a).up.reader.Ended?
    ensures !s.down.up ==> !ApplyLoop(s, a).down.up
  {
  }

  lemma EndedStays(s: State, a: Action)
    requires Enabled(s, a)
    ensures s.up.reader.Ended? ==> Apply(s, a).up.reader.Ended?
    ensures !s.down.up ==> !Apply(s, a).down.up
  {
    match a
    case OpenStep(o) => OpenRoutes(s, o);
    case UseStep(u) => UseRoutes(s, u);
    case LifeStep(l) =>
    case LoopStep(l) => LoopEndedStays(s, l);
    case TaskStep(t) => TaskRoutes(s, t);
  }

  lemma StepKeepsCleanup(s: State, a: Action)
    requires CleanupOk(s) && Enabled(s, a) && (forall id: Id :: IdOk(s, id))
    ensures CleanupOk(Apply(s, a))
  {
    var t := Apply(s, a);
    EndedStays(s, a);
    if a.LifeStep? { return; }
    assert t.c.cleanup == s.c.cleanup;
    if s.c.cleanup.TcpCleared? || s.c.cleanup.UdpCleared? || s.c.cleanup.Done? {
      forall id | id in t.up.routes ensures !AcceptedAt(t, id) {
        assert IdOk(s, id);
        if AcceptedAt(t, id) {
          NoLateAccept(s, a, id);
          if id !in s.up.routes { RoutesGrow(s, a, id); }
        }
      }
    }
  }

  // The invariant

  lemma InvAt(s: State, id: Id)
    requires Inv(s)
    ensures IdOk(s, id)
  {
    assert CallOk(s, id) && MapsOk(s, id) && OpenOk(s, id);
  }

  lemma InHandOk(s: State)
    requires Inv(s)
    ensures s.down.reader.Handling? ==> FrameOk(s, Down, s.down.reader.frame)
    ensures s.up.reader.Handling? ==> FrameOk(s, Up, s.up.reader.frame)
  {
    assert s.down.reader.Handling? ==> s.down.reader.frame in InFlight(s.down);
    assert s.up.reader.Handling? ==> s.up.reader.frame in InFlight(s.up);
  }

  lemma StepKeepsIds(s: State, a: Action, id: Id)
    requires Inv(s) && Enabled(s, a)
    ensures IdOk(Apply(s, a), id)
  {
    InvAt(s, id);
    InHandOk(s);
    StepKeepsId(s, a, id);
  }

  lemma StepKeepsFrame(s: State, a: Action, side: Side, f: Frame)
    requires Inv(s) && Enabled(s, a) && f in InFlight(PipeOf(Apply(s, a), side))
    ensures FrameOk(Apply(s, a), side, f)
  {
    NewFrames(s, a, side, f);
    if f in InFlight(PipeOf(s, side)) {
      if !f.Log? { InvAt(s, f.id); }
      FrameStays(s, a, side, f);
    } else {
      SentFrameOk(s, a, side, f);
    }
  }

  lemma AllocsBounded(s: State, a: Action)
    requires s.c.allocs <= U32 && Enabled(s, a)
    ensures Apply(s, a).c.allocs <= U32
  {
  }

  lemma CleanupKept(s: State, a: Action)
    requires Inv(s) && Enabled(s, a)
    ensures CleanupOk(Apply(s, a))
  {
    forall id: Id ensures IdOk(s, id) { InvAt(s, id); }
    StepKeepsCleanup(s, a);
  }

  lemma StepKeepsInv(s: State, a: Action)
    requires Inv(s) && Enabled(s, a)
    ensures Inv(Apply(s, a))
  {
    var t := Apply(s, a);
    AllocsBounded(s, a);
    StepKeepsPipes(s, a);
    CleanupKept(s, a);
    forall id: Id ensures IdOk(t, id) { StepKeepsIds(s, a, id); }
    forall f | f in InFlight(t.down) ensures FrameOk(t, Down, f) { StepKeepsFrame(s, a, Down, f); }
    forall f | f in InFlight(t.up) ensures FrameOk(t, Up, f) { StepKeepsFrame(s, a, Up, f); }
    InvFrom(t);
  }

  lemma InvFrom(s: State)
    requires s.c.allocs <= U32 && PipeInv(s.down) && PipeInv(s.up) && CleanupOk(s)
    requires forall id: Id :: IdOk(s, id)
    requires forall f :: f in InFlight(s.down) ==> FrameOk(s, Down, f)
    requires forall f :: f in InFlight(s.up) ==> FrameOk(s, Up, f)
    ensures Inv(s)
  {
    forall id: Id ensures CallOk(s, id) && MapsOk(s, id) && OpenOk(s, id) { assert IdOk(s, id); }
  }

  lemma InitInv(proxy: Option<Text>)
    ensures Inv(Init(proxy))
  {
    assert InFlight(EMPTY_PIPE) == [];
    forall id: Id ensures Flow(EMPTY_PIPE, id) && Sound(EMPTY_PIPE, id) { }
  }

  lemma {:induction false} RunInv(run: seq<State>, acts: seq<Action>, i: nat)
    requires Run(run, acts) && i < |run|
    ensures Inv(run[i])
  {
    if i == 0 {
      InitInv(run[0].proxy);
    } else {
      RunInv(run, acts, i - 1);
      assert StepAt(run, acts, i - 1);
      StepKeepsInv(run[i - 1], acts[i - 1]);
    }
  }
}
