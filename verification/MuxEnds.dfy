/**
 How streams end: what a Close, a drop, a failed connect and the end of a task
 leave behind, at every later point of a run.
 */
module MuxEnds {
  import opened Bytes
  import opened Frames
  import opened Pipes
  import opened Mux
  import opened MuxInvariant
  import opened MuxProofs
  import opened MuxTheorems
  import opened MuxOrder

  // A second invariant: only streams that both ends know are closed or notified

  predicate PastPending(p: Phase) { !Udp(p) && !p.Start? && !p.InPending? }

  /** The remote has registered the TCP stream, or the controller the UDP stream. */
  ghost predicate Known(s: State, id: Id) { id in s.down.chans || At(s, id, UdpReady) }

  predicate Routing(t: Task) { t.Registered? || t.Relaying? || t.Leaving? }

  ghost predicate HoldsOk(s: State, id: Id) {
    && (id in s.c.calls && PastPending(s.c.calls[id]) ==> id in s.up.chans)
    && (id in s.assocs || id in s.c.closingUdp ==> At(s, id, UdpReady))
    && (id in s.down.routes ==> id in s.tasks && Routing(s.tasks[id]))
  }

  /** The reader is busy with this stream. */
  predicate BusyWith(r: Reader, id: Id) {
    match r
    case Delivering(i, _) => i == id
    case Dropping(i) => i == id
    case TimingOut(i) => i == id
    case DeliveringUdp(i) => i == id
    case DroppingUdp(i) => i == id
    case TimingOutUdp(i) => i == id
    case Notifying(i) => i == id
    case ClosingUdp(i, _) => i == id
    case ClosingPending(i, _) => i == id
    case _ => false
  }

  ghost predicate ReaderOk(s: State, side: Side) {
    forall id: Id :: BusyWith(PipeOf(s, side).reader, id) ==> Known(s, id)
  }

  ghost predicate ClosesOk(s: State, side: Side) {
    forall f :: f in InFlight(PipeOf(s, side)) && f.Close? ==> Known(s, f.id)
  }

  ghost predicate EndsOk(s: State) {
    && (forall id: Id :: HoldsOk(s, id)) && !s.down.reader.ClosingPending?
    && ReaderOk(s, Down) && ReaderOk(s, Up) && ClosesOk(s, Down) && ClosesOk(s, Up)
  }

  // What is known stays known

  lemma OpenDownChans(s: State, a: OpenAction)
    requires CanOpen(s, a)
    ensures ApplyOpen(s, a).down.chans == s.down.chans && ApplyOpen(s, a).down.routes == s.down.routes
  {
  }

  lemma ChansStay(s: State, a: Action, side: Side, id: Id)
    requires Enabled(s, a) && id in PipeOf(s, side).chans
    ensures id in PipeOf(Apply(s, a), side).chans
  {
    match a
    case OpenStep(o) =>
    case UseStep(u) => UseChannels(s, u, side);
    case LifeStep(l) =>
    case LoopStep(l) => if l.PumpOp? { PumpShrinks(PipeOf(s, l.side), l.op, l.side, 0); }
    case TaskStep(t) =>
  }

  lemma UdpReadyStays(s: State, a: Action, id: Id)
    requires CallOk(s, id) && s.c.allocs <= U32 && Enabled(s, a) && At(s, id, UdpReady)
    ensures At(Apply(s, a), id, UdpReady)
  {
    PhaseStays(s, a, id);
    if a.OpenStep? && a.open.id == id { OpenDecreases(s, a.open); }
  }

  lemma KnownStays(s: State, a: Action, id: Id)
    requires Inv(s) && Enabled(s, a) && Known(s, id)
    ensures Known(Apply(s, a), id)
  {
    InvAt(s, id);
    if id in s.down.chans { ChansStay(s, a, Down, id); } else { UdpReadyStays(s, a, id); }
  }

  // Each part of the invariant is kept

  lemma EnteredKnown(s: State, id: Id)
    requires Inv(s) && id in s.tasks && Entered(s.tasks[id])
    ensures id in s.down.chans
  {
    InvAt(s, id);
  }

  lemma DataKnown(s: State, f: Frame)
    requires Inv(s) && f in InFlight(s.up) && f.Data?
    ensures f.id in s.down.chans
  {
    InvAt(s, f.id);
    assert Flow(s.up, f.id);
    DataOfMember(InFlight(s.up), f);
    EnteredKnown(s, f.id);
  }

  lemma PumpBusy(p: Pipe, op: Op, side: Side, id: Id)
    requires CanPump(p, op, side) && BusyWith(Pump(p, op, side).reader, id)
    ensures || BusyWith(p.reader, id)
            || (op.Lookup? && p.reader.frame.id == id && id in p.routes)
            || (op.LookupUdp? && p.reader.frame.id == id && (side.Down? || id in p.udp))
            || (op.CloseTcp? && p.reader.frame.id == id)
  {
  }

  lemma PumpReaderOk(s: State, on: Side, op: Op, id: Id)
    requires Inv(s) && EndsOk(s) && CanLoop(s, PumpOp(on, op))
    requires BusyWith(Pump(PipeOf(s, on), op, on).reader, id)
    ensures Known(s, id)
  {
    var p := PipeOf(s, on);
    InvAt(s, id);
    InHandOk(s);
    PumpBusy(p, op, on, id);
    if op.CloseTcp? { assert p.reader.frame in InFlight(p); }
    if op.Lookup? && p.reader.frame.id == id && id in p.routes {
      if on.Up? {
        assert p.reader.frame in InFlight(p);
        DataKnown(s, p.reader.frame);
      } else {
        assert Sound(p, id);
      }
    }
  }

  lemma ReaderStaysOk(s: State, a: Action, side: Side, id: Id)
    requires Inv(s) && EndsOk(s) && Enabled(s, a) && BusyWith(PipeOf(Apply(s, a), side).reader, id)
    ensures Known(s, id)
  {
    if a.LoopStep? {
      if a.loop.PumpOp? && a.loop.side == side { PumpReaderOk(s, side, a.loop.op, id); }
    } else {
      ReadersStay(s, a, side);
    }
  }

  lemma SentCloseKnown(s: State, a: Action, side: Side, f: Frame)
    requires Inv(s) && EndsOk(s) && Enabled(s, a) && Sends(s, a, side) == Some(f) && f.Close?
    ensures Known(s, f.id)
  {
    InvAt(s, f.id);
    assert HoldsOk(s, f.id);
    if a.UseStep? && a.use.CloseSend? { EnteredKnown(s, f.id); }
    if a.TaskStep? && a.task.TaskClose? { EnteredKnown(s, f.id); }
  }

  lemma ClosesStayOk(s: State, a: Action, side: Side, f: Frame)
    requires Inv(s) && EndsOk(s) && Enabled(s, a) && f in InFlight(PipeOf(Apply(s, a), side)) && f.Close?
    ensures Known(Apply(s, a), f.id)
  {
    NewFrames(s, a, side, f);
    if f !in InFlight(PipeOf(s, side)) { SentCloseKnown(s, a, side, f); }
    KnownStays(s, a, f.id);
  }

  lemma OpenHolds(s: State, a: OpenAction, id: Id)
    requires HoldsOk(s, id) && CanOpen(s, a)
    ensures HoldsOk(ApplyOpen(s, a), id)
  {
    OpenDownChans(s, a);
  }

  lemma UseHolds(s: State, a: UseAction, id: Id)
    requires IdOk(s, id) && HoldsOk(s, id) && s.c.allocs <= U32 && CanUse(s, a)
    ensures HoldsOk(ApplyUse(s, a), id)
  {
    if Allocating(a) { IdRank(s.c.allocs, id); }
  }

  lemma PumpHolds(s: State, side: Side, op: Op, id: Id)
    requires IdOk(s, id) && HoldsOk(s, id) && CanLoop(s, PumpOp(side, op))
    requires s.down.reader.Handling? ==> FrameOk(s, Down, s.down.reader.frame)
    ensures HoldsOk(ApplyLoop(s, PumpOp(side, op)), id)
  {
    PumpShrinks(PipeOf(s, side), op, side, id);
    PumpUdp(PipeOf(s, side), op, side);
  }

  lemma LoopHolds(s: State, a: LoopAction, id: Id)
    requires IdOk(s, id) && HoldsOk(s, id) && CanLoop(s, a)
    requires s.down.reader.Handling? ==> FrameOk(s, Down, s.down.reader.frame)
    ensures HoldsOk(ApplyLoop(s, a), id)
  {
    if a.PumpOp? {
      PumpHolds(s, a.side, a.op, id);
    } else if a.Spawn? {
      HandledLine(s.down, s.down.(reader := Idle), id);
    }
  }

  lemma TaskHolds(s: State, a: TaskAction, id: Id)
    requires HoldsOk(s, id) && CanTask(s, a)
    ensures HoldsOk(ApplyTask(s, a), id)
  {
    TaskLeavesController(s, a);
  }

  lemma LifeHolds(s: State, a: LifeAction, id: Id)
    requires HoldsOk(s, id) && CanLife(s, a)
    ensures HoldsOk(ApplyLife(s, a), id)
  {
  }

  lemma StepHolds(s: State, a: Action, id: Id)
    requires Inv(s) && EndsOk(s) && Enabled(s, a)
    ensures HoldsOk(Apply(s, a), id)
  {
    InvAt(s, id);
    InHandOk(s);
    HoldsStep(s, a, id);
  }

  lemma HoldsStep(s: State, a: Action, id: Id)
    requires IdOk(s, id) && HoldsOk(s, id) && s.c.allocs <= U32 && Enabled(s, a)
    requires s.down.reader.Handling? ==> FrameOk(s, Down, s.down.reader.frame)
    ensures HoldsOk(Apply(s, a), id)
  {
    match a
    case OpenStep(o) => OpenHolds(s, o, id);
    case UseStep(u) => UseHolds(s, u, id);
    case LifeStep(l) => LifeHolds(s, l, id);
    case LoopStep(l) => LoopHolds(s, l, id);
    case TaskStep(t) => TaskHolds(s, t, id);
  }

  lemma StepKeepsReader(s: State, a: Action, side: Side)
    requires Inv(s) && EndsOk(s) && Enabled(s, a)
    ensures ReaderOk(Apply(s, a), side)
  {
    forall id: Id | BusyWith(PipeOf(Apply(s, a), side).reader, id) ensures Known(Apply(s, a), id) {
      ReaderStaysOk(s, a, side, id);
      KnownStays(s, a, id);
    }
  }

  /** Only the controller has opens to fail. */
  lemma DownReader(s: State, a: Action)
    requires Enabled(s, a) && !s.down.reader.ClosingPending?
    ensures !Apply(s, a).down.reader.ClosingPending?
  {
    if !a.LoopStep? { ReadersStay(s, a, Down); }
  }

  lemma StepKeepsEnds(s: State, a: Action)
    requires Inv(s) && EndsOk(s) && Enabled(s, a)
    ensures EndsOk(Apply(s, a))
  {
    var t := Apply(s, a);
    forall id: Id ensures HoldsOk(t, id) { StepHolds(s, a, id); }
    DownReader(s, a);
    StepKeepsReader(s, a, Down);
    StepKeepsReader(s, a, Up);
    forall f | f in InFlight(PipeOf(t, Down)) && f.Close? ensures Known(t, f.id) { ClosesStayOk(s, a, Down, f); }
    forall f | f in InFlight(PipeOf(t, Up)) && f.Close? ensures Known(t, f.id) { ClosesStayOk(s, a, Up, f); }
  }

  lemma {:induction false} RunEnds(run: seq<State>, acts: seq<Action>, n: nat)
    requires Run(run, acts) && n < |run|
    ensures Inv(run[n]) && EndsOk(run[n])
  {
    RunInv(run, acts, n);
    if n == 0 {
      assert InFlight(EMPTY_PIPE) == [];
    } else {
      RunEnds(run, acts, n - 1);
      assert StepAt(run, acts, n - 1);
      StepKeepsEnds(run[n - 1], acts[n - 1]);
    }
  }

  // After a Close

  /** The stream has left the map, the reader carries nothing for it, and it cannot enter again. */
  ghost predicate Gone(s: State, side: Side, id: Id) {
    var p := PipeOf(s, side);
    && id !in p.routes && !(p.reader.Delivering? && p.reader.id == id)
    && (id in p.chans || At(s, id, UdpReady))
  }

  lemma PumpPushed(p: Pipe, op: Op, side: Side, id: Id)
    requires CanPump(p, op, side) && !(p.reader.Delivering? && p.reader.id == id)
    ensures Pushed(Pump(p, op, side), id) == Pushed(p, id)
  {
  }

  lemma PumpDelivers(p: Pipe, op: Op, side: Side, id: Id)
    requires CanPump(p, op, side) && id !in p.routes && !(p.reader.Delivering? && p.reader.id == id)
    ensures var q := Pump(p, op, side); id !in q.routes && !(q.reader.Delivering? && q.reader.id == id)
  {
  }

  /** Outside the loops nothing is pushed. */
  lemma PushedStays(s: State, a: Action, side: Side, id: Id)
    requires Enabled(s, a) && MapsOk(s, id) && !a.LoopStep?
    ensures Pushed(PipeOf(Apply(s, a), side), id) == Pushed(PipeOf(s, side), id)
  {
    match a
    case OpenStep(o) => OpenChannels(s, o, side, id);
    case UseStep(u) => UseChannels(s, u, side);
    case LifeStep(l) =>
    case TaskStep(t) => TaskChannels(s, t, side, id);
  }

  lemma LoopGone(s: State, a: LoopAction, side: Side, id: Id)
    requires CanLoop(s, a)
    requires var p := PipeOf(s, side); id !in p.routes && !(p.reader.Delivering? && p.reader.id == id)
    ensures var p, q := PipeOf(s, side), PipeOf(ApplyLoop(s, a), side);
            && id !in q.routes && !(q.reader.Delivering? && q.reader.id == id)
            && Pushed(q, id) == Pushed(p, id)
  {
    if a.PumpOp? && a.side == side {
      PumpPushed(PipeOf(s, side), a.op, side, id);
      PumpDelivers(PipeOf(s, side), a.op, side, id);
    }
  }

  /** A route on the remote is new only if its task has just entered it. */
  lemma DownRoutesGrow(s: State, a: Action, id: Id)
    requires Enabled(s, a) && !a.LoopStep? && id in Apply(s, a).down.routes && id !in s.down.routes
    ensures a == TaskStep(Enter(id))
  {
    match a
    case OpenStep(o) => OpenDownChans(s, o);
    case UseStep(u) =>
    case LifeStep(l) =>
    case TaskStep(t) =>
  }

  lemma NotAgain(s: State, a: Action, side: Side, id: Id)
    requires IdOk(s, id) && Enabled(s, a) && !a.LoopStep? && Gone(s, side, id)
    ensures id !in PipeOf(Apply(s, a), side).routes
  {
    if side.Up? {
      if id in Apply(s, a).up.routes { RoutesGrow(s, a, id); }
    } else {
      if id in Apply(s, a).down.routes { DownRoutesGrow(s, a, id); }
    }
  }

  lemma GoneStays(s: State, a: Action, side: Side, id: Id)
    requires Inv(s) && Enabled(s, a) && Gone(s, side, id)
    ensures Gone(Apply(s, a), side, id)
    ensures Pushed(PipeOf(Apply(s, a), side), id) == Pushed(PipeOf(s, side), id)
  {
    InvAt(s, id);
    if id in PipeOf(s, side).chans { ChansStay(s, a, side, id); } else { UdpReadyStays(s, a, id); }
    if a.LoopStep? {
      LoopGone(s, a.loop, side, id);
    } else {
      NotAgain(s, a, side, id);
      PushedStays(s, a, side, id);
      ReadersStay(s, a, side);
    }
  }

  lemma {:induction false} GoneForGood(run: seq<State>, acts: seq<Action>, side: Side, k: nat, n: nat, id: Id)
    requires Run(run, acts) && k <= n < |run| && Gone(run[k], side, id)
    ensures Gone(run[n], side, id) && Pushed(PipeOf(run[n], side), id) == Pushed(PipeOf(run[k], side), id)
  {
    if k < n {
      GoneForGood(run, acts, side, k, n - 1, id);
      RunInv(run, acts, n - 1);
      assert StepAt(run, acts, n - 1);
      GoneStays(run[n - 1], acts[n - 1], side, id);
    }
  }

  lemma KnownIs(s: State, side: Side, id: Id)
    requires Inv(s) && EndsOk(s) && Known(s, id)
    ensures id in PipeOf(s, side).chans || At(s, id, UdpReady)
  {
    InvAt(s, id);
    assert HoldsOk(s, id);
  }

  /** When a reader has handled a Close, the stream is out of its map for good and no chunk enters its channel again. */
  lemma CloseEnds(run: seq<State>, acts: seq<Action>, side: Side, k: nat, n: nat)
    requires Run(run, acts) && k < n < |run| && acts[k] == LoopStep(PumpOp(side, CloseTcp))
    ensures PipeOf(run[k], side).reader.Handling? && PipeOf(run[k], side).reader.frame.Close?
    ensures var id := PipeOf(run[k], side).reader.frame.id;
            && id !in PipeOf(run[n], side).routes
            && Pushed(PipeOf(run[n], side), id) == Pushed(PipeOf(run[k], side), id)
  {
    assert StepAt(run, acts, k);
    var p := PipeOf(run[k], side);
    var id := p.reader.frame.id;
    RunEnds(run, acts, k);
    assert p.reader.frame in InFlight(p);
    KnownIs(run[k], side, id);
    CloseGoes(run[k], side, id);
    GoneForGood(run, acts, side, k + 1, n, id);
  }

  lemma CloseGoes(s: State, side: Side, id: Id)
    requires CanLoop(s, PumpOp(side, CloseTcp)) && PipeOf(s, side).reader.frame.id == id
    requires id in PipeOf(s, side).chans || At(s, id, UdpReady)
    ensures var t := ApplyLoop(s, PumpOp(side, CloseTcp));
            Gone(t, side, id) && Pushed(PipeOf(t, side), id) == Pushed(PipeOf(s, side), id)
  {
  }

  lemma RemoveGoes(s: State, id: Id)
    requires Inv(s) && EndsOk(s) && CanUse(s, CloseRemove(id))
    ensures var t := ApplyUse(s, CloseRemove(id)); id !in t.up.routes && id in t.up.chans
  {
    InvAt(s, id);
    KnownIs(s, Up, id);
  }

  lemma RoutesStayOut(s: State, a: Action, id: Id)
    requires Inv(s) && Enabled(s, a) && id in s.up.chans && id !in s.up.routes
    ensures id in Apply(s, a).up.chans && id !in Apply(s, a).up.routes
  {
    ChansStay(s, a, Up, id);
    InvAt(s, id);
    if id in Apply(s, a).up.routes { RoutesGrow(s, a, id); }
  }

  /** A stream that its caller has closed is out of the controller's map for good. */
  lemma {:induction false} ClosedStaysOut(run: seq<State>, acts: seq<Action>, k: nat, n: nat, id: Id)
    requires Run(run, acts) && k < n < |run| && acts[k] == UseStep(CloseRemove(id))
    ensures id in run[n].up.chans && id !in run[n].up.routes
  {
    RunEnds(run, acts, n - 1);
    assert StepAt(run, acts, n - 1);
    if n == k + 1 {
      RemoveGoes(run[k], id);
    } else {
      ClosedStaysOut(run, acts, k, n - 1, id);
      RoutesStayOut(run[n - 1], acts[n - 1], id);
    }
  }

  // UDP streams

  /** A UDP stream is new in the controller's map only if its registration has just inserted it. */
  lemma UpUdpGrows(s: State, a: Action, id: Id)
    requires Enabled(s, a) && id in Apply(s, a).up.udp && id !in s.up.udp
    ensures a == UseStep(InsertUdp(id))
  {
    match a
    case OpenStep(o) => OpenUdp(s, o);
    case UseStep(u) => UseUpUdp(s, u, id);
    case LifeStep(l) =>
    case LoopStep(l) => if l.PumpOp? { PumpUdp(PipeOf(s, l.side), l.op, l.side); }
    case TaskStep(t) => TaskUdp(s, t);
  }

  lemma UseUpUdp(s: State, a: UseAction, id: Id)
    requires CanUse(s, a) && id in ApplyUse(s, a).up.udp && id !in s.up.udp
    ensures a == InsertUdp(id)
  {
  }

  lemma OpenUdp(s: State, a: OpenAction)
    requires CanOpen(s, a)
    ensures ApplyOpen(s, a).up.udp == s.up.udp && ApplyOpen(s, a).down.udp == s.down.udp
  {
  }

  lemma TaskUdp(s: State, a: TaskAction)
    requires CanTask(s, a)
    ensures ApplyTask(s, a).up.udp == s.up.udp && ApplyTask(s, a).down.udp == s.down.udp
  {
  }

  lemma UdpOutStays(s: State, a: Action, id: Id)
    requires Inv(s) && Enabled(s, a) && Known(s, id) && id !in s.up.udp
    ensures Known(Apply(s, a), id) && id !in Apply(s, a).up.udp
  {
    InvAt(s, id);
    KnownStays(s, a, id);
    if id in Apply(s, a).up.udp { UpUdpGrows(s, a, id); }
  }

  lemma {:induction false} UdpOutForGood(run: seq<State>, acts: seq<Action>, k: nat, n: nat, id: Id)
    requires Run(run, acts) && k <= n < |run| && Known(run[k], id) && id !in run[k].up.udp
    ensures Known(run[n], id) && id !in run[n].up.udp
  {
    if k < n {
      UdpOutForGood(run, acts, k, n - 1, id);
      RunInv(run, acts, n - 1);
      assert StepAt(run, acts, n - 1);
      UdpOutStays(run[n - 1], acts[n - 1], id);
    }
  }

  predicate DropsUdp(op: Op) { op.CloseUdp? || op.DropUdp? || op.DiscardUdp? }

  /** The step takes a UDP stream out of a map: its caller unregisters it, or the reader closes it or gives it up. */
  predicate TakesUdpOut(s: State, a: Action, side: Side, id: Id) {
    || (side.Up? && a == UseStep(UnregisterUdp(id)))
    || (a.LoopStep? && a.loop.PumpOp? && a.loop.side == side && DropsUdp(a.loop.op) && BusyWith(PipeOf(s, side).reader, id))
  }

  lemma UdpGoes(s: State, a: Action, side: Side, id: Id)
    requires Enabled(s, a) && TakesUdpOut(s, a, side, id)
    ensures id !in PipeOf(Apply(s, a), side).udp
  {
  }

  lemma TakenIsKnown(s: State, a: Action, id: Id)
    requires Inv(s) && EndsOk(s) && Enabled(s, a) && TakesUdpOut(s, a, Up, id)
    ensures Known(s, id)
  {
  }

  /** A UDP stream that is taken out of the controller's map is out for good. */
  lemma UdpEnds(run: seq<State>, acts: seq<Action>, k: nat, n: nat, id: Id)
    requires Run(run, acts) && k < n < |run| && TakesUdpOut(run[k], acts[k], Up, id)
    ensures id !in run[n].up.udp
  {
    assert StepAt(run, acts, k);
    RunEnds(run, acts, k);
    UdpGoes(run[k], acts[k], Up, id);
    TakenIsKnown(run[k], acts[k], id);
    KnownStays(run[k], acts[k], id);
    UdpOutForGood(run, acts, k + 1, n, id);
  }

  /** In this step the remote's reader opens an association for `id`, or finds it open. */
  predicate Associates(s: State, a: Action, id: Id) {
    a == LoopStep(PumpOp(Down, LookupUdp)) && s.down.reader.Handling? && s.down.reader.frame.UdpPacket?
    && s.down.reader.frame.id == id
  }

  lemma DownUdpGrows(s: State, a: Action, id: Id)
    requires Enabled(s, a) && id in Apply(s, a).down.udp && id !in s.down.udp
    ensures Associates(s, a, id)
  {
    match a
    case OpenStep(o) => OpenUdp(s, o);
    case UseStep(u) => UsePipe(s, u); UseDownUdp(s, u);
    case LifeStep(l) =>
    case LoopStep(l) => if l.PumpOp? { PumpUdp(PipeOf(s, l.side), l.op, l.side); }
    case TaskStep(t) => TaskUdp(s, t);
  }

  lemma UseDownUdp(s: State, a: UseAction)
    requires CanUse(s, a)
    ensures ApplyUse(s, a).down.udp == s.down.udp
  {
  }

  /** The controller's caller registers the stream; a datagram opens it at the remote. */
  predicate PutsUdpIn(s: State, a: Action, side: Side, id: Id) {
    if side.Up? then a == UseStep(InsertUdp(id)) else Associates(s, a, id)
  }

  predicate LosesUdp(s: State, a: Action, side: Side, id: Id) {
    TakesUdpOut(s, a, side, id) || (side.Up? && a == LifeStep(ClearUdp))
  }

  lemma PumpLosesUdp(p: Pipe, op: Op, side: Side, id: Id)
    requires CanPump(p, op, side) && id in p.udp && id !in Pump(p, op, side).udp
    ensures DropsUdp(op) && BusyWith(p.reader, id)
  {
  }

  lemma UseLosesUdp(s: State, a: UseAction, side: Side, id: Id)
    requires CanUse(s, a) && id in PipeOf(s, side).udp && id !in PipeOf(ApplyUse(s, a), side).udp
    ensures side.Up? && a == UnregisterUdp(id)
  {
    UseDownUdp(s, a);
  }

  lemma UdpShrinks(s: State, a: Action, side: Side, id: Id)
    requires Enabled(s, a) && id in PipeOf(s, side).udp && id !in PipeOf(Apply(s, a), side).udp
    ensures LosesUdp(s, a, side, id)
  {
    match a
    case OpenStep(o) => OpenUdp(s, o);
    case UseStep(u) => UseLosesUdp(s, u, side, id);
    case LifeStep(l) =>
    case LoopStep(l) => if l.PumpOp? && l.side == side { PumpLosesUdp(PipeOf(s, side), l.op, side, id); }
    case TaskStep(t) => TaskUdp(s, t);
  }

  lemma UdpMoves(s: State, a: Action, side: Side, id: Id)
    requires Enabled(s, a)
    ensures PutsUdpIn(s, a, side, id) ==> id in PipeOf(Apply(s, a), side).udp
    ensures LosesUdp(s, a, side, id) ==> id !in PipeOf(Apply(s, a), side).udp
    ensures !PutsUdpIn(s, a, side, id) && !LosesUdp(s, a, side, id) ==>
              (id in PipeOf(Apply(s, a), side).udp <==> id in PipeOf(s, side).udp)
  {
    var before, after := PipeOf(s, side).udp, PipeOf(Apply(s, a), side).udp;
    if TakesUdpOut(s, a, side, id) { UdpGoes(s, a, side, id); }
    if id in before && id !in after { UdpShrinks(s, a, side, id); }
    if id in after && id !in before {
      if side.Up? { UpUdpGrows(s, a, id); } else { DownUdpGrows(s, a, id); }
    }
  }

  /** The stream was put into the map in step `k`, and no later one before state `n` took it out. */
  ghost predicate InSince(run: seq<State>, acts: seq<Action>, side: Side, k: nat, n: nat, id: Id)
    requires |run| == |acts| + 1 && n < |run|
  {
    && k < n && PutsUdpIn(run[k], acts[k], side, id)
    && forall i :: k < i < n ==> !LosesUdp(run[i], acts[i], side, id)
  }

  /**
   The UDP map of either end, at any point of a run: exactly the streams that were put in and not taken
   out since by their caller, a Close, a failed delivery or the clean-up.
   */
  lemma {:induction false} UdpMapIs(run: seq<State>, acts: seq<Action>, side: Side, n: nat, id: Id)
    requires Run(run, acts) && n < |run|
    ensures id in PipeOf(run[n], side).udp <==> exists k: nat :: InSince(run, acts, side, k, n, id)
  {
    if n > 0 {
      UdpMapIs(run, acts, side, n - 1, id);
      assert StepAt(run, acts, n - 1);
      UdpMoves(run[n - 1], acts[n - 1], side, id);
      if PutsUdpIn(run[n - 1], acts[n - 1], side, id) {
        assert InSince(run, acts, side, n - 1, n, id);
      } else {
        SinceGoesOn(run, acts, side, n - 1, n, id);
      }
    }
  }

  lemma SinceGoesOn(run: seq<State>, acts: seq<Action>, side: Side, m: nat, n: nat, id: Id)
    requires |run| == |acts| + 1 && n == m + 1 < |run|
    requires !PutsUdpIn(run[m], acts[m], side, id)
    ensures (exists k: nat :: InSince(run, acts, side, k, n, id))
       <==> (exists k: nat :: InSince(run, acts, side, k, m, id)) && !LosesUdp(run[m], acts[m], side, id)
  {
    if k: nat :| InSince(run, acts, side, k, n, id) { assert InSince(run, acts, side, k, m, id); }
    if k: nat :| InSince(run, acts, side, k, m, id) {
      if !LosesUdp(run[m], acts[m], side, id) { assert InSince(run, acts, side, k, n, id); }
    }
  }

  // The stream maps exactly

  predicate PutsIn(a: Action, side: Side, id: Id) {
    if side.Up? then a == OpenStep(InsertStream(id)) else a == TaskStep(Enter(id))
  }

  /** The reader takes the stream out of its map: for a Close, a receiver that is gone, or one that is too slow. */
  predicate ReaderTakesOut(p: Pipe, op: Op, id: Id) {
    || ((op.Drop? || op.Discard?) && BusyWith(p.reader, id))
    || (op.CloseTcp? && p.reader.Handling? && p.reader.frame.Close? && p.reader.frame.id == id)
  }

  predicate TakesOut(s: State, a: Action, side: Side, id: Id) {
    match a
    case OpenStep(o) => side.Up? && (o == LeaveStreams(id) || o == RefusedLeaveStreams(id))
    case UseStep(u) => side.Up? && u == CloseRemove(id)
    case LifeStep(l) => side.Up? && l.ClearTcp?
    case LoopStep(l) => l.PumpOp? && l.side == side && ReaderTakesOut(PipeOf(s, side), l.op, id)
    case TaskStep(t) => side.Down? && t == Leave(id)
  }

  lemma PumpRoutes(p: Pipe, op: Op, side: Side, id: Id)
    requires CanPump(p, op, side)
    ensures id in Pump(p, op, side).routes <==> id in p.routes && !ReaderTakesOut(p, op, id)
  {
  }

  lemma OpenRoutesAre(s: State, a: OpenAction, side: Side, id: Id)
    requires CanOpen(s, a)
    ensures id in PipeOf(ApplyOpen(s, a), side).routes <==>
            PutsIn(OpenStep(a), side, id) || (id in PipeOf(s, side).routes && !TakesOut(s, OpenStep(a), side, id))
  {
  }

  lemma UseRoutesAre(s: State, a: UseAction, side: Side, id: Id)
    requires CanUse(s, a)
    ensures id in PipeOf(ApplyUse(s, a), side).routes <==>
            id in PipeOf(s, side).routes && !TakesOut(s, UseStep(a), side, id)
  {
  }

  lemma TaskRoutesAre(s: State, a: TaskAction, side: Side, id: Id)
    requires CanTask(s, a)
    ensures id in PipeOf(ApplyTask(s, a), side).routes <==>
            PutsIn(TaskStep(a), side, id) || (id in PipeOf(s, side).routes && !TakesOut(s, TaskStep(a), side, id))
  {
  }

  lemma RoutesMove(s: State, a: Action, side: Side, id: Id)
    requires Enabled(s, a)
    ensures id in PipeOf(Apply(s, a), side).routes <==>
            PutsIn(a, side, id) || (id in PipeOf(s, side).routes && !TakesOut(s, a, side, id))
  {
    match a
    case OpenStep(o) => OpenRoutesAre(s, o, side, id);
    case UseStep(u) => UseRoutesAre(s, u, side, id);
    case LifeStep(l) =>
    case LoopStep(l) => if l.PumpOp? && l.side == side { PumpRoutes(PipeOf(s, side), l.op, side, id); }
    case TaskStep(t) => TaskRoutesAre(s, t, side, id);
  }

  /** The stream was put into the map in step `k`, and no later one before state `n` took it out. */
  ghost predicate RoutedSince(run: seq<State>, acts: seq<Action>, side: Side, k: nat, n: nat, id: Id)
    requires |run| == |acts| + 1 && n < |run|
  {
    k < n && PutsIn(acts[k], side, id) && forall i :: k < i < n ==> !TakesOut(run[i], acts[i], side, id)
  }

  /**
   The stream map of either end, at any point of a run: exactly the streams that were put in and not taken
   out since by a failed open, their caller, their task, a Close, a failed delivery or the clean-up.
   */
  lemma {:induction false} RouteMapIs(run: seq<State>, acts: seq<Action>, side: Side, n: nat, id: Id)
    requires Run(run, acts) && n < |run|
    ensures id in PipeOf(run[n], side).routes <==> exists k: nat :: RoutedSince(run, acts, side, k, n, id)
  {
    if n > 0 {
      RouteMapIs(run, acts, side, n - 1, id);
      assert StepAt(run, acts, n - 1);
      RoutesMove(run[n - 1], acts[n - 1], side, id);
      if PutsIn(acts[n - 1], side, id) {
        assert RoutedSince(run, acts, side, n - 1, n, id);
      } else {
        RouteGoesOn(run, acts, side, n - 1, n, id);
      }
    }
  }

  lemma RouteGoesOn(run: seq<State>, acts: seq<Action>, side: Side, m: nat, n: nat, id: Id)
    requires |run| == |acts| + 1 && n == m + 1 < |run| && !PutsIn(acts[m], side, id)
    ensures (exists k: nat :: RoutedSince(run, acts, side, k, n, id))
       <==> (exists k: nat :: RoutedSince(run, acts, side, k, m, id)) && !TakesOut(run[m], acts[m], side, id)
  {
    if k: nat :| RoutedSince(run, acts, side, k, n, id) { assert RoutedSince(run, acts, side, k, m, id); }
    if k: nat :| RoutedSince(run, acts, side, k, m, id) {
      if !TakesOut(run[m], acts[m], side, id) { assert RoutedSince(run, acts, side, k, n, id); }
    }
  }

  // Remote tasks

  /** How far a task has got; a refusal is a way of its own. */
  function Progress(t: Task): nat {
    match t
    case Connecting(_, _, _) => 0
    case Connected => 1
    case Registered => 2
    case Relaying => 3
    case Leaving => 4
    case Left => 5
    case Finished => 6
    case Refusing => 7
    case Rejected => 8
  }

  /** A step of a remote task's own code, by which it gets on. */
  predicate GetsOn(a: TaskAction) {
    a.ConnectOk? || a.ConnectFails? || a.Enter? || a.ReplyOk? || a.ReplyFails? || a.RelayEnds? || a.Leave? || a.TaskClose?
  }

  lemma TaskGetsOn(s: State, a: TaskAction, id: Id)
    requires CanTask(s, a) && id in s.tasks
    ensures var t := ApplyTask(s, a).tasks;
            && id in t && Progress(s.tasks[id]) <= Progress(t[id])
            && (GetsOn(a) && a.id == id ==> Progress(s.tasks[id]) < Progress(t[id]))
            && (s.tasks[id].Refusing? || s.tasks[id].Rejected? ==> t[id].Refusing? || t[id].Rejected?)
  {
  }

  lemma TaskOnlySelf(s: State, a: Action, id: Id)
    requires OpenOk(s, id) && Enabled(s, a) && !a.TaskStep? && id in s.tasks
    ensures id in Apply(s, a).tasks && Apply(s, a).tasks[id] == s.tasks[id]
  {
    match a
    case OpenStep(o) => OpenRemote(s, o);
    case UseStep(u) =>
    case LifeStep(l) =>
    case LoopStep(l) => if l.Spawn? { HandledLine(s.down, s.down.(reader := Idle), id); }
  }

  lemma {:induction false} TaskGetsOnOverRun(run: seq<State>, acts: seq<Action>, i: nat, j: nat, id: Id)
    requires Run(run, acts) && i <= j < |run| && id in run[i].tasks
    ensures id in run[j].tasks && Progress(run[i].tasks[id]) <= Progress(run[j].tasks[id])
    ensures run[i].tasks[id].Refusing? || run[i].tasks[id].Rejected? ==> run[j].tasks[id].Refusing? || run[j].tasks[id].Rejected?
    ensures i < j && acts[i].TaskStep? && GetsOn(acts[i].task) && acts[i].task.id == id ==>
              Progress(run[i].tasks[id]) < Progress(run[j].tasks[id])
  {
    if i < j {
      TaskGetsOnOverRun(run, acts, i, j - 1, id);
      var s, a := run[j - 1], acts[j - 1];
      assert StepAt(run, acts, j - 1);
      if a.TaskStep? {
        TaskGetsOn(s, a.task, id);
      } else {
        RunInv(run, acts, j - 1);
        InvAt(s, id);
        TaskOnlySelf(s, a, id);
      }
    }
  }

  /** Where in its code a task takes each of its steps. */
  predicate TakenAt(a: TaskAction, t: Task) {
    match a
    case ConnectOk(_) => t.Connecting?
    case ConnectFails(_) => t.Connecting?
    case Enter(_) => t.Connected?
    case ReplyOk(_, _) => t.Registered?
    case ReplyFails(_, _) => t.Refusing?
    case RelayEnds(_) => t.Relaying?
    case Leave(_) => t.Leaving?
    case TaskClose(_, _) => t.Left?
    case _ => true
  }

  /**
   A task takes its steps in the order of its code and each at most once: it connects or fails to, enters
   the map, replies, stops relaying, leaves the map and sends its Close, or else refuses.
   */
  lemma TaskInOrder(run: seq<State>, acts: seq<Action>, i: nat, j: nat, id: Id)
    requires Run(run, acts) && i < j < |acts| && acts[i].TaskStep? && acts[j].TaskStep?
    requires GetsOn(acts[i].task) && GetsOn(acts[j].task) && acts[i].task.id == acts[j].task.id == id
    ensures id in run[i].tasks && id in run[j].tasks && Progress(run[i].tasks[id]) < Progress(run[j].tasks[id])
    ensures TakenAt(acts[i].task, run[i].tasks[id]) && TakenAt(acts[j].task, run[j].tasks[id])
  {
    assert StepAt(run, acts, i) && StepAt(run, acts, j);
    TaskGetsOnOverRun(run, acts, i, j, id);
  }

  /** A task that has left the map or finished is not in it. */
  lemma FinishedLeft(run: seq<State>, acts: seq<Action>, n: nat, id: Id)
    requires Run(run, acts) && n < |run| && (TaskAt(run[n], id, Left) || TaskAt(run[n], id, Task.Finished))
    ensures id !in run[n].down.routes
  {
    RunEnds(run, acts, n);
    assert HoldsOk(run[n], id);
  }

  lemma ConnectStep(s: State, a: Action, id: Id)
    requires Enabled(s, a) && id in Apply(s, a).tasks && (Apply(s, a).tasks[id].Connected? || Entered(Apply(s, a).tasks[id]))
    requires !(id in s.tasks && (s.tasks[id].Connected? || Entered(s.tasks[id])))
    ensures a == TaskStep(ConnectOk(id))
  {
  }

  lemma {:induction false} ConnectedBefore(run: seq<State>, acts: seq<Action>, n: nat, id: Id)
    requires Run(run, acts) && n < |run| && id in run[n].tasks && (run[n].tasks[id].Connected? || Entered(run[n].tasks[id]))
    ensures exists i :: 0 <= i < n && acts[i] == TaskStep(ConnectOk(id))
  {
    if n > 0 {
      assert StepAt(run, acts, n - 1);
      var s := run[n - 1];
      if id in s.tasks && (s.tasks[id].Connected? || Entered(s.tasks[id])) {
        ConnectedBefore(run, acts, n - 1, id);
      } else {
        ConnectStep(s, acts[n - 1], id);
      }
    }
  }

  /** An open succeeds only after the remote has connected. */
  lemma OpenedIsConnected(run: seq<State>, acts: seq<Action>, n: nat, id: Id)
    requires Run(run, acts) && n < |run| && At(run[n], id, Opened)
    ensures exists i :: 0 <= i < n && acts[i] == TaskStep(ConnectOk(id))
  {
    RunInv(run, acts, n);
    InvAt(run[n], id);
    ConnectedBefore(run, acts, n, id);
  }

  /** A step by which the remote would serve the stream. */
  predicate Serves(a: Action, id: Id) {
    a.TaskStep? && (a.task.Enter? || a.task.ReplyOk? || a.task.SocketRead?) && a.task.id == id
  }

  /** After a failed connect the stream is never registered, accepted or served, and the open never succeeds. */
  lemma FailedConnect(run: seq<State>, acts: seq<Action>, i: nat, n: nat, id: Id)
    requires Run(run, acts) && i < n < |run| && acts[i] == TaskStep(ConnectFails(id))
    ensures id !in run[n].down.chans && id !in run[n].down.routes && !At(run[n], id, Opened)
    ensures n < |acts| ==> !Serves(acts[n], id)
  {
    assert StepAt(run, acts, i);
    TaskGetsOnOverRun(run, acts, i + 1, n, id);
    RunEnds(run, acts, n);
    InvAt(run[n], id);
    assert HoldsOk(run[n], id);
    if n < |acts| { assert StepAt(run, acts, n); }
  }

  lemma RelayStopsOver(s: State, id: Id)
    requires MapsOk(s, id) && CanTask(s, RelayStops(id))
    ensures RelayOver(ApplyTask(s, RelayStops(id)), id)
  {
  }

  /** After its relay has stopped, no data is sent for the stream. */
  lemma RelayStopped(run: seq<State>, acts: seq<Action>, k: nat, n: nat, id: Id)
    requires Run(run, acts) && k < n < |acts| && acts[k] == TaskStep(RelayStops(id))
    ensures !(acts[n].TaskStep? && acts[n].task.SocketRead? && acts[n].task.id == id)
  {
    RunInv(run, acts, k);
    InvAt(run[k], id);
    assert StepAt(run, acts, k);
    RelayStopsOver(run[k], id);
    QuietAfter(run, acts, k + 1, n, id);
    assert StepAt(run, acts, n);
  }

  // The reader of the controller and opens

  lemma ClosingStep(s: State, a: Action, id: Id, reason: Text)
    requires Enabled(s, a) && (s.up.reader == ClosingUdp(id, reason) || s.up.reader == ClosingPending(id, reason))
    ensures var r := Apply(s, a).up.reader;
            || r == ClosingUdp(id, reason) || r == ClosingPending(id, reason)
            || (a == LoopStep(ClosePending) && s.up.reader == ClosingPending(id, reason))
  {
    if !a.LoopStep? { ReadersStay(s, a, Up); }
  }

  /** In step `i` the open is failed with the reason, if it was still pending. */
  predicate FailsOpen(run: seq<State>, acts: seq<Action>, i: nat, id: Id, reason: Text)
    requires |run| == |acts| + 1
  {
    && i < |acts| && acts[i] == LoopStep(ClosePending) && id !in run[i + 1].c.pending
    && (id in run[i].c.pending ==> id in run[i + 1].c.slots && run[i + 1].c.slots[id] == Refused(reason))
  }

  /** A Close for an open that still waits fails it with the Close's reason before the reader goes on. */
  lemma {:induction false} CloseFailsOpen(run: seq<State>, acts: seq<Action>, k: nat, n: nat)
    requires Run(run, acts) && k < n < |run| && acts[k] == LoopStep(PumpOp(Up, CloseTcp))
    ensures run[k].up.reader.Handling? && run[k].up.reader.frame.Close?
    ensures var f := run[k].up.reader.frame;
            || run[n].up.reader == ClosingUdp(f.id, f.reason) || run[n].up.reader == ClosingPending(f.id, f.reason)
            || exists i :: k < i < n && FailsOpen(run, acts, i, f.id, f.reason)
  {
    assert StepAt(run, acts, k);
    var f := run[k].up.reader.frame;
    if n > k + 1 {
      CloseFailsOpen(run, acts, k, n - 1);
      assert StepAt(run, acts, n - 1);
      var r := run[n - 1].up.reader;
      if r == ClosingUdp(f.id, f.reason) || r == ClosingPending(f.id, f.reason) {
        ClosingStep(run[n - 1], acts[n - 1], f.id, f.reason);
        assert acts[n - 1] == LoopStep(ClosePending) && r.ClosingPending? ==> FailsOpen(run, acts, n - 1, f.id, f.reason);
      }
    }
  }

  // Giving up a stream

  predicate GivesUp(op: Op) { op.DeliverClosed? || op.DeliverTimesOut? || op.UdpClosed? || op.UdpTimesOut? }

  /** What the reader is about to do when it gives up a stream. */
  function ToGiveUp(op: Op, id: Id): Reader
    requires GivesUp(op)
  {
    match op
    case DeliverClosed => Dropping(id)
    case DeliverTimesOut => TimingOut(id)
    case UdpClosed => DroppingUdp(id)
    case UdpTimesOut => TimingOutUdp(id)
  }

  lemma GiveUpStep(s: State, a: Action, side: Side, op: Op, id: Id)
    requires Enabled(s, a) && GivesUp(op) && PipeOf(s, side).reader == ToGiveUp(op, id)
    ensures var q := PipeOf(Apply(s, a), side);
            || q.reader == ToGiveUp(op, id)
            || id !in (if op.DeliverClosed? || op.DeliverTimesOut? then q.routes else q.udp)
  {
    if !a.LoopStep? { ReadersStay(s, a, side); }
  }

  /** A reader that gives up a stream takes it out of its map before it goes on. */
  lemma {:induction false} GivenUpGoes(run: seq<State>, acts: seq<Action>, side: Side, op: Op, k: nat, n: nat)
    requires Run(run, acts) && k < n < |run| && acts[k] == LoopStep(PumpOp(side, op)) && GivesUp(op)
    ensures var r := PipeOf(run[k], side).reader; r.Delivering? || r.DeliveringUdp?
    ensures var id := PipeOf(run[k], side).reader.id;
            || PipeOf(run[n], side).reader == ToGiveUp(op, id)
            || exists i :: k < i <= n && var q := PipeOf(run[i], side);
                 id !in (if op.DeliverClosed? || op.DeliverTimesOut? then q.routes else q.udp)
  {
    assert StepAt(run, acts, k);
    var id := PipeOf(run[k], side).reader.id;
    if n > k + 1 {
      GivenUpGoes(run, acts, side, op, k, n - 1);
      assert StepAt(run, acts, n - 1);
      if PipeOf(run[n - 1], side).reader == ToGiveUp(op, id) { GiveUpStep(run[n - 1], acts[n - 1], side, op, id); }
    }
  }

  /** The ways in which a reader ends the delivery of a datagram. */
  predicate EndsDatagram(op: Op) { op.UdpOk? || op.UdpClosed? || op.UdpTimesOut? }

  lemma DatagramStep(s: State, a: Action, side: Side, id: Id)
    requires Enabled(s, a) && PipeOf(s, side).reader == DeliveringUdp(id)
    ensures || PipeOf(Apply(s, a), side).reader == DeliveringUdp(id)
            || (a.LoopStep? && a.loop.PumpOp? && a.loop.side == side && EndsDatagram(a.loop.op))
  {
    if !a.LoopStep? { ReadersStay(s, a, side); }
  }

  /** In step `i` the reader of the side is done with a datagram for `id`. */
  predicate HandsDatagram(s: State, a: Action, side: Side, id: Id) {
    && PipeOf(s, side).reader == DeliveringUdp(id)
    && a.LoopStep? && a.loop.PumpOp? && a.loop.side == side && EndsDatagram(a.loop.op)
  }

  /** A datagram for a registered stream is handed over, or its stream given up, before the reader goes on. */
  lemma {:induction false} DatagramHanded(run: seq<State>, acts: seq<Action>, side: Side, k: nat, n: nat)
    requires Run(run, acts) && k < n < |run| && acts[k] == LoopStep(PumpOp(side, LookupUdp))
    ensures PipeOf(run[k], side).reader.Handling? && PipeOf(run[k], side).reader.frame.UdpPacket?
    ensures var id := PipeOf(run[k], side).reader.frame.id;
            side.Down? || id in run[k].up.udp ==>
              || PipeOf(run[n], side).reader == DeliveringUdp(id)
              || exists i :: k < i < n && HandsDatagram(run[i], acts[i], side, id)
  {
    assert StepAt(run, acts, k);
    var id := PipeOf(run[k], side).reader.frame.id;
    if n > k + 1 {
      DatagramHanded(run, acts, side, k, n - 1);
      assert StepAt(run, acts, n - 1);
      if PipeOf(run[n - 1], side).reader == DeliveringUdp(id) { DatagramStep(run[n - 1], acts[n - 1], side, id); }
    }
  }

  lemma LoopClosed(s: State, a: LoopAction, side: Side, id: Id)
    requires CanLoop(s, a) && id in PipeOf(s, side).chans && !PipeOf(s, side).chans[id].open
    ensures var p, q := PipeOf(s, side), PipeOf(ApplyLoop(s, a), side);
            id in q.chans && !q.chans[id].open && q.chans[id].pushed == p.chans[id].pushed
  {
    if a.PumpOp? && a.side == side { PumpClosed(PipeOf(s, side), a.op, side, id); }
  }

  lemma DropReceiverStep(s: State, a: Action, side: Side, id: Id)
    requires MapsOk(s, id) && Enabled(s, a) && id in PipeOf(s, side).chans && !PipeOf(s, side).chans[id].open
    ensures var p, q := PipeOf(s, side), PipeOf(Apply(s, a), side);
            id in q.chans && !q.chans[id].open && q.chans[id].pushed == p.chans[id].pushed
  {
    match a
    case OpenStep(o) => OpenChannels(s, o, side, id);
    case UseStep(u) => UseChannels(s, u, side);
    case LifeStep(l) =>
    case LoopStep(l) => LoopClosed(s, l, side, id);
    case TaskStep(t) => TaskChannels(s, t, side, id);
  }

  lemma PumpClosed(p: Pipe, op: Op, side: Side, id: Id)
    requires CanPump(p, op, side) && id in p.chans && !p.chans[id].open
    ensures var q := Pump(p, op, side); id in q.chans && !q.chans[id].open && q.chans[id].pushed == p.chans[id].pushed
  {
  }

  /** After its receiver is gone, nothing more is pushed for a stream. */
  lemma {:induction false} DroppedReceiver(run: seq<State>, acts: seq<Action>, side: Side, k: nat, n: nat, id: Id)
    requires Run(run, acts) && k < n < |run| && acts[k] == LoopStep(PumpOp(side, DropReceiver(id)))
    ensures id in PipeOf(run[n], side).chans && !PipeOf(run[n], side).chans[id].open
    ensures Pushed(PipeOf(run[n], side), id) == Pushed(PipeOf(run[k], side), id)
  {
    assert StepAt(run, acts, k);
    if n > k + 1 {
      DroppedReceiver(run, acts, side, k, n - 1, id);
      assert StepAt(run, acts, n - 1);
      RunInv(run, acts, n - 1);
      InvAt(run[n - 1], id);
      DropReceiverStep(run[n - 1], acts[n - 1], side, id);
    }
  }

  // The stages of a task

  /** The step that brings a task to a stage. */
  predicate LeadsTo(a: TaskAction, t: Task) {
    match t
    case Connecting(_, _, _) => false
    case Connected => a.ConnectOk?
    case Registered => a.Enter?
    case Relaying => a.ReplyOk?
    case Leaving => a.RelayEnds?
    case Left => a.Leave?
    case Finished => a.TaskClose?
    case Refusing => a.ConnectFails?
    case Rejected => a.ReplyFails?
  }

  lemma StageStep(s: State, a: Action, id: Id)
    requires OpenOk(s, id) && Enabled(s, a) && id in Apply(s, a).tasks && !Apply(s, a).tasks[id].Connecting?
    requires !(id in s.tasks && s.tasks[id] == Apply(s, a).tasks[id])
    ensures a.TaskStep? && a.task.id == id && LeadsTo(a.task, Apply(s, a).tasks[id])
  {
    if !a.TaskStep? && id in s.tasks { TaskOnlySelf(s, a, id); }
  }

  /** A task has come to its stage by the step that leads there: a finished one has sent its Close, and so on. */
  lemma {:induction false} StageReached(run: seq<State>, acts: seq<Action>, n: nat, id: Id)
    requires Run(run, acts) && n < |run| && id in run[n].tasks && !run[n].tasks[id].Connecting?
    ensures exists i :: 0 <= i < n && acts[i].TaskStep? && acts[i].task.id == id && LeadsTo(acts[i].task, run[n].tasks[id])
  {
    if n > 0 {
      assert StepAt(run, acts, n - 1);
      var s := run[n - 1];
      if id in s.tasks && s.tasks[id] == run[n].tasks[id] {
        StageReached(run, acts, n - 1, id);
      } else {
        RunInv(run, acts, n - 1);
        InvAt(s, id);
        StageStep(s, acts[n - 1], id);
      }
    }
  }

  // Nobody is stuck

  predicate QueueFull(p: Pipe) { p.up && |p.queue| >= FRAME_CHANNEL_CAPACITY }

  /** A step of the reader of one side. */
  predicate ReadsOn(a: LoopAction, side: Side) {
    match a
    case PumpOp(on, op) => on == side && !op.Flush? && !op.StopWriter? && !op.Take? && !op.DropReceiver?
    case Notify(on, _) => on == side
    case Resolve => side.Up?
    case ClosePending => side.Up?
    case Spawn => side.Down?
  }

  /** A step that the reader can take next: whatever frame it holds, there is one that handles it. */
  function NextRead(s: State, side: Side): LoopAction {
    var p := PipeOf(s, side);
    match p.reader
    case Handling(f) =>
      (match f
       case OpenTcp(_, _, _, _) => if side.Down? then Spawn else PumpOp(side, Skip)
       case OpenTcpResult(_, _, _) => if side.Up? then Resolve else PumpOp(side, Skip)
       case Data(_, _) => PumpOp(side, Lookup)
       case Close(_, _) => PumpOp(side, CloseTcp)
       case UdpPacket(_, _, _, _) => PumpOp(side, LookupUdp)
       case Log(_) => PumpOp(side, Skip))
    case Delivering(id, _) =>
      if id !in p.chans || !p.chans[id].open then PumpOp(side, DeliverClosed)
      else if p.chans[id].Full() then PumpOp(side, DeliverTimesOut)
      else PumpOp(side, DeliverOk)
    case Dropping(_) => PumpOp(side, Drop)
    case TimingOut(_) => PumpOp(side, Discard)
    case DeliveringUdp(_) => PumpOp(side, UdpOk)
    case DroppingUdp(_) => PumpOp(side, DropUdp)
    case TimingOutUdp(_) => PumpOp(side, DiscardUdp)
    case Notifying(_) => Notify(side, [])
    case ClosingUdp(_, _) => PumpOp(side, CloseUdp)
    case ClosingPending(_, _) => ClosePending
    case _ => PumpOp(side, EndRead)
  }

  lemma HandlesFrame(s: State, side: Side)
    requires PipeOf(s, side).reader.Handling?
    ensures ReadsOn(NextRead(s, side), side) && CanLoop(s, NextRead(s, side))
  {
  }

  lemma NextReadRuns(s: State, side: Side)
    requires Inv(s) && EndsOk(s) && !PipeOf(s, side).reader.Ended?
    requires !(PipeOf(s, side).reader.Notifying? && QueueFull(PipeOf(s, OtherSide(side))))
    ensures ReadsOn(NextRead(s, side), side) && CanLoop(s, NextRead(s, side))
  {
    var p := PipeOf(s, side);
    if p.reader.Handling? {
      HandlesFrame(s, side);
    } else if p.reader.Delivering? {
      assert Sound(p, p.reader.id);
    }
  }

  /** Whatever it holds, a reader can take a step, except exactly while it waits for room to send a Close. */
  lemma ReaderNeverStuck(run: seq<State>, acts: seq<Action>, side: Side, n: nat)
    requires Run(run, acts) && n < |run| && !PipeOf(run[n], side).reader.Ended?
    ensures (exists a :: ReadsOn(a, side) && CanLoop(run[n], a))
       <==> !(PipeOf(run[n], side).reader.Notifying? && QueueFull(PipeOf(run[n], OtherSide(side))))
  {
    RunEnds(run, acts, n);
    if !(PipeOf(run[n], side).reader.Notifying? && QueueFull(PipeOf(run[n], OtherSide(side)))) { NextReadRuns(run[n], side); }
  }

  function NextOfTask(t: Task, id: Id): TaskAction {
    match t
    case Connecting(_, _, _) => ConnectOk(id)
    case Connected => Enter(id)
    case Registered => ReplyOk(id, [])
    case Relaying => RelayEnds(id)
    case Leaving => Leave(id)
    case Left => TaskClose(id, [])
    case _ => ReplyFails(id, [])
  }

  /** A remote task that has not ended can take a step, except exactly while it waits for room to send. */
  lemma TaskNeverStuck(s: State, id: Id)
    requires id in s.tasks && !s.tasks[id].Finished? && !s.tasks[id].Rejected?
    ensures (exists a :: GetsOn(a) && a.id == id && CanTask(s, a))
       <==> !((s.tasks[id].Registered? || s.tasks[id].Refusing? || s.tasks[id].Left?) && QueueFull(s.up))
  {
    if !((s.tasks[id].Registered? || s.tasks[id].Refusing? || s.tasks[id].Left?) && QueueFull(s.up)) {
      assert GetsOn(NextOfTask(s.tasks[id], id)) && CanTask(s, NextOfTask(s.tasks[id], id));
    }
  }
}
