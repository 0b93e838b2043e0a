/**
 The order of frames: each direction delivers the frames in the order they were
 sent, so the Close of a finished stream comes after all of its data.
 */
module MuxOrder {
  import opened Bytes
  import opened Frames
  import opened Sequences
  import opened Pipes
  import opened Mux
  import opened MuxInvariant
  import opened MuxProofs
  import opened MuxTheorems

  /** The frame that a step puts into the queue of one side, if it does: a send is lost when the writer is gone. */
  function Queues(s: State, a: Action, side: Side): seq<Frame> {
    var sent := Sends(s, a, side);
    if sent.Some? && PipeOf(s, side).up then [sent.value] else []
  }

  /** All frames queued on one side in the first `n` steps of a run. */
  ghost function AllSent(run: seq<State>, acts: seq<Action>, side: Side, n: nat): seq<Frame>
    requires Run(run, acts) && n <= |acts|
  {
    if n == 0 then [] else AllSent(run, acts, side, n - 1) + Queues(run[n - 1], acts[n - 1], side)
  }

  /** The line of frames gets its new frame at the end and loses at most its first. */
  ghost predicate Advances(before: seq<Frame>, queued: seq<Frame>, after: seq<Frame>) {
    after == before + queued || (before != [] && after == before[1..] + queued)
  }

  lemma TrySendAdvances(p: Pipe, f: Frame)
    requires CanTrySend(p)
    ensures Advances(InFlight(p), if p.up then [f] else [], InFlight(TrySend(p, f)))
  {
    if p.up { PushLine(p, f, 0); }
  }

  lemma SameAdvances(p: Pipe, q: Pipe)
    requires InFlight(q) == InFlight(p)
    ensures Advances(InFlight(p), [], InFlight(q))
  {
  }

  lemma HandledAdvances(p: Pipe, q: Pipe)
    requires p.reader.Handling? && !q.reader.Handling? && q.wire == p.wire && q.queue == p.queue
    ensures Advances(InFlight(p), [], InFlight(q))
  {
    HandledLine(p, q, 0);
    assert InFlight(p)[1..] == InFlight(q);
  }

  lemma PumpAdvances(p: Pipe, op: Op, side: Side)
    requires CanPump(p, op, side) && !op.StopWriter?
    ensures Advances(InFlight(p), [], InFlight(Pump(p, op, side)))
  {
    var q := Pump(p, op, side);
    if op.Skip? || op.Lookup? || op.LookupUdp? || op.CloseTcp? {
      HandledAdvances(p, q);
    } else {
      assert InFlight(q) == InFlight(p);
    }
  }

  lemma OpenAdvances(s: State, a: OpenAction, side: Side)
    requires CanOpen(s, a)
    ensures Advances(InFlight(PipeOf(s, side)), Queues(s, OpenStep(a), side), InFlight(PipeOf(ApplyOpen(s, a), side)))
  {
    if side.Up? {
      assert InFlight(ApplyOpen(s, a).up) == InFlight(s.up);
    } else if a.SendOpen? {
      TrySendAdvances(s.down, OpenTcp(a.id, a.host, a.port, a.egress));
    } else {
      OpenSendsNothing(s, a);
    }
  }

  lemma UseAdvances(s: State, a: UseAction, side: Side)
    requires CanUse(s, a)
    ensures Advances(InFlight(PipeOf(s, side)), Queues(s, UseStep(a), side), InFlight(PipeOf(ApplyUse(s, a), side)))
  {
    UsePipe(s, a);
    if side.Up? {
      assert InFlight(ApplyUse(s, a).up) == InFlight(s.up);
    } else if UseSends(a).Some? {
      TrySendAdvances(s.down, UseSends(a).value);
    }
  }

  lemma TaskAdvances(s: State, a: TaskAction, side: Side)
    requires CanTask(s, a)
    ensures Advances(InFlight(PipeOf(s, side)), Queues(s, TaskStep(a), side), InFlight(PipeOf(ApplyTask(s, a), side)))
  {
    if side.Up? && TaskSends(a).Some? {
      TrySendAdvances(s.up, TaskSends(a).value);
      assert ApplyTask(s, a).up == TrySend(s.up, TaskSends(a).value);
    } else {
      assert InFlight(PipeOf(ApplyTask(s, a), side)) == InFlight(PipeOf(s, side));
    }
  }

  lemma NotifyAdvances(s: State, on: Side, reason: Text, side: Side)
    requires CanLoop(s, Notify(on, reason))
    ensures var a := Notify(on, reason);
            Advances(InFlight(PipeOf(s, side)), Queues(s, LoopStep(a), side), InFlight(PipeOf(ApplyLoop(s, a), side)))
  {
    if on == side {
      SameAdvances(PipeOf(s, side), PipeOf(s, side).(reader := Idle));
    } else {
      TrySendAdvances(PipeOf(s, side), Close(PipeOf(s, on).reader.id, reason));
    }
  }

  lemma LoopAdvances(s: State, a: LoopAction, side: Side)
    requires CanLoop(s, a) && PipeOf(ApplyLoop(s, a), side).up
    ensures Advances(InFlight(PipeOf(s, side)), Queues(s, LoopStep(a), side), InFlight(PipeOf(ApplyLoop(s, a), side)))
  {
    match a
    case PumpOp(on, op) => if on == side { PumpAdvances(PipeOf(s, side), op, side); }
    case Notify(on, reason) => NotifyAdvances(s, on, reason, side);
    case Spawn => if side.Down? { HandledAdvances(s.down, s.down.(reader := Idle)); }
    case Resolve => if side.Up? { HandledAdvances(s.up, s.up.(reader := Idle)); }
    case ClosePending => if side.Up? { SameAdvances(s.up, s.up.(reader := Idle)); }
  }

  lemma StepAdvances(s: State, a: Action, side: Side)
    requires Enabled(s, a) && PipeOf(Apply(s, a), side).up
    ensures Advances(InFlight(PipeOf(s, side)), Queues(s, a, side), InFlight(PipeOf(Apply(s, a), side)))
  {
    match a
    case OpenStep(o) => OpenAdvances(s, o, side);
    case UseStep(u) => UseAdvances(s, u, side);
    case LifeStep(_) => SameAdvances(PipeOf(s, side), PipeOf(Apply(s, a), side));
    case LoopStep(l) => LoopAdvances(s, l, side);
    case TaskStep(t) => TaskAdvances(s, t, side);
  }

  /** A writer that has stopped stays so. */
  lemma UpBefore(s: State, a: Action, side: Side)
    requires Enabled(s, a) && PipeOf(Apply(s, a), side).up
    ensures PipeOf(s, side).up
  {
    match a
    case LoopStep(l) => if l.PumpOp? && l.side == side { PumpUp(PipeOf(s, side), l.op, side); }
    case OpenStep(o) => assert ApplyOpen(s, o).up.up == s.up.up;
    case UseStep(u) => assert ApplyUse(s, u).up.up == s.up.up;
    case LifeStep(l) =>
    case TaskStep(t) => assert ApplyTask(s, t).down.up == s.down.up;
  }

  lemma PumpUp(p: Pipe, op: Op, side: Side)
    requires CanPump(p, op, side) && Pump(p, op, side).up
    ensures p.up
  {
  }

  /** The line holds the last of all the frames. */
  ghost predicate LastOf(line: seq<Frame>, all: seq<Frame>) { |line| <= |all| && all[|all| - |line|..] == line }

  lemma SuffixAdvances(all: seq<Frame>, line: seq<Frame>, queued: seq<Frame>, after: seq<Frame>)
    requires LastOf(line, all) && Advances(line, queued, after)
    ensures LastOf(after, all + queued)
  {
    var n := |all| - |line|;
    assert (all + queued)[n..] == line + queued;
    if after != line + queued { assert (all + queued)[n + 1..] == line[1..] + queued; }
  }

  /** While the writer runs, the frames in flight are the last ones sent, in the order they were sent. */
  lemma {:induction false} FramesInOrder(run: seq<State>, acts: seq<Action>, side: Side, n: nat)
    requires Run(run, acts) && n <= |acts| && PipeOf(run[n], side).up
    ensures LastOf(InFlight(PipeOf(run[n], side)), AllSent(run, acts, side, n))
  {
    if n > 0 {
      var s, a := run[n - 1], acts[n - 1];
      assert StepAt(run, acts, n - 1);
      UpBefore(s, a, side);
      FramesInOrder(run, acts, side, n - 1);
      StepAdvances(s, a, side);
      SuffixAdvances(AllSent(run, acts, side, n - 1), InFlight(PipeOf(s, side)), Queues(s, a, side), InFlight(PipeOf(run[n], side)));
    }
  }

  // The Close of a finished stream

  /** How many of the frames sent on one side the reader has finished with. */
  ghost function ReadSoFar(run: seq<State>, acts: seq<Action>, side: Side, n: nat): int
    requires Run(run, acts) && n <= |acts|
  {
    |AllSent(run, acts, side, n)| - |InFlight(PipeOf(run[n], side))|
  }

  predicate RelayOver(s: State, id: Id) { id !in s.relays && RepliedAt(s, id) }

  lemma RelayStaysOver(s: State, a: Action, id: Id)
    requires Enabled(s, a) && RelayOver(s, id) && OpenOk(s, id)
    ensures RelayOver(Apply(s, a), id)
  {
    TaskStays(s, a, id);
  }

  lemma NoDataQueued(s: State, a: Action, id: Id)
    requires Enabled(s, a) && RelayOver(s, id)
    ensures DataOf(Queues(s, a, Up), id) == []
  {
  }

  /** Nothing was sent for `id` after the frames `before`. */
  ghost predicate QuietSince(before: seq<Frame>, all: seq<Frame>, id: Id) {
    before <= all && DataOf(all[|before|..], id) == []
  }

  lemma GrowsQuietly(before: seq<Frame>, all: seq<Frame>, queued: seq<Frame>, id: Id)
    requires QuietSince(before, all, id) && DataOf(queued, id) == []
    ensures QuietSince(before, all + queued, id)
  {
    assert (all + queued)[|before|..] == all[|before|..] + queued;
    DataOfConcat(all[|before|..], queued, id);
  }

  lemma QuietLine(before: seq<Frame>, all: seq<Frame>, line: seq<Frame>, id: Id)
    requires LastOf(line, all) && QuietSince(before, all, id) && |before| <= |all| - |line|
    ensures DataOf(line, id) == []
  {
    var gone := all[|before|..|all| - |line|];
    assert all[|before|..] == gone + line;
    DataOfConcat(gone, line, id);
  }

  /** After its relay is over, nothing is sent for a stream. */
  lemma {:induction false} QuietAfter(run: seq<State>, acts: seq<Action>, k: nat, n: nat, id: Id)
    requires Run(run, acts) && k <= n <= |acts| && RelayOver(run[k], id)
    ensures RelayOver(run[n], id)
    ensures QuietSince(AllSent(run, acts, Up, k), AllSent(run, acts, Up, n), id)
    decreases n
  {
    if k < n {
      var s, a := run[n - 1], acts[n - 1];
      QuietAfter(run, acts, k, n - 1, id);
      assert StepAt(run, acts, n - 1);
      RunInv(run, acts, n - 1);
      assert OpenOk(s, id);
      RelayStaysOver(s, a, id);
      NoDataQueued(s, a, id);
      GrowsQuietly(AllSent(run, acts, Up, k), AllSent(run, acts, Up, n - 1), Queues(s, a, Up), id);
    }
  }

  lemma LineIsQuiet(run: seq<State>, acts: seq<Action>, k: nat, n: nat, id: Id)
    requires Run(run, acts) && k <= n <= |acts| && RelayOver(run[k], id) && run[n].up.up
    requires ReadSoFar(run, acts, Up, n) >= |AllSent(run, acts, Up, k)|
    ensures DataOf(InFlight(run[n].up), id) == []
  {
    QuietAfter(run, acts, k, n, id);
    FramesInOrder(run, acts, Up, n);
    QuietLine(AllSent(run, acts, Up, k), AllSent(run, acts, Up, n), InFlight(run[n].up), id);
  }

  lemma ClosingIsOver(s: State, id: Id, reason: Text)
    requires CanTask(s, TaskClose(id, reason)) && id !in s.relays
    ensures RelayOver(s, id)
  {
  }

  /**
   When the reader gets to the Close that a remote task sent after its relay was over, every chunk
   enqueued for the stream has arrived, if the route still lives and the remote's writer still runs.
   */
  lemma CloseComesLast(run: seq<State>, acts: seq<Action>, k: nat, n: nat, id: Id, reason: Text)
    requires Run(run, acts) && k < n <= |acts|
    requires acts[k] == TaskStep(TaskClose(id, reason)) && id !in run[k].relays
    requires run[n].up.up && Live(run[n].up, id)
    requires ReadSoFar(run, acts, Up, n) >= |AllSent(run, acts, Up, k)|
    ensures Arrived(run[n].up, id) == Enqueued(run, acts, Up, id, n)
  {
    assert StepAt(run, acts, k);
    ClosingIsOver(run[k], id, reason);
    LineIsQuiet(run, acts, k, n, id);
    NothingLost(run, acts, Up, id, n);
    assert Arrived(run[n].up, id) + [] == Arrived(run[n].up, id);
  }
}
