/**
 The inductive invariant of the multiplexer, id by id and frame by frame.
 */
module MuxInvariant {
  import opened Bytes
  import opened Frames
  import opened Pipes
  import opened Mux

  // The id counter

  /** Within one turn of the counter every id is issued at exactly one place. */
  lemma IdRank(n: nat, id: Id)
    requires n < U32
    ensures RankOf(IdAt(n)) == n
    ensures RankOf(id) == n ==> id == IdAt(n)
  {
  }

  // Frames in flight

  function CountOpens(fs: seq<Frame>, id: Id): nat {
    if fs == [] then 0
    else (if fs[0].OpenTcp? && fs[0].id == id then 1 else 0) + CountOpens(fs[1..], id)
  }

  lemma {:induction false} CountConcat(a: seq<Frame>, b: seq<Frame>, id: Id)
    ensures CountOpens(a + b, id) == CountOpens(a, id) + CountOpens(b, id)
  {
    if a == [] {
      assert a + b == b;
    } else {
      assert (a + b)[0] == a[0] && (a + b)[1..] == a[1..] + b;
      CountConcat(a[1..], b, id);
    }
  }

  lemma PushLine(p: Pipe, f: Frame, id: Id)
    requires CanPush(p)
    ensures InFlight(Push(p, f)) == InFlight(p) + [f]
    ensures CountOpens(InFlight(Push(p, f)), id)
         == CountOpens(InFlight(p), id) + if f.OpenTcp? && f.id == id then 1 else 0
  {
    assert InFlight(Push(p, f)) == InFlight(p) + [f];
    CountConcat(InFlight(p), [f], id);
    assert CountOpens([f], id) == if f.OpenTcp? && f.id == id then 1 else 0;
  }

  /** What an operation may do to a pipe without sending: frames only leave, routes only go. */
  ghost predicate Shrinks(p: Pipe, q: Pipe, id: Id) {
    && (forall f :: f in InFlight(q) ==> f in InFlight(p))
    && CountOpens(InFlight(q), id) <= CountOpens(InFlight(p), id)
    && q.sent == p.sent && q.chans.Keys == p.chans.Keys && q.routes <= p.routes
  }

  lemma SuffixLine(p: Pipe, q: Pipe, gone: seq<Frame>, id: Id)
    requires InFlight(p) == gone + InFlight(q) || InFlight(p) == InFlight(q) + gone
    ensures CountOpens(InFlight(q), id) <= CountOpens(InFlight(p), id)
    ensures InFlight(p) == gone + InFlight(q)
         ==> CountOpens(InFlight(p), id) == CountOpens(gone, id) + CountOpens(InFlight(q), id)
    ensures forall f :: f in InFlight(q) ==> f in InFlight(p)
  {
    CountConcat(gone, InFlight(q), id);
    CountConcat(InFlight(q), gone, id);
  }

  lemma HandledLine(p: Pipe, q: Pipe, id: Id)
    requires p.reader.Handling? && !q.reader.Handling? && q.wire == p.wire && q.queue == p.queue
    ensures InFlight(p) == [p.reader.frame] + InFlight(q)
    ensures CountOpens(InFlight(p), id)
         == (if p.reader.frame.OpenTcp? && p.reader.frame.id == id then 1 else 0) + CountOpens(InFlight(q), id)
    ensures forall f :: f in InFlight(q) ==> f in InFlight(p)
  {
    assert InFlight(p) == [p.reader.frame] + InFlight(q);
    SuffixLine(p, q, [p.reader.frame], id);
  }

  lemma StopShrinks(p: Pipe, id: Id)
    ensures Shrinks(p, Stop(p), id)
  {
    assert InFlight(p) == InFlight(Stop(p)) + p.queue;
    SuffixLine(p, Stop(p), p.queue, id);
  }

  lemma FlushLine(p: Pipe, side: Side)
    requires CanPump(p, Flush, side)
    ensures InFlight(Pump(p, Flush, side)) == InFlight(p)
  {
    assert p.queue == [p.queue[0]] + p.queue[1..];
  }

  lemma ReadLine(p: Pipe, side: Side)
    requires CanPump(p, Read, side)
    ensures InFlight(Pump(p, Read, side)) == InFlight(p)
  {
    assert p.wire == [p.wire[0]] + p.wire[1..];
  }

  /** The steps that neither stop the writer nor handle a frame leave the frames in flight. */
  lemma LineStays(p: Pipe, op: Op, side: Side)
    requires CanPump(p, op, side) && !op.StopWriter? && !op.Skip? && !op.Lookup? && !op.LookupUdp? && !op.CloseTcp?
    ensures InFlight(Pump(p, op, side)) == InFlight(p)
  {
    if op.Flush? {
      FlushLine(p, side);
    } else if op.Read? {
      ReadLine(p, side);
    }
  }

  lemma PumpMaps(p: Pipe, op: Op, side: Side)
    requires CanPump(p, op, side)
    ensures var q := Pump(p, op, side); q.sent == p.sent && q.chans.Keys == p.chans.Keys && q.routes <= p.routes
  {
  }

  lemma HandledLeaves(p: Pipe, op: Op, side: Side)
    requires CanPump(p, op, side) && (op.Skip? || op.Lookup? || op.LookupUdp? || op.CloseTcp?)
    ensures var q := Pump(p, op, side);
            p.reader.Handling? && !q.reader.Handling? && q.wire == p.wire && q.queue == p.queue
  {
  }

  lemma PumpShrinks(p: Pipe, op: Op, side: Side, id: Id)
    requires CanPump(p, op, side)
    ensures Shrinks(p, Pump(p, op, side), id)
  {
    PumpMaps(p, op, side);
    if op.StopWriter? {
      StopShrinks(p, id);
    } else if op.Skip? || op.Lookup? || op.LookupUdp? || op.CloseTcp? {
      HandledLeaves(p, op, side);
      HandledLine(p, Pump(p, op, side), id);
    } else {
      LineStays(p, op, side);
    }
  }

  // The invariant, id by id

  predicate PendingPhase(p: Phase) {
    p.InPending? || p.InStreams? || p.Waiting? || p.AbandonPending?
  }

  predicate RoutePhase(p: Phase) {
    !Udp(p) && !p.Start? && !p.InPending? && !p.RefusedPending? && !p.Failed?
  }

  /** `OpenTcp` may have been sent. */
  predicate SentPhase(p: Phase) {
    !Udp(p) && !p.Start? && !p.InPending? && !p.InStreams?
  }

  predicate AcceptedAt(s: State, id: Id) { id in s.c.slots && s.c.slots[id].Accepted? }

  predicate RepliedAt(s: State, id: Id) { id in s.tasks && Replied(s.tasks[id]) }

  ghost predicate CallOk(s: State, id: Id) {
    && (id in s.c.calls <==> RankOf(id) < s.c.allocs)
    && (id in s.c.pending ==> id in s.c.calls && PendingPhase(s.c.calls[id]) && id !in s.c.slots)
    && s.c.sends[id] == (if id in s.c.slots then 1 else 0)
    && (id in s.c.slots ==> id in s.c.calls && !Udp(s.c.calls[id]) && !s.c.calls[id].Start?)
    && (At(s, id, InPending) || At(s, id, InStreams) || At(s, id, Waiting) ==> id in s.c.pending || id in s.c.slots)
    && (At(s, id, Opened) ==> AcceptedAt(s, id))
    && (At(s, id, RefusedStream) || At(s, id, RefusedPending) ==> id in s.c.slots)
    && (id in s.c.closing ==> At(s, id, Opened))
  }

  ghost predicate MapsOk(s: State, id: Id) {
    && (id in s.up.routes ==> id in s.c.calls && RoutePhase(s.c.calls[id]))
    && (id in s.up.chans ==> id in s.c.calls && !Udp(s.c.calls[id]) && !s.c.calls[id].Start? && !s.c.calls[id].InPending?)
    && (id in s.up.udp ==> At(s, id, UdpReady))
    && (id in s.down.udp ==> At(s, id, UdpReady))
    && (id in s.down.chans <==> id in s.tasks && Entered(s.tasks[id]))
    && (id in s.relays ==> RepliedAt(s, id))
  }

  ghost predicate OpenOk(s: State, id: Id) {
    && CountOpens(InFlight(s.down), id) + (if id in s.tasks then 1 else 0) <= 1
    && (CountOpens(InFlight(s.down), id) > 0 || id in s.tasks ==> id in s.c.calls && SentPhase(s.c.calls[id]))
    && (AcceptedAt(s, id) ==> RepliedAt(s, id))
    && (Sent(s.down, id) != [] ==> At(s, id, Opened))
    && (Sent(s.up, id) != [] ==> RepliedAt(s, id))
  }

  ghost predicate FrameOk(s: State, side: Side, f: Frame) {
    if side.Up? then f.OpenTcpResult? && f.ok ==> RepliedAt(s, f.id)
    else f.UdpPacket? ==> At(s, f.id, UdpReady)
  }

  ghost predicate CleanupOk(s: State) {
    && (!s.c.cleanup.Running? ==> s.up.reader.Ended?)
    && (s.c.cleanup.TcpCleared? || s.c.cleanup.UdpCleared? || s.c.cleanup.Done?
        ==> forall id :: id in s.up.routes ==> !AcceptedAt(s, id))
    && (s.c.cleanup.Done? ==> !s.down.up)
  }

  ghost predicate Inv(s: State) {
    && s.c.allocs <= U32
    && PipeInv(s.down) && PipeInv(s.up)
    && (forall id: Id :: CallOk(s, id))
    && (forall id: Id :: MapsOk(s, id))
    && (forall id: Id :: OpenOk(s, id))
    && (forall f :: f in InFlight(s.down) ==> FrameOk(s, Down, f))
    && (forall f :: f in InFlight(s.up) ==> FrameOk(s, Up, f))
    && CleanupOk(s)
  }
}
