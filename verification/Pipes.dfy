/**
 One direction of the SPX multiplexer: the frame queue and writer task of the
 sending end, the byte stream between the ends (as a FIFO of frames), and the
 reader loop and stream maps of the receiving end.  Both `reader_loop`
 (`bridge.rs`) and the frame loop of `run_transport_with_egress_proxy`
 (`remote.rs`) are readers of this kind.  Every lock section and every await
 point is one operation.
 */
module Pipes {
  import opened Bytes
  import opened Frames

  datatype Side = Down | Up  // Down: controller to remote; Up: remote to controller

  /** A per-stream channel: all chunks ever pushed, how many its receiver took, and whether the receiver lives. */
  datatype Channel = Channel(pushed: seq<Blob>, taken: nat, open: bool) {
    predicate Full() { |pushed| >= taken + TCP_STREAM_CHANNEL_CAPACITY }
  }

  datatype Reader =
    | Idle
    | Handling(frame: Frame)
    | Delivering(id: Id, data: Blob)
    | Dropping(id: Id)
    | TimingOut(id: Id)
    | DeliveringUdp(id: Id)
    | DroppingUdp(id: Id)
    | TimingOutUdp(id: Id)
    | Notifying(id: Id)
    | ClosingUdp(id: Id, reason: Text)
    | ClosingPending(id: Id, reason: Text)
    | Ended

  datatype Pipe = Pipe(
    queue: seq<Frame>, up: bool,                // mpsc queue of the writer task; its receiver lives
    wire: seq<Frame>,                           // written and not yet read
    reader: Reader,
    routes: set<Id>, udp: set<Id>,              // the keys of tcp_streams and udp_streams
    chans: map<Id, Channel>,                    // the channel created for each id
    sent: map<Id, seq<Blob>>)                   // every Data chunk enqueued so far, by id

  const EMPTY_PIPE := Pipe([], true, [], Idle, {}, {}, map[], map[])

  function Sent(p: Pipe, id: Id): seq<Blob> { if id in p.sent then p.sent[id] else [] }

  function Pushed(p: Pipe, id: Id): seq<Blob> { if id in p.chans then p.chans[id].pushed else [] }

  /** The chunks the receiver of stream `id` has been handed. */
  function Taken(p: Pipe, id: Id): seq<Blob> {
    if id in p.chans && p.chans[id].taken <= |p.chans[id].pushed|
    then p.chans[id].pushed[..p.chans[id].taken] else []
  }

  /** The frame the reader holds between its read and its first lock section. */
  function Held(p: Pipe): seq<Frame> { if p.reader.Handling? then [p.reader.frame] else [] }

  /** The frames still travelling, oldest first. */
  function InFlight(p: Pipe): seq<Frame> { Held(p) + p.wire + p.queue }

  // The sending end

  predicate CanPush(p: Pipe) { p.up && |p.queue| < FRAME_CHANNEL_CAPACITY }

  function Push(p: Pipe, f: Frame): Pipe
    requires CanPush(p)
  {
    p.(queue := p.queue + [f],
       sent := if f.Data? then p.sent[f.id := Sent(p, f.id) + [f.data]] else p.sent)
  }

  /** `let _ = tx.send(..)`: blocks while the queue is full, is lost when the writer has gone. */
  predicate CanTrySend(p: Pipe) { !p.up || CanPush(p) }

  function TrySend(p: Pipe, f: Frame): Pipe
    requires CanTrySend(p)
  {
    if p.up then Push(p, f) else p
  }

  function Stop(p: Pipe): Pipe { p.(up := false, queue := []) }

  // The receiving end

  function Register(p: Pipe, id: Id): Pipe {
    p.(routes := p.routes + {id}, chans := p.chans[id := Channel([], 0, true)])
  }

  function Unroute(p: Pipe, id: Id): Pipe { p.(routes := p.routes - {id}) }

  datatype Op =
    | Flush | StopWriter                                          // writer task
    | Read | EndRead | Skip                                       // reader loop
    | Lookup | DeliverOk | DeliverClosed | DeliverTimesOut | Drop | Discard
    | LookupUdp | UdpOk | UdpClosed | UdpTimesOut | DropUdp | DiscardUdp
    | CloseTcp | CloseUdp
    | Take(id: Id) | DropReceiver(id: Id)                         // the stream's receiver

  predicate CanPump(p: Pipe, op: Op, side: Side) {
    match op
    case Flush => p.up && p.queue != []
    case StopWriter => p.up
    case Read => p.reader.Idle? && p.wire != []
    case EndRead => p.reader.Idle?
    case Skip => p.reader.Handling? &&
                 (p.reader.frame.Log? || (if side.Up? then p.reader.frame.OpenTcp? else p.reader.frame.OpenTcpResult?))
    case Lookup => p.reader.Handling? && p.reader.frame.Data?
    case DeliverOk => p.reader.Delivering? && p.reader.id in p.chans &&
                      p.chans[p.reader.id].open && !p.chans[p.reader.id].Full()
    case DeliverClosed => p.reader.Delivering? && p.reader.id in p.chans && !p.chans[p.reader.id].open
    case DeliverTimesOut => p.reader.Delivering? && p.reader.id in p.chans &&
                            p.chans[p.reader.id].open && p.chans[p.reader.id].Full()
    case Drop => p.reader.Dropping?
    case Discard => p.reader.TimingOut?
    case LookupUdp => p.reader.Handling? && p.reader.frame.UdpPacket?
    case UdpOk => p.reader.DeliveringUdp?
    case UdpClosed => p.reader.DeliveringUdp?
    case UdpTimesOut => p.reader.DeliveringUdp?
    case DropUdp => p.reader.DroppingUdp?
    case DiscardUdp => p.reader.TimingOutUdp?
    case CloseTcp => p.reader.Handling? && p.reader.frame.Close?
    case CloseUdp => p.reader.ClosingUdp?
    case Take(id) => id in p.chans && p.chans[id].open && p.chans[id].taken < |p.chans[id].pushed|
    case DropReceiver(id) => id in p.chans && p.chans[id].open
  }

  function Pump(p: Pipe, op: Op, side: Side): Pipe
    requires CanPump(p, op, side)
  {
    match op
    case Flush => p.(wire := p.wire + [p.queue[0]], queue := p.queue[1..])
    case StopWriter => Stop(p)
    case Read => p.(reader := Handling(p.wire[0]), wire := p.wire[1..])
    case EndRead => p.(reader := Ended)
    case Skip => p.(reader := Idle)
    case Lookup =>
      var f := p.reader.frame;
      p.(reader := if f.id in p.routes then Delivering(f.id, f.data) else Idle)
    case DeliverOk =>
      var id := p.reader.id;
      p.(reader := Idle, chans := p.chans[id := p.chans[id].(pushed := p.chans[id].pushed + [p.reader.data])])
    case DeliverClosed => p.(reader := Dropping(p.reader.id))
    case DeliverTimesOut => p.(reader := TimingOut(p.reader.id))
    case Drop => Unroute(p, p.reader.id).(reader := Idle)
    case Discard => Unroute(p, p.reader.id).(reader := Notifying(p.reader.id))
    case LookupUdp =>
      var id := p.reader.frame.id;
      // the remote opens an association for an unknown id, the controller ignores it
      if side.Down? then p.(udp := p.udp + {id}, reader := DeliveringUdp(id))
      else p.(reader := if id in p.udp then DeliveringUdp(id) else Idle)
    case UdpOk => p.(reader := Idle)
    case UdpClosed => p.(reader := DroppingUdp(p.reader.id))
    case UdpTimesOut => p.(reader := TimingOutUdp(p.reader.id))
    case DropUdp => p.(udp := p.udp - {p.reader.id}, reader := Idle)
    case DiscardUdp => p.(udp := p.udp - {p.reader.id}, reader := Notifying(p.reader.id))
    case CloseTcp => Unroute(p, p.reader.frame.id).(reader := ClosingUdp(p.reader.frame.id, p.reader.frame.reason))
    case CloseUdp =>
      p.(udp := p.udp - {p.reader.id},
         reader := if side.Up? then ClosingPending(p.reader.id, p.reader.reason) else Idle)
    case Take(id) => p.(chans := p.chans[id := p.chans[id].(taken := p.chans[id].taken + 1)])
    case DropReceiver(id) => p.(chans := p.chans[id := p.chans[id].(open := false)])
  }

  // What a pipe keeps

  /** The chunks that the frames `fs` carry for stream `id`, in order. */
  function DataOf(fs: seq<Frame>, id: Id): seq<Blob> {
    if fs == [] then []
    else (if fs[0].Data? && fs[0].id == id then [fs[0].data] else []) + DataOf(fs[1..], id)
  }

  lemma {:induction false} DataOfConcat(a: seq<Frame>, b: seq<Frame>, id: Id)
    ensures DataOf(a + b, id) == DataOf(a, id) + DataOf(b, id)
  {
    if a == [] {
      assert a + b == b;
    } else {
      assert (a + b)[0] == a[0] && (a + b)[1..] == a[1..] + b;
      DataOfConcat(a[1..], b, id);
    }
  }

  lemma {:induction false} DataOfMember(fs: seq<Frame>, f: Frame)
    requires f in fs && f.Data?
    ensures f.data in DataOf(fs, f.id)
  {
    if fs[0] != f { DataOfMember(fs[1..], f); }
  }

  /** The chunk the reader has looked up a sender for and not yet pushed. */
  function InHand(p: Pipe, id: Id): seq<Blob> {
    if p.reader.Delivering? && p.reader.id == id then [p.reader.data] else []
  }

  /** The chunks of `id` that have reached its channel or are on their way into it. */
  function Arrived(p: Pipe, id: Id): seq<Blob> { Pushed(p, id) + InHand(p, id) }

  /** The route exists and the reader is not on its way to remove it. */
  predicate Live(p: Pipe, id: Id) {
    id in p.routes && p.reader != Dropping(id) && p.reader != TimingOut(id)
  }

  /** Nothing is lost on a live route: what has arrived and what is in flight is exactly what was sent. */
  ghost predicate Flow(p: Pipe, id: Id) {
    && Arrived(p, id) <= Sent(p, id)
    && (Live(p, id) ==> Arrived(p, id) + DataOf(InFlight(p), id) <= Sent(p, id))
    && (Live(p, id) && p.up ==> Arrived(p, id) + DataOf(InFlight(p), id) == Sent(p, id))
    && (Sent(p, id) == [] ==> DataOf(InFlight(p), id) == [])
  }

  ghost predicate Sound(p: Pipe, id: Id) {
    && (id in p.routes || InHand(p, id) != [] || p.reader == Dropping(id) || p.reader == TimingOut(id) ==> id in p.chans)
    && (id in p.chans ==> p.chans[id].taken <= |p.chans[id].pushed|)
  }

  ghost predicate PipeInv(p: Pipe) {
    && (!p.up ==> p.queue == [])
    && (forall id: Id :: Flow(p, id))
    && (forall id: Id :: Sound(p, id))
  }

  lemma PushMoves(p: Pipe, f: Frame, id: Id)
    requires CanPush(p)
    ensures DataOf(InFlight(Push(p, f)), id) == DataOf(InFlight(p), id) + DataOf([f], id)
    ensures Sent(Push(p, f), id) == Sent(p, id) + DataOf([f], id)
  {
    assert InFlight(Push(p, f)) == InFlight(p) + [f];
    DataOfConcat(InFlight(p), [f], id);
  }

  /** Appending the same chunks to what is in flight and to what was sent keeps their relation. */
  lemma AppendKeeps(a: seq<Blob>, l: seq<Blob>, m: seq<Blob>, sent: seq<Blob>)
    ensures a <= sent ==> a <= sent + m
    ensures a + l <= sent && m == [] ==> a + (l + m) <= sent + m
    ensures a + l == sent ==> a + (l + m) == sent + m
  {
    assert a + (l + m) == (a + l) + m;
    assert m == [] ==> l + m == l && sent + m == sent;
  }

  lemma PushFlow(p: Pipe, f: Frame, id: Id)
    requires Flow(p, id) && CanPush(p)
    ensures Flow(Push(p, f), id)
  {
    PushMoves(p, f, id);
    AppendKeeps(Arrived(p, id), DataOf(InFlight(p), id), DataOf([f], id), Sent(p, id));
    assert Arrived(Push(p, f), id) == Arrived(p, id) && Live(Push(p, f), id) == Live(p, id);
  }

  lemma PushKeeps(p: Pipe, f: Frame)
    requires PipeInv(p) && CanPush(p)
    ensures PipeInv(Push(p, f))
  {
    forall id: Id ensures Flow(Push(p, f), id) && Sound(Push(p, f), id) {
      assert Flow(p, id) && Sound(p, id);
      PushFlow(p, f, id);
    }
  }

  lemma StopMoves(p: Pipe, id: Id)
    ensures DataOf(InFlight(p), id) == DataOf(InFlight(Stop(p)), id) + DataOf(p.queue, id)
  {
    assert InFlight(p) == InFlight(Stop(p)) + p.queue;
    DataOfConcat(InFlight(Stop(p)), p.queue, id);
  }

  lemma CutKeeps(a: seq<Blob>, l: seq<Blob>, m: seq<Blob>, sent: seq<Blob>)
    ensures a + (l + m) <= sent ==> a + l <= sent
  {
    assert a + (l + m) == (a + l) + m;
  }

  lemma StopFlow(p: Pipe, id: Id)
    requires Flow(p, id)
    ensures Flow(Stop(p), id)
  {
    StopMoves(p, id);
    CutKeeps(Arrived(p, id), DataOf(InFlight(Stop(p)), id), DataOf(p.queue, id), Sent(p, id));
    assert Arrived(Stop(p), id) == Arrived(p, id) && Live(Stop(p), id) == Live(p, id);
  }

  lemma StopKeeps(p: Pipe)
    requires PipeInv(p)
    ensures PipeInv(Stop(p))
  {
    forall id: Id ensures Flow(Stop(p), id) && Sound(Stop(p), id) {
      assert Flow(p, id) && Sound(p, id);
      StopFlow(p, id);
    }
  }

  lemma RegisterKeeps(p: Pipe, id: Id)
    requires PipeInv(p) && id !in p.chans && Sent(p, id) == []
    ensures PipeInv(Register(p, id))
  {
    forall i: Id ensures Flow(Register(p, id), i) && Sound(Register(p, id), i) {
      assert Flow(p, i) && Sound(p, i);
    }
  }

  lemma UnrouteKeeps(p: Pipe, routes: set<Id>, udp: set<Id>)
    requires PipeInv(p) && routes <= p.routes
    ensures PipeInv(p.(routes := routes, udp := udp))
  {
    var q := p.(routes := routes, udp := udp);
    forall id: Id ensures Flow(q, id) && Sound(q, id) {
      assert Flow(p, id) && Sound(p, id);
    }
  }

  /** What is in flight is taken out of it as `m` and, on a live route, arrives; nothing else moves. */
  ghost predicate Moves(p: Pipe, q: Pipe, m: seq<Blob>, id: Id) {
    && DataOf(InFlight(p), id) == m + DataOf(InFlight(q), id)
    && (Arrived(q, id) == Arrived(p, id) || Arrived(q, id) == Arrived(p, id) + m)
    && (Live(q, id) || Arrived(q, id) != Arrived(p, id) ==> Live(p, id) && Arrived(q, id) == Arrived(p, id) + m)
    && Sent(q, id) == Sent(p, id) && q.up == p.up
  }

  lemma MovesKeeps(p: Pipe, q: Pipe, m: seq<Blob>, id: Id)
    requires Flow(p, id) && Moves(p, q, m, id)
    ensures Flow(q, id)
  {
    var a, l := Arrived(p, id), DataOf(InFlight(q), id);
    assert a + (m + l) == (a + m) + l;
  }

  /** Looking up a sender takes the frame out of flight: into the reader's hand, or lost with its route. */
  lemma LookupMoves(p: Pipe, id: Id)
    requires p.reader.Handling? && p.reader.frame.Data?
    ensures Moves(p, Pump(p, Lookup, Down), DataOf([p.reader.frame], id), id)
  {
    var q := Pump(p, Lookup, Down);
    assert InFlight(p) == [p.reader.frame] + InFlight(q);
    DataOfConcat([p.reader.frame], InFlight(q), id);
  }

  /** The other steps that consume the frame in hand carry no data. */
  lemma ConsumeMoves(p: Pipe, q: Pipe, id: Id)
    requires p.reader.Handling? && !p.reader.frame.Data?
    requires q == p.(reader := q.reader, routes := q.routes, udp := q.udp) && q.routes <= p.routes
    requires !q.reader.Handling? && !q.reader.Delivering?
    ensures Moves(p, q, [], id)
  {
    assert InFlight(p) == [p.reader.frame] + InFlight(q);
    DataOfConcat([p.reader.frame], InFlight(q), id);
  }

  /** The steps between lock sections leave the frames in flight alone; giving up a chunk ends its live route. */
  lemma QuietMoves(p: Pipe, q: Pipe, id: Id)
    requires !p.reader.Handling? && !q.reader.Handling? && !q.reader.Delivering?
    requires q == p.(reader := q.reader, routes := q.routes, udp := q.udp) && q.routes <= p.routes
    requires p.reader.Delivering? ==> q.reader == Dropping(p.reader.id) || q.reader == TimingOut(p.reader.id)
    requires p.reader.Dropping? || p.reader.TimingOut? ==> p.reader.id !in q.routes
    ensures Flow(p, id) ==> Flow(q, id)
  {
    assert InFlight(q) == InFlight(p);
  }

  /** Writing a frame and reading it leave the line of frames in flight as it is. */
  lemma SameLine(p: Pipe, q: Pipe, id: Id)
    requires InFlight(q) == InFlight(p) && q.chans == p.chans && q.sent == p.sent && q.up == p.up
    requires q.routes == p.routes && (p.reader == q.reader || (p.reader.Idle? && q.reader.Handling?))
    ensures Flow(p, id) ==> Flow(q, id)
  {
  }

  lemma FlushLine(p: Pipe)
    requires p.up && p.queue != []
    ensures InFlight(Pump(p, Flush, Down)) == InFlight(p)
  {
    assert p.queue == [p.queue[0]] + p.queue[1..];
  }

  lemma WriterFlow(p: Pipe, id: Id)
    requires Flow(p, id) && p.up && p.queue != []
    ensures Flow(Pump(p, Flush, Down), id)
  {
    FlushLine(p);
    SameLine(p, Pump(p, Flush, Down), id);
  }

  lemma ReadFlow(p: Pipe, id: Id)
    requires Flow(p, id) && p.reader.Idle? && p.wire != []
    ensures Flow(Pump(p, Read, Down), id)
  {
    var q := Pump(p, Read, Down);
    assert InFlight(q) == InFlight(p);
    SameLine(p, q, id);
  }

  lemma ChannelMoves(p: Pipe, op: Op, id: Id)
    requires CanPump(p, op, Down) && (op.DeliverOk? || op.Take? || op.DropReceiver?)
    ensures Moves(p, Pump(p, op, Down), [], id)
  {
    assert InFlight(Pump(p, op, Down)) == InFlight(p);
  }

  predicate Consuming(op: Op) { op.Skip? || op.LookupUdp? || op.CloseTcp? }

  predicate OnChannel(op: Op) { op.DeliverOk? || op.Take? || op.DropReceiver? }

  predicate OnLine(op: Op) { op.Flush? || op.StopWriter? || op.Read? || op.Lookup? }

  lemma ConsumeFlow(p: Pipe, op: Op, side: Side, id: Id)
    requires Flow(p, id) && CanPump(p, op, side) && Consuming(op)
    ensures Flow(Pump(p, op, side), id)
  {
    ConsumeMoves(p, Pump(p, op, side), id);
    MovesKeeps(p, Pump(p, op, side), [], id);
  }

  lemma ChannelFlow(p: Pipe, op: Op, side: Side, id: Id)
    requires Flow(p, id) && CanPump(p, op, side) && OnChannel(op)
    ensures Flow(Pump(p, op, side), id)
  {
    ChannelMoves(p, op, id);
    MovesKeeps(p, Pump(p, op, side), [], id);
  }

  lemma LookupFlow(p: Pipe, side: Side, id: Id)
    requires Flow(p, id) && CanPump(p, Lookup, side)
    ensures Flow(Pump(p, Lookup, side), id)
  {
    LookupMoves(p, id);
    MovesKeeps(p, Pump(p, Lookup, side), DataOf([p.reader.frame], id), id);
  }

  lemma LineFlow(p: Pipe, op: Op, side: Side, id: Id)
    requires Flow(p, id) && CanPump(p, op, side) && OnLine(op)
    ensures Flow(Pump(p, op, side), id)
  {
    match op
    case Flush => WriterFlow(p, id);
    case StopWriter => StopFlow(p, id);
    case Read => ReadFlow(p, id);
    case Lookup => LookupFlow(p, side, id);
  }

  lemma QuietFlow(p: Pipe, op: Op, side: Side, id: Id)
    requires Flow(p, id) && CanPump(p, op, side) && !Consuming(op) && !OnChannel(op) && !OnLine(op)
    ensures Flow(Pump(p, op, side), id)
  {
    QuietMoves(p, Pump(p, op, side), id);
  }

  lemma PumpFlow(p: Pipe, op: Op, side: Side, id: Id)
    requires Flow(p, id) && CanPump(p, op, side)
    ensures Flow(Pump(p, op, side), id)
  {
    if Consuming(op) { ConsumeFlow(p, op, side, id); }
    else if OnChannel(op) { ChannelFlow(p, op, side, id); }
    else if OnLine(op) { LineFlow(p, op, side, id); }
    else { QuietFlow(p, op, side, id); }
  }

  lemma ChannelSound(p: Pipe, op: Op, side: Side, id: Id)
    requires Sound(p, id) && CanPump(p, op, side) && OnChannel(op)
    ensures Sound(Pump(p, op, side), id)
  {
  }

  lemma ReaderSound(p: Pipe, op: Op, side: Side, id: Id)
    requires Sound(p, id) && CanPump(p, op, side) && !OnChannel(op)
    ensures Sound(Pump(p, op, side), id)
  {
  }

  lemma PumpSound(p: Pipe, op: Op, side: Side, id: Id)
    requires Sound(p, id) && CanPump(p, op, side)
    ensures Sound(Pump(p, op, side), id)
  {
    if OnChannel(op) { ChannelSound(p, op, side, id); } else { ReaderSound(p, op, side, id); }
  }

  lemma PumpKeeps(p: Pipe, op: Op, side: Side)
    requires PipeInv(p) && CanPump(p, op, side)
    ensures PipeInv(Pump(p, op, side))
  {
    forall id: Id ensures Flow(Pump(p, op, side), id) && Sound(Pump(p, op, side), id) {
      assert Flow(p, id) && Sound(p, id);
      PumpFlow(p, op, side, id);
      PumpSound(p, op, side, id);
    }
  }

  /** Finishing a frame that carries no data. */
  lemma IdleKeeps(p: Pipe)
    requires PipeInv(p)
    requires (p.reader.Handling? && !p.reader.frame.Data?) || p.reader.Notifying? || p.reader.ClosingPending?
    ensures PipeInv(p.(reader := Idle))
  {
    var q := p.(reader := Idle);
    forall id: Id ensures Flow(q, id) && Sound(q, id) {
      assert Flow(p, id) && Sound(p, id);
      if p.reader.Handling? {
        ConsumeMoves(p, q, id);
        MovesKeeps(p, q, [], id);
      } else {
        QuietMoves(p, q, id);
      }
    }
  }
}
