/**
 The SPX frame writer and reader as they work on byte streams: partial vectored
 writes, the batching writer, and a reader that reuses its buffers and takes a
 shorter path for data frames (`crates/ssh-proxy-protocol/src/protocol.rs`).
 */
module FrameIO {
  import opened Bytes
  import opened Frames
  import opened Sequences
  import opened Streams
  import opened FrameCodec

  /** The writing half of a transport: each write takes any part of what it is offered, or fails. */
  class Sink {
    var out: Blob
    var failed: bool          // a write failed or took nothing, or a flush failed

    constructor ()
      ensures out == [] && !failed
    {
      out, failed := [], false;
    }

    /** `write_vectored` of two slices. */
    method WriteVectored(a: Blob, b: Blob) returns (r: Result<nat>)
      modifies this
      ensures r.Ok? ==> r.value <= |a| + |b| && out == old(out) + (a + b)[..r.value]
      ensures r.Err? ==> out == old(out)
      ensures failed == (old(failed) || r.Err? || r.value == 0)
    {
      if * {
        failed := true;
        return Err;
      }
      var n: nat :| n <= |a| + |b|;
      out, failed := out + (a + b)[..n], failed || n == 0;
      return Ok(n);
    }

    /** `flush`: it may fail after every byte has been taken. */
    method Flush() returns (ok: bool)
      modifies this`failed
      ensures failed == (old(failed) || !ok)
    {
      ok :| true;
      failed := failed || !ok;
    }
  }

  /** The reading half: each read returns any non-empty part of what is left, up to the limit. */
  class Source {
    var rest: Blob

    constructor (bytes: Blob)
      ensures rest == bytes
    {
      rest := bytes;
    }

    /** `read_buf` with room for `limit` bytes; empty only at the end of the stream. */
    method ReadSome(limit: nat) returns (chunk: Blob)
      requires limit > 0
      modifies this
      ensures |chunk| <= limit && old(rest) == chunk + rest
      ensures chunk == [] <==> old(rest) == []
    {
      if rest == [] { return []; }
      var n: nat :| 0 < n <= limit && n <= |rest|;
      chunk := rest[..n];
      rest := rest[n..];
    }

    /** `read_exact` into a buffer. */
    method ReadExact(buf: array<byte>) returns (ok: bool)
      modifies this, buf
      ensures ok <==> buf.Length <= |old(rest)|
      ensures ok ==> buf[..] == old(rest)[..buf.Length] && rest == old(rest)[buf.Length..]
      ensures !ok ==> rest == []
    {
      var filled := 0;
      while filled < buf.Length
        invariant 0 <= filled <= buf.Length && filled <= |old(rest)|
        invariant buf[..filled] == old(rest)[..filled] && rest == old(rest)[filled..]
      {
        var chunk := ReadSome(buf.Length - filled);
        if chunk == [] { return false; }
        ghost var before := buf[..filled];
        forall i | 0 <= i < |chunk| { buf[filled + i] := chunk[i]; }
        filled := filled + |chunk|;
        assert buf[..filled] == before + chunk;
      }
      return true;
    }
  }

  // Writing

  lemma Nothing(b: Blob)
    ensures [] + b == b
  {
  }

  /** What two slices still hold is the rest of the whole. */
  lemma RestOf(header: Blob, payload: Blob, i: nat, j: nat)
    requires i <= |header| && j <= |payload| && (i < |header| ==> j == 0)
    ensures header[i..] + payload[j..] == (header + payload)[i + j..]
  {
  }

  /** Writing a part of the rest makes a longer first part. */
  lemma WroteMore(before: Blob, all: Blob, done: nat, n: nat)
    requires done + n <= |all|
    ensures before + all[..done] + all[done..][..n] == before + all[..done + n]
  {
    assert all[..done] + all[done..][..n] == all[..done + n];
    Associate(before, all[..done], all[done..][..n]);
  }

  lemma WrotePast(before: Blob, header: Blob, payload: Blob, i: nat, j: nat, n: nat)
    requires i <= |header| && j <= |payload| && (i < |header| ==> j == 0) && n <= |header| - i + (|payload| - j)
    ensures before + (header + payload)[..i + j] + (header[i..] + payload[j..])[..n] == before + (header + payload)[..i + j + n]
  {
    RestOf(header, payload, i, j);
    WroteMore(before, header + payload, i + j, n);
  }

  /** Header and payload go out whole and in order, however the transport splits its writes. */
  method WriteAllVectored(sink: Sink, header: Blob, payload: Blob) returns (r: Result<nat>)
    modifies sink
    ensures r.Ok? ==> sink.out == old(sink.out) + (header + payload) && r.value <= |header| + |payload|
    ensures r.Ok? && header != [] ==> r.value > 0
    ensures r.Err? ==> exists k :: 0 <= k < |header + payload| && sink.out == old(sink.out) + (header + payload)[..k]
    ensures sink.failed == (old(sink.failed) || r.Err?)
  {
    var headerOffset, payloadOffset, writes := 0, 0, 0;
    ghost var all, before := header + payload, sink.out;
    while headerOffset < |header| || payloadOffset < |payload|
      invariant 0 <= headerOffset <= |header| && 0 <= payloadOffset <= |payload|
      invariant headerOffset < |header| ==> payloadOffset == 0
      invariant sink.out == before + all[..headerOffset + payloadOffset]
      invariant 0 <= writes <= headerOffset + payloadOffset
      invariant headerOffset + payloadOffset > 0 ==> writes > 0
      invariant sink.failed == old(sink.failed)
      decreases |header| + |payload| - headerOffset - payloadOffset
    {
      var wrote := sink.WriteVectored(header[headerOffset..], payload[payloadOffset..]);
      if wrote.Err? || wrote.value == 0 { return Err; }
      var written := wrote.value;
      writes := writes + 1;
      var headerRemaining := |header| - headerOffset;
      WrotePast(before, header, payload, headerOffset, payloadOffset, written);
      if written < headerRemaining {
        headerOffset := headerOffset + written;
      } else {
        headerOffset := |header|;
        payloadOffset := payloadOffset + (written - headerRemaining);
      }
    }
    assert all[..|all|] == all;
    return Ok(writes);
  }

  /** The buffers a batch reuses from frame to frame. */
  class Scratch {
    var header: array<byte>
    var payload: Blob

    constructor ()
      ensures header.Length == HEADER && fresh(header)
    {
      header, payload := new byte[HEADER](_ => 0), [];
    }

    /** `write_string`: the length, then the bytes; a string of 2^16 bytes or more is refused. */
    method WriteString(t: Text) returns (ok: bool)
      modifies this`payload
      ensures ok <==> Fits(t)
      ensures payload == old(payload) + if ok then Str(t) else []
    {
      if |t| >= U16 { return false; }
      payload := payload + Be(2, |t|);
      payload := payload + t;
      return true;
    }

    method WriteHostPort(host: Text, port: u16) returns (ok: bool)
      modifies this`payload
      ensures ok <==> Fits(host)
      ensures ok ==> payload == old(payload) + (Str(host) + Be(2, port))
    {
      ok := WriteString(host);
      if ok { payload := payload + Be(2, port); }
    }

    method WriteEgress(egress: Option<Text>) returns (ok: bool)
      modifies this`payload
      ensures ok <==> (egress.Some? ==> Fits(egress.value))
      ensures ok ==> payload == old(payload) + Egress(egress)
    {
      ok := true;
      if egress.Some? {
        ghost var before := payload;
        payload := payload + [1];
        ok := WriteString(egress.value);
        if ok { Associate(before, [1], Str(egress.value)); }
      } else {
        payload := payload + [0];
      }
    }

    method EncodeOpenTcp(host: Text, port: u16, egress: Option<Text>) returns (ok: bool)
      modifies this`payload
      ensures ok <==> Fits(host) && (egress.Some? ==> Fits(egress.value))
      ensures ok ==> payload == Str(host) + (Be(2, port) + Egress(egress))
    {
      payload := [];
      ok := WriteHostPort(host, port);
      if !ok { return; }
      Nothing(Str(host) + Be(2, port));
      ok := WriteEgress(egress);
      if ok { Associate(Str(host), Be(2, port), Egress(egress)); }
    }

    method EncodeUdpPacket(host: Text, port: u16, data: Blob) returns (ok: bool)
      modifies this`payload
      ensures ok <==> Fits(host)
      ensures ok ==> payload == Str(host) + (Be(2, port) + (Be(4, |data|) + data))
    {
      payload := [];
      ok := WriteHostPort(host, port);
      if !ok { return; }
      Nothing(Str(host) + Be(2, port));
      payload := payload + Be(4, |data|);
      payload := payload + data;
      Associate(Str(host) + Be(2, port), Be(4, |data|), data);
      Associate(Str(host), Be(2, port), Be(4, |data|) + data);
    }

    /** `encode_into`: the buffer's old contents are gone, and it holds the frame's payload. */
    method EncodeInto(f: Frame) returns (ok: bool)
      modifies this`payload
      ensures ok <==> StringsFit(f)
      ensures ok ==> payload == Payload(f)
    {
      payload := [];
      ok := true;
      match f
      case OpenTcp(_, host, port, egress) => ok := EncodeOpenTcp(host, port, egress);
      case OpenTcpResult(_, accepted, message) =>
        payload := [if accepted then 1 else 0];
        ok := WriteString(message);
      case Data(_, data) => payload := data;
      case Close(_, reason) =>
        ok := WriteString(reason);
        if ok { Nothing(Str(reason)); }
      case UdpPacket(_, host, port, data) => ok := EncodeUdpPacket(host, port, data);
      case Log(message) =>
        ok := WriteString(message);
        if ok { Nothing(Str(message)); }
    }

    /** `write_payload`: fill the header in place and send both. */
    method WritePayload(sink: Sink, ty: byte, id: Id, body: Blob) returns (r: Result<nat>)
      requires header.Length == HEADER
      modifies header, sink
      ensures |body| > MAX_FRAME ==> r.Err? && sink.out == old(sink.out)
      ensures r.Ok? ==> sink.out == old(sink.out) + (Header(ty, id, |body|) + body) && r.value > 0
      ensures r.Err? && |body| <= MAX_FRAME ==>
                exists k :: 0 <= k < HEADER + |body| && sink.out == old(sink.out) + (Header(ty, id, |body|) + body)[..k]
      ensures sink.failed == (old(sink.failed) || (r.Err? && |body| <= MAX_FRAME))
    {
      if |body| > MAX_FRAME { return Err; }
      var fields := Header(ty, id, |body|);
      header[0] := ty;
      forall i | 1 <= i < HEADER { header[i] := fields[i]; }
      assert header[..] == fields;
      r := WriteAllVectored(sink, header[..], body);
    }

    /** `write_to_with_scratch`: data goes out without a copy, everything else through the payload buffer. */
    method WriteFrame(sink: Sink, f: Frame) returns (r: Result<nat>)
      requires header.Length == HEADER
      modifies this`payload, header, sink
      ensures r.Ok? ==> Encodable(f) && sink.out == old(sink.out) + Wire(f) && r.value > 0
      ensures r.Err? ==> CutOff(Encodable, Wire, old(sink.out), sink.out, f)
      ensures sink.failed == (old(sink.failed) || (r.Err? && Encodable(f)))
    {
      if f.Data? {
        r := WritePayload(sink, 3, f.id, f.data);
      } else {
        var ok := EncodeInto(f);
        if !ok {
          assert sink.out == old(sink.out) + Wire(f)[..0];
          return Err;
        }
        r := WritePayload(sink, TypeOf(f), IdOf(f), payload);
      }
      if !Encodable(f) { assert sink.out == old(sink.out) + Wire(f)[..0]; }
    }
  }

  // Batches

  /** The receiving half of the frame queue: what will arrive, in order, and how much of it is there at least. */
  class FrameQueue {
    var frames: seq<Frame>
    var ready: nat

    ghost predicate Valid()
      reads this
    {
      ready <= |frames|
    }

    constructor (fs: seq<Frame>)
      ensures Valid() && frames == fs && ready == 0
    {
      frames, ready := fs, 0;
    }

    /** `try_recv`: the next frame, if it is there; more may have arrived meanwhile. */
    method TryRecv() returns (r: Option<Frame>)
      requires Valid()
      modifies this
      ensures Valid()
      ensures r.Some? ==> old(frames) == [r.value] + frames && ready + 1 >= old(ready)
      ensures r.None? ==> frames == old(frames) && old(ready) == 0
    {
      var there: nat :| ready <= there <= |frames|;
      ready := there;
      if ready == 0 { return None; }
      r := Some(frames[0]);
      frames, ready := frames[1..], ready - 1;
    }

    /** `recv` of a queue that has a frame to come: it waits for it. */
    method Recv() returns (f: Frame)
      requires Valid() && frames != []
      modifies this
      ensures Valid() && old(frames) == [f] + frames
    {
      f := frames[0];
      frames, ready := frames[1..], if ready == 0 then 0 else ready - 1;
    }
  }

  datatype Stats = Stats(frames: nat, flushes: nat, dataFrames: nat, dataBytes: nat, vectoredWrites: nat)

  function CountData(fs: seq<Frame>): nat {
    if fs == [] then 0 else CountData(fs[..|fs| - 1]) + if fs[|fs| - 1].Data? then 1 else 0
  }

  function SumData(fs: seq<Frame>): nat {
    if fs == [] then 0 else SumData(fs[..|fs| - 1]) + if fs[|fs| - 1].Data? then |fs[|fs| - 1].data| else 0
  }

  /** The stats are those of a batch that wrote `fs`. */
  ghost predicate Counts(stats: Stats, fs: seq<Frame>) {
    stats.frames == |fs| && stats.dataFrames == CountData(fs) && stats.dataBytes == SumData(fs) && stats.vectoredWrites >= |fs|
  }

  function Record(stats: Stats, f: Frame, writes: nat): Stats {
    stats.(frames := stats.frames + 1, vectoredWrites := stats.vectoredWrites + writes,
           dataFrames := stats.dataFrames + if f.Data? then 1 else 0,
           dataBytes := stats.dataBytes + if f.Data? then |f.data| else 0)
  }

  lemma RecordCounts(stats: Stats, fs: seq<Frame>, f: Frame, writes: nat)
    requires Counts(stats, fs) && writes > 0
    ensures Counts(Record(stats, f, writes), fs + [f])
  {
    assert (fs + [f])[..|fs|] == fs;
  }

  /** Write one frame of a batch and note it in the stats. */
  method WriteNext(sink: Sink, scratch: Scratch, f: Frame, stats: Stats, ghost before: Blob,
                   ghost all: seq<Frame>, ghost sent: seq<Frame>, ghost left: seq<Frame>) returns (r: Result<Stats>)
    requires scratch.header.Length == HEADER && Counts(stats, sent)
    requires Progress(Encodable, Wire, before, sink.out, all, sent, [f] + left)
    modifies sink, scratch, scratch.header
    ensures scratch.header == old(scratch.header)
    ensures r.Ok? ==> Counts(r.value, sent + [f]) && Progress(Encodable, Wire, before, sink.out, all, sent + [f], left)
    ensures r.Ok? ==> r.value.frames == stats.frames + 1 && r.value.flushes == stats.flushes
    ensures r.Err? ==> WrotePart(Encodable, Wire, before, sink.out, all, |sent|)
    ensures sink.failed == (old(sink.failed) || (r.Err? && Encodable(f)))
  {
    ghost var out := sink.out;
    var wrote := scratch.WriteFrame(sink, f);
    if wrote.Err? {
      FirstCut(Encodable, Wire, out, sink.out, [f] + left);
      ProgressCut(Encodable, Wire, before, out, sink.out, all, sent, [f] + left, 0);
      return Err;
    }
    EncodeOne(Wire, f);
    ProgressMore(Encodable, Wire, before, out, sink.out, all, sent, [f], left);
    RecordCounts(stats, sent, f, wrote.value);
    return Ok(Record(stats, f, wrote.value));
  }

  /** A batch wrote `first` and the first of the `queued` frames, left the others, and has these stats. */
  ghost predicate BatchWrote(stats: Stats, before: Blob, after: Blob, first: Frame, queued: seq<Frame>, left: seq<Frame>) {
    && 1 <= stats.frames <= FRAME_WRITE_BATCH_LIMIT && stats.frames <= 1 + |queued|
    && left == queued[stats.frames - 1..]
    && stats.flushes == 1
    && var fs := ([first] + queued)[..stats.frames];
       AllEncodable(fs) && Counts(stats, fs) && after == before + EncodeAll(Wire, fs)
  }

  lemma BatchEnds(stats: Stats, before: Blob, after: Blob, first: Frame, queued: seq<Frame>, sent: seq<Frame>, left: seq<Frame>)
    requires Counts(stats, sent) && Progress(Encodable, Wire, before, after, [first] + queued, sent, left)
    requires 1 <= stats.frames <= FRAME_WRITE_BATCH_LIMIT
    ensures BatchWrote(stats.(flushes := 1), before, after, first, queued, left)
  {
    assert sent == ([first] + queued)[..|sent|];
    assert left == ([first] + queued)[|sent|..] == queued[|sent| - 1..];
  }

  /**
   `write_frame_batch`: the first frame and up to 31 more, in queue order, are on the wire when it
   succeeds, and the stats count exactly them; it stops before 32 only when it has written every frame that
   was there.  When it fails, the transport did or a frame cannot be encoded, and the bytes out are a part of theirs.
   */
  method WriteFrameBatch(sink: Sink, first: Frame, rx: FrameQueue) returns (r: Result<Stats>)
    requires rx.Valid()
    modifies sink, rx
    ensures rx.Valid()
    ensures r.Ok? ==> BatchWrote(r.value, old(sink.out), sink.out, first, old(rx.frames), rx.frames)
    ensures r.Ok? ==> r.value.frames == FRAME_WRITE_BATCH_LIMIT || r.value.frames > old(rx.ready)
    ensures r.Ok? ==> sink.failed == old(sink.failed)
    ensures r.Err? ==>
              exists m: nat :: WrotePart(Encodable, Wire, old(sink.out), sink.out, [first] + old(rx.frames), m)
    ensures r.Err? ==> sink.failed || !AllEncodable([first] + old(rx.frames))
  {
    var scratch := new Scratch();
    ghost var all, before, sent := [first] + rx.frames, sink.out, [];
    ProgressStarts(Encodable, Wire, before, all);
    r := WriteNext(sink, scratch, first, Stats(0, 0, 0, 0, 0), before, all, sent, rx.frames);
    if r.Err? {
      assert first in all;
      return;
    }
    sent := sent + [first];
    while r.value.frames < FRAME_WRITE_BATCH_LIMIT
      invariant rx.Valid() && sink.failed == old(sink.failed)
      invariant r.Ok? && 1 <= r.value.frames <= FRAME_WRITE_BATCH_LIMIT && r.value.flushes == 0
      invariant Counts(r.value, sent) && Progress(Encodable, Wire, before, sink.out, all, sent, rx.frames)
      invariant rx.ready + r.value.frames > old(rx.ready)
      invariant scratch.header.Length == HEADER && fresh(scratch) && fresh(scratch.header)
    {
      ghost var queued := rx.frames;
      var next := rx.TryRecv();
      if next.None? { break; }
      NextInAll(all, sent, queued, next.value, rx.frames);
      r := WriteNext(sink, scratch, next.value, r.value, before, all, sent, rx.frames);
      if r.Err? { return; }
      sent := sent + [next.value];
    }
    var flushed := sink.Flush();
    if !flushed {
      ProgressStops(Encodable, Wire, before, sink.out, all, sent, rx.frames);
      return Err;
    }
    BatchEnds(r.value, before, sink.out, first, old(rx.frames), sent, rx.frames);
    r := Ok(r.value.(flushes := 1));
  }

  lemma NextInAll(all: seq<Frame>, sent: seq<Frame>, queued: seq<Frame>, next: Frame, left: seq<Frame>)
    requires all == sent + queued && queued == [next] + left
    ensures next in all
  {
    assert all[|sent|] == next;
  }

  /** From what a failed write leaves behind, a reader gets exactly the frames before the failure. */
  lemma FailedWriteReads(before: Blob, after: Blob, fs: seq<Frame>, m: nat)
    requires WrotePart(Encodable, Wire, before, after, fs, m)
    ensures before <= after && Consumes(ReadFrame)
    ensures ReadAll(ReadFrame, after[|before|..]).0 == fs[..m]
  {
    FramesConsume();
    FramesUndo();
    FramesNoPartial();
    PartReads(Encodable, Wire, ReadFrame, before, after, fs, m);
  }

  function Total(batches: seq<Stats>): nat {
    if batches == [] then 0 else Total(batches[..|batches| - 1]) + batches[|batches| - 1].frames
  }

  /** Each of the batches counts exactly its own stretch of the frames, one stretch after the other. */
  ghost predicate CountsInTurn(batches: seq<Stats>, fs: seq<Frame>) {
    batches == [] ||
    (var init, last := batches[..|batches| - 1], batches[|batches| - 1];
     && CountsInTurn(init, fs)
     && Total(batches) <= |fs| && Counts(last, fs[Total(init)..Total(batches)])
     && 1 <= last.frames <= FRAME_WRITE_BATCH_LIMIT && last.flushes == 1)
  }

  lemma CountsNext(batches: seq<Stats>, stats: Stats, all: seq<Frame>, wrote: seq<Frame>, left: seq<Frame>)
    requires CountsInTurn(batches, all) && Counts(stats, wrote)
    requires 1 <= stats.frames <= FRAME_WRITE_BATCH_LIMIT && stats.flushes == 1
    requires Total(batches) <= |all| && all[Total(batches)..] == wrote + left
    ensures CountsInTurn(batches + [stats], all) && Total(batches + [stats]) == Total(batches) + |wrote|
  {
    assert (batches + [stats])[..|batches|] == batches;
    SliceAt(all, Total(batches), wrote, left);
  }

  /** Batches have been written that hold `sent` of `all` the frames, and are counted. */
  ghost predicate Batched(batches: seq<Stats>, before: Blob, after: Blob, all: seq<Frame>, sent: seq<Frame>, left: seq<Frame>) {
    && Progress(Encodable, Wire, before, after, all, sent, left)
    && CountsInTurn(batches, all) && Total(batches) == |sent|
  }

  lemma NextBatch(batches: seq<Stats>, stats: Stats, before: Blob, out: Blob, after: Blob,
                  all: seq<Frame>, sent: seq<Frame>, first: Frame, queued: seq<Frame>, left: seq<Frame>)
    requires Batched(batches, before, out, all, sent, [first] + queued)
    requires BatchWrote(stats, out, after, first, queued, left)
    ensures Batched(batches + [stats], before, after, all, sent + ([first] + queued)[..stats.frames], left)
  {
    var todo := [first] + queued;
    var wrote := todo[..stats.frames];
    SplitAt(todo, stats.frames);
    DropAfterFirst(first, queued, stats.frames);
    ProgressMore(Encodable, Wire, before, out, after, all, sent, wrote, left);
    DropPrefix(sent, todo);
    CountsNext(batches, stats, all, wrote, left);
  }

  /**
   The writer task of a bridge, on a queue whose senders are gone: it writes batch after batch.  If no
   batch fails, exactly the queued frames are on the wire, and counted; if one does, the batches before
   it are counted, and the bytes out are the frames up to the failure and part of the next.
   */
  method WriterTask(sink: Sink, rx: FrameQueue) returns (ok: bool, batches: seq<Stats>)
    requires rx.Valid()
    modifies sink, rx
    ensures !ok ==> sink.failed || !AllEncodable(old(rx.frames))
    ensures CountsInTurn(batches, old(rx.frames))
    ensures ok ==> AllEncodable(old(rx.frames)) && sink.out == old(sink.out) + EncodeAll(Wire, old(rx.frames))
    ensures ok ==> Total(batches) == |old(rx.frames)|
    ensures !ok ==> exists m: nat :: Total(batches) <= m && WrotePart(Encodable, Wire, old(sink.out), sink.out, old(rx.frames), m)
  {
    batches := [];
    ghost var all, before, sent := rx.frames, sink.out, [];
    ProgressStarts(Encodable, Wire, before, all);
    while rx.frames != []
      invariant rx.Valid() && Batched(batches, before, sink.out, all, sent, rx.frames)
      decreases |rx.frames|
    {
      ghost var left, out := rx.frames, sink.out;
      var first := rx.Recv();
      ghost var queued := rx.frames;
      var r := WriteFrameBatch(sink, first, rx);
      if r.Err? {
        ghost var m: nat :| WrotePart(Encodable, Wire, out, sink.out, left, m);
        ProgressCut(Encodable, Wire, before, out, sink.out, all, sent, left, m);
        assert forall f :: f in left ==> f in all;
        return false, batches;
      }
      NextBatch(batches, r.value, before, out, sink.out, all, sent, first, queued, rx.frames);
      sent := sent + left[..r.value.frames];
      batches := batches + [r.value];
    }
    assert all == sent;
    return true, batches;
  }

  // Reading

  /** Reads frames into buffers that it keeps from call to call. */
  class FrameReader {
    var header: array<byte>
    var structured: array<byte>
    var data: Blob

    ghost predicate Valid()
      reads this
    {
      header.Length == HEADER
    }

    constructor ()
      ensures Valid() && fresh(header) && fresh(structured)
    {
      header, structured, data := new byte[HEADER](_ => 0), new byte[0], [];
    }

    /** `Vec::resize`: the kept part keeps its stale bytes. */
    method Resize(len: nat)
      modifies this`structured
      ensures structured.Length == len && fresh(structured)
    {
      var stale := structured[..];
      structured := new byte[len](i => if 0 <= i < |stale| then stale[i] else 0);
    }

    /** The fast path for data frames: the payload is gathered from as many reads as it takes. */
    method ReadDataFrame(src: Source, id: Id, len: nat) returns (r: Outcome<Frame>)
      modifies this`data, src
      ensures len <= |old(src.rest)| ==>
                r == Got(Data(id, old(src.rest)[..len]), old(src.rest)[len..]) && src.rest == old(src.rest)[len..]
      ensures len > |old(src.rest)| ==> r == Bad
    {
      data := [];
      while |data| < len
        invariant |data| <= len && |data| <= |old(src.rest)|
        invariant data == old(src.rest)[..|data|] && src.rest == old(src.rest)[|data|..]
        decreases len - |data|
      {
        var chunk := src.ReadSome(len - |data|);
        if chunk == [] { return Bad; }
        data := data + chunk;
      }
      assert data[..len] == data;
      r := Got(Data(id, data[..len]), src.rest);
      data := data[len..];
    }

    /** `read_from`: what it returns and consumes depends on the stream alone, never on old buffers. */
    method ReadFrom(src: Source) returns (r: Outcome<Frame>)
      requires Valid()
      modifies this, header, src
      ensures Valid() && header == old(header)
      ensures r == ReadFrame(old(src.rest))
      ensures r.Got? ==> src.rest == r.rest
    {
      ghost var input := src.rest;
      var ok := src.ReadExact(header);
      if !ok { return End; }
      Widths();
      var ty, id, len := header[0], FromBe(header[1..5]), FromBe(header[5..9]);
      assert header[1..5] == input[1..5] && header[5..9] == input[5..9];
      if len > MAX_FRAME { return Bad; }
      if ty == 3 {
        r := ReadDataFrame(src, id, len);
        assert r.Got? ==> input[HEADER..][..len] == input[HEADER..HEADER + len];
        return;
      }
      Resize(len);
      ok := src.ReadExact(structured);
      if !ok { return Bad; }
      assert structured[..] == input[HEADER..HEADER + len];
      var frame := Decode(ty, id, structured[..]);
      r := if frame.Ok? then Got(frame.value, src.rest) else Bad;
    }

    /** A reader loop: every frame of the stream up to its end or the first error. */
    method ReadStream(src: Source) returns (frames: seq<Frame>, last: Outcome<Frame>)
      requires Valid()
      modifies this, header, src
      ensures Valid() && Consumes(ReadFrame) && (frames, last) == ReadAll(ReadFrame, old(src.rest))
    {
      FramesConsume();
      frames := [];
      ghost var all := ReadAll(ReadFrame, src.rest);
      assert [] + all.0 == all.0;
      while true
        invariant Valid() && header == old(header)
        invariant all == (frames + ReadAll(ReadFrame, src.rest).0, ReadAll(ReadFrame, src.rest).1)
        decreases |src.rest|
      {
        ghost var input := src.rest;
        last := ReadFrom(src);
        if !last.Got? {
          assert frames + [] == frames;
          break;
        }
        ReadAllStep(ReadFrame, input, frames);
        frames := frames + [last.item];
      }
    }
  }

  /**
   The writer task at one end and a reader loop at the other: the reader gets the queued frames in
   order, all of them if no write failed, and a prefix of them and nothing else if one did.
   */
  method Transfer(rx: FrameQueue, reader: FrameReader) returns (ok: bool, frames: seq<Frame>, last: Outcome<Frame>)
    requires rx.Valid() && reader.Valid()
    modifies rx, reader, reader.header
    ensures ok ==> frames == old(rx.frames) && last == End
    ensures frames <= old(rx.frames)
  {
    var sink := new Sink();
    var batches;
    ok, batches := WriterTask(sink, rx);
    ghost var queued := old(rx.frames);
    assert ok ==> [] + EncodeAll(Wire, queued) == EncodeAll(Wire, queued);
    var src := new Source(sink.out);
    frames, last := reader.ReadStream(src);
    if ok {
      FrameStreamRoundTrip(queued);
    } else {
      ghost var m: nat :| WrotePart(Encodable, Wire, [], sink.out, queued, m);
      FailedWriteReads([], sink.out, queued, m);
      assert sink.out[0..] == sink.out;
    }
  }
}
