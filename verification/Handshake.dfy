/**
 The peer handshake that precedes the frames
 (`crates/ssh-proxy-transport/src/peer_transport.rs`).  The JSON encoding of the
 two messages is a parameter: any encoder with a decoder that undoes it.
 */
module Handshake {
  import opened Bytes
  import opened Sequences
  import opened Streams
  import opened FrameIO

  const MAGIC: Blob := [0x53, 0x50, 0x58, 0x31]  // "SPX1"
  const MAX_HANDSHAKE := 64 * 1024

  datatype Protocol = SshNative | QuicNative | Quic | TlsTcp | Tcp | SshDirect | SshExec

  datatype Hello = Hello(version: u16, node: Text, protocols: seq<Protocol>)

  datatype Welcome = Welcome(version: u16, node: Text, accepted: Option<Protocol>, message: Text)

  /** A serialiser and its deserialiser. */
  datatype Json<!T(!new)> = Json(write: T -> Blob, read: Blob -> Option<T>) {
    ghost predicate Faithful() { forall x :: read(write(x)) == Some(x) }
  }

  // Messages on the stream

  function Message(payload: Blob): Blob
    requires |payload| <= MAX_HANDSHAKE
  {
    MAGIC + (Be(4, |payload|) + payload)
  }

  /** What `read_handshake` takes off a stream before it deserialises, and what it leaves. */
  function TakeMessage(b: Blob): Result<(Blob, Blob)> {
    if |b| < 8 || b[..4] != MAGIC then Err
    else
      var len := FromBe(b[4..8]);
      if len > MAX_HANDSHAKE || |b| < 8 + len then Err else Ok((b[8..8 + len], b[8 + len..]))
  }

  /**
   What `read_handshake` leaves unread, also when it fails: it stops after a wrong magic or an excessive
   length, and uses up a stream that ends too early.
   */
  function Unread(b: Blob): Blob {
    if |b| >= 4 && b[..4] != MAGIC then b[4..]
    else if |b| >= 8 && FromBe(b[4..8]) > MAX_HANDSHAKE then b[8..]
    else if TakeMessage(b).Ok? then TakeMessage(b).value.1
    else []
  }

  /** A message is read back, and nothing that follows it is consumed. */
  lemma TakeMessageOf(payload: Blob, rest: Blob)
    requires |payload| <= MAX_HANDSHAKE
    ensures TakeMessage(Message(payload) + rest) == Ok((payload, rest))
  {
    var b := Message(payload) + rest;
    Widths();
    FromBeOfBe(4, |payload|);
    assert b[..4] == MAGIC && b[4..8] == Be(4, |payload|);
    assert b[8..8 + |payload|] == payload && b[8 + |payload|..] == rest;
  }

  /** Only a whole message is accepted, and exactly its bytes are consumed. */
  lemma TakenIsMessage(b: Blob)
    requires TakeMessage(b).Ok?
    ensures |TakeMessage(b).value.0| <= MAX_HANDSHAKE
    ensures b == Message(TakeMessage(b).value.0) + TakeMessage(b).value.1
  {
    var (payload, rest) := TakeMessage(b).value;
    BeOfFromBe(b[4..8]);
    Associate(MAGIC, Be(4, |payload|) + payload, rest);
    Associate(Be(4, |payload|), payload, rest);
    assert b == b[..4] + (b[4..8] + (payload + rest));
  }

  /** `write_all`: everything goes out, or a proper part and an error. */
  method WriteAll(sink: Sink, bytes: Blob) returns (ok: bool)
    modifies sink
    ensures ok ==> sink.out == old(sink.out) + bytes
    ensures !ok ==> PartOf(old(sink.out), sink.out, bytes)
    ensures sink.failed == (old(sink.failed) || !ok)
  {
    ghost var before := sink.out;
    var done := 0;
    while done < |bytes|
      invariant 0 <= done <= |bytes| && sink.out == before + bytes[..done] && sink.failed == old(sink.failed)
      decreases |bytes| - done
    {
      var wrote := sink.WriteVectored(bytes[done..], []);
      if wrote.Err? || wrote.value == 0 { return false; }
      assert bytes[done..] + [] == bytes[done..];
      assert bytes[..done] + bytes[done..][..wrote.value] == bytes[..done + wrote.value];
      Associate(before, bytes[..done], bytes[done..][..wrote.value]);
      done := done + wrote.value;
    }
    assert bytes[..|bytes|] == bytes;
    return true;
  }

  /** `write_handshake`: an oversized payload is refused before anything is written. */
  method WriteHandshake(sink: Sink, payload: Blob) returns (ok: bool)
    modifies sink
    ensures |payload| > MAX_HANDSHAKE ==> !ok && sink.out == old(sink.out)
    ensures ok ==> |payload| <= MAX_HANDSHAKE && sink.out == old(sink.out) + Message(payload)
    ensures !ok && |payload| <= MAX_HANDSHAKE ==> PartOf(old(sink.out), sink.out, Message(payload))
    ensures sink.failed == (old(sink.failed) || (!ok && |payload| <= MAX_HANDSHAKE))
  {
    if |payload| > MAX_HANDSHAKE { return false; }
    ghost var before, size := sink.out, Be(4, |payload|);
    Associate(MAGIC, size, payload);
    assert [] + Message(payload) == Message(payload) && before + [] == before;
    ok := WriteAll(sink, MAGIC);
    if !ok { PartGrows(before, sink.out, [], MAGIC, size + payload); return; }
    ok := WriteAll(sink, Be(4, |payload|));
    if !ok { PartGrows(before, sink.out, MAGIC, size, payload); return; }
    Associate(before, MAGIC, size);
    assert payload + [] == payload;
    ok := WriteAll(sink, payload);
    if !ok { PartGrows(before, sink.out, MAGIC + size, payload, []); return; }
    Associate(before, MAGIC + size, payload);
    ok := sink.Flush();
    assert Message(payload)[..|Message(payload)|] == Message(payload);
  }

  /** `after` is `before` and some first bytes of `bytes`. */
  ghost predicate PartOf(before: Blob, after: Blob, bytes: Blob) {
    exists k :: 0 <= k <= |bytes| && after == before + bytes[..k]
  }

  lemma PartGrows(before: Blob, after: Blob, done: Blob, now: Blob, rest: Blob)
    requires PartOf(before + done, after, now)
    ensures PartOf(before, after, done + (now + rest))
  {
    var k :| 0 <= k <= |now| && after == before + done + now[..k];
    assert (done + (now + rest))[..|done| + k] == done + now[..k];
    Associate(before, done, now[..k]);
  }

  /** `read_handshake`, up to deserialisation. */
  method ReadHandshake(src: Source) returns (r: Result<Blob>)
    modifies src
    ensures TakeMessage(old(src.rest)).Ok? <==> r.Ok?
    ensures r.Ok? ==> TakeMessage(old(src.rest)) == Ok((r.value, src.rest))
    ensures src.rest == Unread(old(src.rest))
  {
    ghost var input := src.rest;
    var magic := new byte[4](_ => 0);
    var ok := src.ReadExact(magic);
    if !ok { return Err; }
    if magic[..] != MAGIC { return Err; }
    var size := new byte[4](_ => 0);
    ok := src.ReadExact(size);
    if !ok { return Err; }
    assert size[..] == input[4..8];
    var len := FromBe(size[..]);
    if len > MAX_HANDSHAKE { return Err; }
    var payload := new byte[len](_ => 0);
    ok := src.ReadExact(payload);
    if !ok { return Err; }
    assert payload[..] == input[8..8 + len] && src.rest == input[8 + len..];
    return Ok(payload[..]);
  }

  // The two ends

  /** `select_supported_protocol`: the client's first choice among those the server supports. */
  function Select(requested: seq<Protocol>, supported: seq<Protocol>): Option<Protocol> {
    if requested == [] then None
    else if requested[0] in supported then Some(requested[0])
    else Select(requested[1..], supported)
  }

  /** The selection is the earliest supported request, and there is none exactly when nothing is shared. */
  lemma {:induction false} SelectIsFirst(requested: seq<Protocol>, supported: seq<Protocol>)
    ensures Select(requested, supported).None? <==> (forall p :: p in requested ==> p !in supported)
    ensures Select(requested, supported).Some? ==>
              exists i :: 0 <= i < |requested| && Select(requested, supported) == Some(requested[i])
                          && requested[i] in supported && (forall j :: 0 <= j < i ==> requested[j] !in supported)
  {
    if requested != [] && requested[0] !in supported {
      SelectIsFirst(requested[1..], supported);
      if Select(requested, supported).Some? {
        var i :| 0 <= i < |requested[1..]| && Select(requested[1..], supported) == Some(requested[1..][i])
                 && requested[1..][i] in supported && (forall j :: 0 <= j < i ==> requested[1..][j] !in supported);
        assert requested[i + 1] == requested[1..][i];
        assert forall j :: 0 < j < i + 1 ==> requested[j] == requested[1..][j - 1];
      }
    }
  }

  datatype Client = Client(version: u16, node: Text, protocol: Protocol)

  datatype Server = Server(version: u16, node: Text, supported: seq<Protocol>, messages: (u16, Option<Protocol>) -> Text)

  function HelloOf(c: Client): Hello { Hello(c.version, c.node, [c.protocol]) }

  function WelcomeTo(s: Server, hello: Hello): Welcome {
    var accepted := if hello.version == s.version then Select(hello.protocols, s.supported) else None;
    Welcome(s.version, s.node, accepted, s.messages(hello.version, accepted))
  }

  /** What the server makes of its input: its result, what it writes, and what it leaves unread. */
  function ServerHandshake(s: Server, hj: Json<Hello>, wj: Json<Welcome>, input: Blob): (Result<Hello>, Blob, Blob) {
    var taken := TakeMessage(input);
    if taken.Err? then (Err, [], Unread(input))
    else
      var (payload, rest) := taken.value;
      var hello := hj.read(payload);
      if hello.None? then (Err, [], rest)
      else
        var welcome := WelcomeTo(s, hello.value);
        if |wj.write(welcome)| > MAX_HANDSHAKE then (Err, [], rest)
        else (if welcome.accepted.Some? then Ok(hello.value) else Err, Message(wj.write(welcome)), rest)
  }

  /** What the client writes; nothing if its hello is too large. */
  function ClientWrites(c: Client, hj: Json<Hello>): Option<Blob> {
    if |hj.write(HelloOf(c))| > MAX_HANDSHAKE then None else Some(Message(hj.write(HelloOf(c))))
  }

  /** What the client makes of the server's answer, and what it leaves unread. */
  function ClientReads(c: Client, wj: Json<Welcome>, input: Blob): (Result<Welcome>, Blob) {
    var taken := TakeMessage(input);
    if taken.Err? then (Err, Unread(input))
    else
      var (payload, rest) := taken.value;
      var welcome := wj.read(payload);
      if welcome.None? || welcome.value.version != c.version || welcome.value.accepted != Some(c.protocol)
      then (Err, rest) else (Ok(welcome.value), rest)
  }

  /** `server_handshake` on a transport; `io` says that no write failed, and then it does what the function says. */
  method RunServer(s: Server, hj: Json<Hello>, wj: Json<Welcome>, src: Source, sink: Sink) returns (r: Result<Hello>, io: bool)
    modifies src, sink
    ensures !io ==> r.Err? && sink.failed
    ensures io ==> sink.failed == old(sink.failed)
    ensures var spec := ServerHandshake(s, hj, wj, old(src.rest));
            && (io ==> r == spec.0 && sink.out == old(sink.out) + spec.1)
            && src.rest == spec.2
  {
    var payload := ReadHandshake(src);
    if payload.Err? { return Err, true; }
    var hello := hj.read(payload.value);
    if hello.None? { return Err, true; }
    var welcome := WelcomeTo(s, hello.value);
    var bytes := wj.write(welcome);
    var ok := WriteHandshake(sink, bytes);
    if !ok { return Err, |bytes| > MAX_HANDSHAKE; }
    if welcome.accepted.None? { return Err, true; }
    return Ok(hello.value), true;
  }

  /** `client_handshake` on a transport. */
  method RunClient(c: Client, hj: Json<Hello>, wj: Json<Welcome>, src: Source, sink: Sink) returns (r: Result<Welcome>, io: bool)
    modifies src, sink
    ensures !io ==> r.Err? && sink.failed
    ensures io ==> sink.failed == old(sink.failed)
    ensures io && ClientWrites(c, hj).None? ==> r.Err? && sink.out == old(sink.out) && src.rest == old(src.rest)
    ensures io && ClientWrites(c, hj).Some? ==>
              && sink.out == old(sink.out) + ClientWrites(c, hj).value
              && r == ClientReads(c, wj, old(src.rest)).0
              && src.rest == ClientReads(c, wj, old(src.rest)).1
  {
    var bytes := hj.write(HelloOf(c));
    var ok := WriteHandshake(sink, bytes);
    if !ok { return Err, |bytes| > MAX_HANDSHAKE; }
    var payload := ReadHandshake(src);
    if payload.Err? { return Err, true; }
    var welcome := wj.read(payload.value);
    if welcome.None? { return Err, true; }
    if welcome.value.version != c.version { return Err, true; }
    if welcome.value.accepted != Some(c.protocol) { return Err, true; }
    return Ok(welcome.value), true;
  }

  datatype Session = Session(client: Result<Welcome>, server: Result<Hello>, clientLeft: Blob, serverLeft: Blob)

  /** Client and server against each other over a faithful stream; a side that gives up closes its half. */
  function Handshakes(c: Client, s: Server, hj: Json<Hello>, wj: Json<Welcome>): Session {
    var sent := ClientWrites(c, hj);
    var input := if sent.Some? then sent.value else [];
    var (server, answer, serverLeft) := ServerHandshake(s, hj, wj, input);
    if sent.None? then Session(Err, server, [], serverLeft)
    else
      var (client, clientLeft) := ClientReads(c, wj, answer);
      Session(client, server, clientLeft, serverLeft)
  }

  /**
   The server answers every hello that it can read, also one that it refuses: with its own version and
   node, and with the first protocol it shares if the versions are equal. It accepts exactly if there is one.
   */
  lemma ServerAnswers(s: Server, hello: Hello, hj: Json<Hello>, wj: Json<Welcome>, rest: Blob)
    requires hj.Faithful() && wj.Faithful()
    requires |hj.write(hello)| <= MAX_HANDSHAKE && |wj.write(WelcomeTo(s, hello))| <= MAX_HANDSHAKE
    ensures var (result, answer, left) := ServerHandshake(s, hj, wj, Message(hj.write(hello)) + rest);
            && left == rest
            && TakeMessage(answer).Ok? && TakeMessage(answer).value.1 == []
            && var welcome := wj.read(TakeMessage(answer).value.0);
               && welcome.Some? && welcome.value.version == s.version && welcome.value.node == s.node
               && welcome.value.message == s.messages(hello.version, welcome.value.accepted)
               && (if hello.version != s.version then welcome.value.accepted == None
                   else welcome.value.accepted == Select(hello.protocols, s.supported))
               && result == if welcome.value.accepted.Some? then Ok(hello) else Err
  {
    TakeMessageOf(hj.write(hello), rest);
    var payload := wj.write(WelcomeTo(s, hello));
    assert Message(payload) + [] == Message(payload);
    TakeMessageOf(payload, []);
  }

  lemma ServerOnHello(c: Client, s: Server, hj: Json<Hello>, wj: Json<Welcome>)
    requires hj.Faithful() && ClientWrites(c, hj).Some?
    ensures var welcome := WelcomeTo(s, HelloOf(c));
            ServerHandshake(s, hj, wj, ClientWrites(c, hj).value)
            == if |wj.write(welcome)| > MAX_HANDSHAKE then (Err, [], [])
               else (if welcome.accepted.Some? then Ok(HelloOf(c)) else Err, Message(wj.write(welcome)), [])
  {
    var payload := hj.write(HelloOf(c));
    assert Message(payload) + [] == Message(payload);
    TakeMessageOf(payload, []);
  }

  lemma ClientOnWelcome(c: Client, wj: Json<Welcome>, welcome: Welcome)
    requires wj.Faithful() && |wj.write(welcome)| <= MAX_HANDSHAKE
    ensures ClientReads(c, wj, Message(wj.write(welcome)))
         == (if welcome.version == c.version && welcome.accepted == Some(c.protocol) then Ok(welcome) else Err, [])
  {
    var payload := wj.write(welcome);
    assert Message(payload) + [] == Message(payload);
    TakeMessageOf(payload, []);
  }

  /**
   Both ends succeed or both fail; they succeed exactly when the versions are equal, the server supports
   the client's protocol and neither message is too large; then the client holds that protocol and the
   server the client's hello, and each side has consumed exactly the bytes the other wrote.
   */
  lemma HandshakesAgree(c: Client, s: Server, hj: Json<Hello>, wj: Json<Welcome>)
    requires hj.Faithful() && wj.Faithful()
    ensures var session := Handshakes(c, s, hj, wj);
            && (session.client.Ok? <==> session.server.Ok?)
            && (session.client.Ok? <==>
                  && c.version == s.version && c.protocol in s.supported
                  && |hj.write(HelloOf(c))| <= MAX_HANDSHAKE && |wj.write(WelcomeTo(s, HelloOf(c)))| <= MAX_HANDSHAKE)
            && (session.client.Ok? ==>
                  && session.client.value.accepted == Some(c.protocol) && session.client.value.version == c.version
                  && session.client.value.node == s.node
                  && session.server.value == Hello(c.version, c.node, [c.protocol]))
            && session.clientLeft == [] && session.serverLeft == []
  {
    var welcome := WelcomeTo(s, HelloOf(c));
    assert Select([c.protocol], s.supported) == if c.protocol in s.supported then Some(c.protocol) else None;
    if ClientWrites(c, hj).Some? {
      ServerOnHello(c, s, hj, wj);
      if |wj.write(welcome)| <= MAX_HANDSHAKE { ClientOnWelcome(c, wj, welcome); }
    }
  }
}
