/**
 The SPX wire format: what the bytes of a frame are, what a frame payload
 decodes to, and how a byte stream splits into frames
 (`crates/ssh-proxy-protocol/src/protocol.rs`).
 */
module FrameCodec {
  import opened Bytes
  import opened Frames
  import opened Sequences
  import opened Streams

  const HEADER := 9

  // Encoding

  predicate Fits(t: Text) { |t| < U16 }

  predicate StringsFit(f: Frame) {
    match f
    case OpenTcp(_, host, _, egress) => Fits(host) && (egress.Some? ==> Fits(egress.value))
    case OpenTcpResult(_, _, message) => Fits(message)
    case Data(_, _) => true
    case Close(_, reason) => Fits(reason)
    case UdpPacket(_, host, _, _) => Fits(host)
    case Log(message) => Fits(message)
  }

  function Str(t: Text): Blob
    requires Fits(t)
  {
    Be(2, |t|) + t
  }

  function Egress(egress: Option<Text>): Blob
    requires egress.Some? ==> Fits(egress.value)
  {
    if egress.Some? then [1] + Str(egress.value) else [0]
  }

  function Payload(f: Frame): Blob
    requires StringsFit(f)
  {
    match f
    case OpenTcp(_, host, port, egress) =>
      Str(host) + (Be(2, port) + Egress(egress))
    case OpenTcpResult(_, ok, message) => [if ok then 1 else 0] + Str(message)
    case Data(_, data) => data
    case Close(_, reason) => Str(reason)
    // the length is written as u32; a longer payload exceeds MAX_FRAME and is refused
    case UdpPacket(_, host, port, data) => Str(host) + (Be(2, port) + (Be(4, |data|) + data))
    case Log(message) => Str(message)
  }

  function TypeOf(f: Frame): byte {
    match f
    case OpenTcp(_, _, _, _) => 1
    case OpenTcpResult(_, _, _) => 2
    case Data(_, _) => 3
    case Close(_, _) => 4
    case UdpPacket(_, _, _, _) => 5
    case Log(_) => 6
  }

  function IdOf(f: Frame): Id { if f.Log? then 0 else f.id }

  predicate Encodable(f: Frame) { StringsFit(f) && |Payload(f)| <= MAX_FRAME }

  function Header(ty: byte, id: Id, len: u32): (h: Blob)
    ensures |h| == HEADER
  {
    [ty] + (Be(4, id) + Be(4, len))
  }

  function Encode(f: Frame): (b: Blob)
    requires Encodable(f)
    ensures |b| >= HEADER
  {
    Header(TypeOf(f), IdOf(f), |Payload(f)|) + Payload(f)
  }

  /** The bytes of a frame on the wire; the writer puts none there for a frame it refuses. */
  function Wire(f: Frame): Blob { if Encodable(f) then Encode(f) else [] }

  // Decoding

  function TakeBytes(b: Blob, n: nat): Result<(Blob, Blob)> {
    if n <= |b| then Ok((b[..n], b[n..])) else Err
  }

  function TakeU16(b: Blob): Result<(u16, Blob)> {
    var (head, rest) :- TakeBytes(b, 2);
    Widths();
    Ok((FromBe(head), rest))
  }

  function TakeU32(b: Blob): Result<(u32, Blob)> {
    var (head, rest) :- TakeBytes(b, 4);
    Widths();
    Ok((FromBe(head), rest))
  }

  function TakeText(b: Blob): Result<(Text, Blob)> {
    var (n, rest) :- TakeU16(b);
    var (text, rest) :- TakeBytes(rest, n);
    if Utf8(text) then Ok((text, rest)) else Err
  }

  /** The optional egress proxy; older peers leave it out. */
  function TakeEgress(b: Blob): Result<(Option<Text>, Blob)> {
    if b == [] then Ok((None, []))
    else if b[0] == 0 then Ok((None, b[1..]))
    else
      var (egress, rest) :- TakeText(b[1..]);
      Ok((Some(egress), rest))
  }

  /** A length and that many bytes, which must be all that is left. */
  function TakeDatagram(b: Blob): Result<Blob> {
    var (len, rest) :- TakeU32(b);
    if len == |rest| then Ok(rest) else Err
  }

  /** A string that must be all that is left. */
  function LastText(b: Blob): Result<Text> {
    var (text, rest) :- TakeText(b);
    if rest == [] then Ok(text) else Err
  }

  function DecodeOpenTcp(id: Id, payload: Blob): Result<Frame> {
    var (host, rest) :- TakeText(payload);
    var (port, rest) :- TakeU16(rest);
    var (egress, rest) :- TakeEgress(rest);
    if rest == [] then Ok(OpenTcp(id, host, port, egress)) else Err
  }

  function DecodeOpenTcpResult(id: Id, payload: Blob): Result<Frame> {
    var (ok, rest) :- TakeBytes(payload, 1);
    var message :- LastText(rest);
    Ok(OpenTcpResult(id, ok[0] != 0, message))
  }

  function DecodeClose(id: Id, payload: Blob): Result<Frame> {
    var reason :- LastText(payload);
    Ok(Close(id, reason))
  }

  function DecodeUdpPacket(id: Id, payload: Blob): Result<Frame> {
    var (host, rest) :- TakeText(payload);
    var (port, rest) :- TakeU16(rest);
    var data :- TakeDatagram(rest);
    Ok(UdpPacket(id, host, port, data))
  }

  function DecodeLog(payload: Blob): Result<Frame> {
    var message :- LastText(payload);
    Ok(Log(message))
  }

  function Decode(ty: byte, id: Id, payload: Blob): Result<Frame> {
    match ty
    case 1 => DecodeOpenTcp(id, payload)
    case 2 => DecodeOpenTcpResult(id, payload)
    case 3 => Ok(Data(id, payload))
    case 4 => DecodeClose(id, payload)
    case 5 => DecodeUdpPacket(id, payload)
    case 6 => DecodeLog(payload)
    case _ => Err
  }

  // The layout on the wire

  lemma BeOf2(n: u16)
    ensures Be(2, n) == [n / 256, n % 256]
  {
    assert Be(0, n / 256 / 256) == [] && Be(1, n / 256) == [n / 256 % 256];
  }

  lemma BeOf4(n: u32)
    ensures Be(4, n) == [n / 0x100_0000, n / 0x1_0000 % 256, n / 256 % 256, n % 256]
  {
    var a, b, c := n / 256, n / 256 / 256, n / 256 / 256 / 256;
    assert b == n / 0x1_0000 && c == n / 0x100_0000;
    assert Be(1, c) == [c % 256] && Be(2, b) == Be(1, c) + [b % 256] && Be(3, a) == Be(2, b) + [a % 256];
  }

  lemma HeaderLayout(ty: byte, id: Id, len: u32)
    ensures Header(ty, id, len) == [ty, id / 0x100_0000, id / 0x1_0000 % 256, id / 256 % 256, id % 256,
                                    len / 0x100_0000, len / 0x1_0000 % 256, len / 256 % 256, len % 256]
  {
    BeOf4(id);
    BeOf4(len);
  }

  /** A frame on the wire: its type, its id and its length, most significant byte first, and its payload. */
  lemma WireLayout(f: Frame)
    requires Encodable(f)
    ensures var id: int := if f.Log? then 0 else f.id;
            var len := |Payload(f)|;
            var ty: byte := if f.OpenTcp? then 1 else if f.OpenTcpResult? then 2 else if f.Data? then 3
                            else if f.Close? then 4 else if f.UdpPacket? then 5 else 6;
            len <= 16 * 1024 * 1024 &&
            Encode(f) == [ty, id / 0x100_0000, id / 0x1_0000 % 256, id / 256 % 256, id % 256,
                          len / 0x100_0000, len / 0x1_0000 % 256, len / 256 % 256, len % 256] + Payload(f)
  {
    HeaderLayout(TypeOf(f), IdOf(f), |Payload(f)|);
  }

  /** A string in a payload: its length in two bytes, most significant first, and its bytes. */
  lemma StringLayout(t: Text)
    requires Fits(t)
    ensures |t| < 65536 && Str(t) == [|t| / 256, |t| % 256] + t
  {
    BeOf2(|t|);
  }

  // One frame

  lemma TakeU16OfBe(n: u16, rest: Blob)
    ensures TakeU16(Be(2, n) + rest) == Ok((n, rest))
  {
    Widths();
    FromBeOfBe(2, n);
    assert (Be(2, n) + rest)[..2] == Be(2, n) && (Be(2, n) + rest)[2..] == rest;
  }

  lemma TakeU32OfBe(n: u32, rest: Blob)
    ensures TakeU32(Be(4, n) + rest) == Ok((n, rest))
  {
    Widths();
    FromBeOfBe(4, n);
    assert (Be(4, n) + rest)[..4] == Be(4, n) && (Be(4, n) + rest)[4..] == rest;
  }

  lemma TakeTextOfStr(t: Text, rest: Blob)
    requires Fits(t)
    ensures TakeText(Str(t) + rest) == Ok((t, rest))
  {
    assert Str(t) + rest == Be(2, |t|) + (t + rest);
    TakeU16OfBe(|t|, t + rest);
    assert (t + rest)[..|t|] == t && (t + rest)[|t|..] == rest;
  }

  lemma LastTextOfStr(t: Text)
    requires Fits(t)
    ensures LastText(Str(t)) == Ok(t)
  {
    assert Str(t) + [] == Str(t);
    TakeTextOfStr(t, []);
  }

  lemma TakeEgressOf(egress: Option<Text>)
    requires egress.Some? ==> Fits(egress.value)
    ensures TakeEgress(Egress(egress)) == Ok((egress, []))
  {
    if egress.Some? {
      assert Egress(egress)[1..] == Str(egress.value) + [];
      TakeTextOfStr(egress.value, []);
    } else {
      assert Egress(egress)[1..] == [];
    }
  }

  lemma OpenTcpRoundTrip(id: Id, host: Text, port: u16, egress: Option<Text>)
    requires Fits(host) && (egress.Some? ==> Fits(egress.value))
    ensures DecodeOpenTcp(id, Str(host) + (Be(2, port) + Egress(egress))) == Ok(OpenTcp(id, host, port, egress))
  {
    TakeTextOfStr(host, Be(2, port) + Egress(egress));
    TakeU16OfBe(port, Egress(egress));
    TakeEgressOf(egress);
  }

  lemma OpenTcpResultRoundTrip(id: Id, ok: bool, message: Text)
    requires Fits(message)
    ensures DecodeOpenTcpResult(id, [if ok then 1 else 0] + Str(message)) == Ok(OpenTcpResult(id, ok, message))
  {
    var payload := [if ok then 1 else 0] + Str(message);
    assert payload[1..] == Str(message) && payload[..1] == [payload[0]];
    LastTextOfStr(message);
  }

  lemma UdpPacketRoundTrip(id: Id, host: Text, port: u16, data: Blob)
    requires Fits(host) && |data| < U32
    ensures DecodeUdpPacket(id, Str(host) + (Be(2, port) + (Be(4, |data|) + data))) == Ok(UdpPacket(id, host, port, data))
  {
    var tail := Be(4, |data|) + data;
    TakeTextOfStr(host, Be(2, port) + tail);
    TakeU16OfBe(port, tail);
    TakeU32OfBe(|data|, data);
  }

  /** Decoding an encoded payload gives the frame back. */
  lemma DecodeEncoded(f: Frame)
    requires Encodable(f)
    ensures Decode(TypeOf(f), IdOf(f), Payload(f)) == Ok(f)
  {
    match f
    case OpenTcp(id, host, port, egress) => OpenTcpRoundTrip(id, host, port, egress);
    case OpenTcpResult(id, ok, message) => OpenTcpResultRoundTrip(id, ok, message);
    case Data(_, _) =>
    case Close(_, reason) => LastTextOfStr(reason);
    case UdpPacket(id, host, port, data) => UdpPacketRoundTrip(id, host, port, data);
    case Log(message) => LastTextOfStr(message);
  }

  /** What follows the host and the port in an `OpenTcp` payload. */
  function OpenTail(payload: Blob): Result<Blob> {
    var (_, rest) :- TakeText(payload);
    var (_, rest) :- TakeU16(rest);
    Ok(rest)
  }

  /** The payload spells its flag byte, if it has one, the way the encoder does. */
  predicate Canonical(ty: byte, payload: Blob) {
    if ty == 1 then OpenTail(payload).Ok? && OpenTail(payload).value != [] && OpenTail(payload).value[0] <= 1
    else ty == 2 ==> payload != [] && payload[0] <= 1
  }

  lemma BeOfTakeU16(b: Blob)
    requires TakeU16(b).Ok?
    ensures b == Be(2, TakeU16(b).value.0) + TakeU16(b).value.1
  {
    assert b == b[..2] + b[2..];
    BeOfFromBe(b[..2]);
  }

  lemma BeOfTakeU32(b: Blob)
    requires TakeU32(b).Ok?
    ensures b == Be(4, TakeU32(b).value.0) + TakeU32(b).value.1
  {
    assert b == b[..4] + b[4..];
    BeOfFromBe(b[..4]);
  }

  lemma StrOfTakeText(b: Blob)
    requires TakeText(b).Ok?
    ensures Fits(TakeText(b).value.0) && b == Str(TakeText(b).value.0) + TakeText(b).value.1
  {
    BeOfTakeU16(b);
    var (n, rest) := TakeU16(b).value;
    assert rest == rest[..n] + rest[n..];
  }

  lemma Cancel(a: Blob, b: Blob, x: Blob, y: Blob)
    ensures a + (b + x) == a + (b + y) <==> x == y
  {
    assert (a + (b + x))[|a| + |b|..] == x && (a + (b + y))[|a| + |b|..] == y;
  }

  lemma EgressReencodes(tail: Blob)
    requires TakeEgress(tail).Ok? && TakeEgress(tail).value.1 == []
    ensures var egress := TakeEgress(tail).value.0;
            (egress.Some? ==> Fits(egress.value)) && (Egress(egress) == tail <==> tail != [] && tail[0] <= 1)
  {
    if tail != [] {
      assert tail == [tail[0]] + tail[1..];
      if tail[0] != 0 { StrOfTakeText(tail[1..]); }
    }
  }

  lemma OpenTcpReencodes(id: Id, payload: Blob)
    requires DecodeOpenTcp(id, payload).Ok?
    ensures var f := DecodeOpenTcp(id, payload).value;
            f.OpenTcp? && f.id == id && StringsFit(f) && (Payload(f) == payload <==> Canonical(1, payload))
  {
    StrOfTakeText(payload);
    var (host, rest) := TakeText(payload).value;
    BeOfTakeU16(rest);
    var (port, tail) := TakeU16(rest).value;
    EgressReencodes(tail);
    var egress := TakeEgress(tail).value.0;
    assert OpenTail(payload) == Ok(tail);
    Cancel(Str(host), Be(2, port), Egress(egress), tail);
  }

  lemma StrOfLastText(b: Blob)
    requires LastText(b).Ok?
    ensures Fits(LastText(b).value) && b == Str(LastText(b).value)
  {
    StrOfTakeText(b);
    assert Str(LastText(b).value) + [] == Str(LastText(b).value);
  }

  lemma OpenTcpResultReencodes(id: Id, payload: Blob)
    requires DecodeOpenTcpResult(id, payload).Ok?
    ensures var f := DecodeOpenTcpResult(id, payload).value;
            f.OpenTcpResult? && f.id == id && StringsFit(f) && (Payload(f) == payload <==> Canonical(2, payload))
  {
    assert payload == [payload[0]] + payload[1..];
    StrOfLastText(payload[1..]);
  }

  lemma UdpPacketReencodes(id: Id, payload: Blob)
    requires DecodeUdpPacket(id, payload).Ok?
    ensures var f := DecodeUdpPacket(id, payload).value;
            f.UdpPacket? && f.id == id && StringsFit(f) && Payload(f) == payload
  {
    StrOfTakeText(payload);
    var rest := TakeText(payload).value.1;
    BeOfTakeU16(rest);
    BeOfTakeU32(TakeU16(rest).value.1);
  }

  /**
   A payload that decodes names exactly one frame, and encoding that frame gives the payload back
   exactly when the payload's flag bytes are canonical.
   */
  lemma DecodedReencodes(ty: byte, id: Id, payload: Blob)
    requires Decode(ty, id, payload).Ok?
    ensures var f := Decode(ty, id, payload).value;
            && TypeOf(f) == ty && (f.Log? || f.id == id) && StringsFit(f)
            && (Payload(f) == payload <==> Canonical(ty, payload))
  {
    if ty == 1 {
      OpenTcpReencodes(id, payload);
    } else if ty == 2 {
      OpenTcpResultReencodes(id, payload);
    } else if ty == 4 || ty == 6 {
      StrOfLastText(payload);
    } else if ty == 5 {
      UdpPacketReencodes(id, payload);
    }
  }

  /** How the egress proxy may be spelled at the end of a payload: any flag byte but 0 announces one. */
  predicate SpellsEgress(tail: Blob, egress: Option<Text>) {
    match egress
    case None => tail == [] || tail == [0]
    case Some(text) => Fits(text) && tail != [] && tail[0] != 0 && tail[1..] == Str(text)
  }

  predicate SpellsOpen(payload: Blob, host: Text, port: u16, egress: Option<Text>) {
    Fits(host) &&
    var head := Str(host) + Be(2, port);
    head <= payload && SpellsEgress(payload[|head|..], egress)
  }

  predicate SpellsResult(payload: Blob, ok: bool, message: Text) {
    Fits(message) && payload != [] && (ok <==> payload[0] != 0) && payload[1..] == Str(message)
  }

  /** The payload is a spelling of the frame: the encoder's, up to the flag bytes and a missing egress. */
  predicate Spells(payload: Blob, f: Frame) {
    match f
    case OpenTcp(_, host, port, egress) => SpellsOpen(payload, host, port, egress)
    case OpenTcpResult(_, ok, message) => SpellsResult(payload, ok, message)
    case UdpPacket(_, _, _, data) => StringsFit(f) && |data| < U32 && payload == Payload(f)
    case _ => StringsFit(f) && payload == Payload(f)
  }

  lemma EgressExactly(tail: Blob, egress: Option<Text>)
    ensures TakeEgress(tail) == Ok((egress, [])) <==> SpellsEgress(tail, egress)
  {
    if tail != [] && tail[0] != 0 {
      if TakeText(tail[1..]).Ok? { StrOfTakeText(tail[1..]); }
      if egress.Some? && Fits(egress.value) {
        assert Str(egress.value) + [] == Str(egress.value);
        TakeTextOfStr(egress.value, []);
      }
    }
  }

  lemma OpenOfSpelled(id: Id, payload: Blob, host: Text, port: u16, egress: Option<Text>)
    requires SpellsOpen(payload, host, port, egress)
    ensures DecodeOpenTcp(id, payload) == Ok(OpenTcp(id, host, port, egress))
  {
    var head := Str(host) + Be(2, port);
    var tail := payload[|head|..];
    assert payload == Str(host) + (Be(2, port) + tail) by {
      SplitAt(payload, |head|);
      Associate(Str(host), Be(2, port), tail);
    }
    TakeTextOfStr(host, Be(2, port) + tail);
    TakeU16OfBe(port, tail);
    EgressExactly(tail, egress);
  }

  lemma SpelledOfOpen(id: Id, payload: Blob, host: Text, port: u16, egress: Option<Text>)
    requires DecodeOpenTcp(id, payload) == Ok(OpenTcp(id, host, port, egress))
    ensures SpellsOpen(payload, host, port, egress)
  {
    StrOfTakeText(payload);
    var rest := TakeText(payload).value.1;
    BeOfTakeU16(rest);
    var tail := TakeU16(rest).value.1;
    var head := Str(host) + Be(2, port);
    assert payload == head + tail by { Associate(Str(host), Be(2, port), tail); }
    DropPrefix(head, tail);
    EgressExactly(tail, egress);
  }

  lemma ResultExactly(id: Id, payload: Blob, ok: bool, message: Text)
    ensures DecodeOpenTcpResult(id, payload) == Ok(OpenTcpResult(id, ok, message)) <==> SpellsResult(payload, ok, message)
  {
    if payload != [] && LastText(payload[1..]).Ok? { StrOfLastText(payload[1..]); }
    if Fits(message) { LastTextOfStr(message); }
  }

  lemma DecodedIsSpelled(ty: byte, id: Id, payload: Blob, f: Frame)
    requires Decode(ty, id, payload) == Ok(f)
    ensures Spells(payload, f)
  {
    DecodedReencodes(ty, id, payload);
    match f
    case OpenTcp(_, host, port, egress) => SpelledOfOpen(id, payload, host, port, egress);
    case OpenTcpResult(_, ok, message) => ResultExactly(id, payload, ok, message);
    case _ =>
  }

  lemma TextDecodes(id: Id, text: Text)
    requires Fits(text)
    ensures DecodeClose(id, Str(text)) == Ok(Close(id, text)) && DecodeLog(Str(text)) == Ok(Log(text))
  {
    LastTextOfStr(text);
  }

  lemma SpelledDecodes(ty: byte, id: Id, payload: Blob, f: Frame)
    requires TypeOf(f) == ty && (f.Log? || f.id == id) && Spells(payload, f)
    ensures Decode(ty, id, payload) == Ok(f)
  {
    match f
    case OpenTcp(_, host, port, egress) => OpenOfSpelled(id, payload, host, port, egress);
    case OpenTcpResult(_, ok, message) => ResultExactly(id, payload, ok, message);
    case Data(_, _) =>
    case Close(_, reason) => TextDecodes(id, reason);
    case UdpPacket(_, host, port, data) => UdpPacketRoundTrip(id, host, port, data);
    case Log(message) => TextDecodes(id, message);
  }

  /** A payload is read as a frame if and only if the frame has that type and id and the payload spells it. */
  lemma DecodesExactly(ty: byte, id: Id, payload: Blob, f: Frame)
    ensures Decode(ty, id, payload) == Ok(f) <==> TypeOf(f) == ty && (f.Log? || f.id == id) && Spells(payload, f)
  {
    if Decode(ty, id, payload) == Ok(f) {
      DecodedReencodes(ty, id, payload);
      DecodedIsSpelled(ty, id, payload, f);
    } else if TypeOf(f) == ty && (f.Log? || f.id == id) && Spells(payload, f) {
      SpelledDecodes(ty, id, payload, f);
    }
  }

  /** A result whose flag byte is neither 0 nor 1 is accepted, and written back with 1. */
  lemma FlagRewritten(id: Id, flag: byte, message: Text)
    requires Fits(message) && flag > 1
    ensures var f := OpenTcpResult(id, true, message);
            Decode(2, id, [flag] + Str(message)) == Ok(f) && Payload(f) != [flag] + Str(message)
  {
    var payload: Blob := [flag] + Str(message);
    assert payload[1..] == Str(message);
    ResultExactly(id, payload, true, message);
    assert Payload(OpenTcpResult(id, true, message))[0] == 1 && payload[0] == flag;
  }

  /** An open request without an egress byte, as older peers send it, is accepted, and written back with one. */
  lemma EgressByteAdded(id: Id, host: Text, port: u16)
    requires Fits(host)
    ensures var f := OpenTcp(id, host, port, None);
            Decode(1, id, Str(host) + Be(2, port)) == Ok(f) && Payload(f) != Str(host) + Be(2, port)
  {
    TakeTextOfStr(host, Be(2, port));
    TakeU16OfBe(port, []);
    assert Be(2, port) + [] == Be(2, port);
  }

  // Streams of frames

  /** One `FrameReader::read_from`: a short header is the end of the stream, a short payload an error. */
  function ReadFrame(b: Blob): (r: Outcome<Frame>)
    ensures r.Got? ==> |r.rest| < |b|
  {
    if |b| < HEADER then End
    else
      var len := FromBe(b[5..9]);
      if len > MAX_FRAME || |b| < HEADER + len then Bad
      else
        var frame := Decode(b[0], (Widths(); FromBe(b[1..5])), b[HEADER..HEADER + len]);
        if frame.Ok? then Got(frame.value, b[HEADER + len..]) else Bad
  }

  lemma HeaderFields(ty: byte, id: Id, len: u32, rest: Blob)
    ensures var b := Header(ty, id, len) + rest;
            b[0] == ty && FromBe(b[1..5]) == id && FromBe(b[5..9]) == len && b[9..] == rest
  {
    var b := Header(ty, id, len) + rest;
    Widths();
    FromBeOfBe(4, id);
    FromBeOfBe(4, len);
    assert b[1..5] == Be(4, id) && b[5..9] == Be(4, len) && b[9..] == rest;
  }

  /** A reader that starts at a frame reads it and stops at its last byte. */
  lemma ReadEncoded(f: Frame, rest: Blob)
    requires Encodable(f)
    ensures ReadFrame(Encode(f) + rest) == Got(f, rest)
  {
    var b, p := Encode(f) + rest, Payload(f);
    assert b == Header(TypeOf(f), IdOf(f), |p|) + (p + rest);
    HeaderFields(TypeOf(f), IdOf(f), |p|, p + rest);
    assert b[HEADER..HEADER + |p|] == b[HEADER..][..|p|] == p && b[HEADER + |p|..] == b[HEADER..][|p|..] == rest;
    DecodeEncoded(f);
  }

  lemma HeaderOf(b: Blob)
    requires |b| >= HEADER
    ensures FromBe(b[1..5]) < U32 && FromBe(b[5..9]) < U32
    ensures b == Header(b[0], FromBe(b[1..5]), FromBe(b[5..9])) + b[HEADER..]
  {
    Widths();
    BeOfFromBe(b[1..5]);
    BeOfFromBe(b[5..9]);
  }

  /** `b` starts with a header and a payload that spells the frame. */
  predicate StartsWithFrame(b: Blob, ty: byte, id: Id, payload: Blob, f: Frame, rest: Blob) {
    && |payload| <= MAX_FRAME && b == Header(ty, id, |payload|) + (payload + rest)
    && TypeOf(f) == ty && (f.Log? || f.id == id) && Spells(payload, f)
  }

  lemma ReadsSpelled(b: Blob, ty: byte, id: Id, payload: Blob, f: Frame, rest: Blob)
    requires StartsWithFrame(b, ty, id, payload, f, rest)
    ensures ReadFrame(b) == Got(f, rest)
  {
    HeaderFields(ty, id, |payload|, payload + rest);
    SliceAt(b, HEADER, payload, rest);
    assert b[HEADER + |payload|..] == b[HEADER..][|payload|..] == rest;
    DecodesExactly(ty, id, payload, f);
  }

  lemma PayloadAt(b: Blob, len: nat)
    requires HEADER + len <= |b|
    ensures b[HEADER..] == b[HEADER..HEADER + len] + b[HEADER + len..]
  {
  }

  lemma FrameRead(b: Blob, f: Frame, rest: Blob) returns (ty: byte, id: Id, payload: Blob)
    requires ReadFrame(b) == Got(f, rest)
    ensures StartsWithFrame(b, ty, id, payload, f, rest)
  {
    HeaderOf(b);
    var len := FromBe(b[5..9]);
    ty, id, payload := b[0], FromBe(b[1..5]), b[HEADER..HEADER + len];
    PayloadAt(b, len);
    assert Decode(ty, id, payload) == Ok(f) && rest == b[HEADER + len..];
    DecodesExactly(ty, id, payload, f);
  }

  /** A reader gets a frame if and only if it is at a header of allowed length with a whole payload that spells it. */
  lemma ReadExactly(b: Blob, f: Frame, rest: Blob)
    ensures ReadFrame(b) == Got(f, rest) <==> exists ty, id, payload :: StartsWithFrame(b, ty, id, payload, f, rest)
    ensures ReadFrame(b) == End <==> |b| < HEADER
  {
    if ReadFrame(b) == Got(f, rest) {
      var ty, id, payload := FrameRead(b, f, rest);
    }
    if ty, id, payload :| StartsWithFrame(b, ty, id, payload, f, rest) {
      ReadsSpelled(b, ty, id, payload, f, rest);
    }
  }

  /** A reader that is cut off inside a frame reports the end inside the header and an error after it. */
  lemma ReadTruncated(f: Frame, k: nat)
    requires Encodable(f) && k < |Encode(f)|
    ensures ReadFrame(Encode(f)[..k]) == if k < HEADER then End else Bad
  {
    var p := Payload(f);
    if k >= HEADER {
      HeaderFields(TypeOf(f), IdOf(f), |p|, p);
      assert Encode(f)[..k][5..9] == Encode(f)[5..9];
    }
  }

  lemma FramesUndo()
    ensures Undoes(Encodable, Wire, ReadFrame)
  {
    forall f: Frame, rest: Blob | Encodable(f) ensures ReadFrame(Wire(f) + rest) == Got(f, rest) {
      ReadEncoded(f, rest);
    }
  }

  lemma FramesNoPartial()
    ensures NoPartial(Encodable, Wire, ReadFrame)
  {
    forall f: Frame, k | Encodable(f) && 0 <= k < |Wire(f)| ensures !ReadFrame(Wire(f)[..k]).Got? {
      ReadTruncated(f, k);
    }
  }

  lemma FramesConsume()
    ensures Consumes(ReadFrame)
  {
  }

  ghost predicate AllEncodable(fs: seq<Frame>) { forall f :: f in fs ==> Encodable(f) }

  lemma LeftoverOutcome(fs: seq<Frame>, k: nat)
    requires AllEncodable(fs) && k <= |EncodeAll(Wire, fs)|
    ensures ReadFrame(Leftover(Wire, fs, k)) == if |Leftover(Wire, fs, k)| < HEADER then End else Bad
  {
    if k < |EncodeAll(Wire, fs)| {
      var f, j := LeftoverIsPart(Wire, fs, k);
      ReadTruncated(f, j);
    } else {
      NoLeftover(Wire, fs);
    }
  }

  /**
   A reader loop on any prefix of an encoded frame stream gets exactly the frames that lie wholly
   within the prefix; then the end of the stream if the cut leaves less than a header, else an error.
   */
  lemma FramePrefix(fs: seq<Frame>, k: nat)
    requires AllEncodable(fs) && k <= |EncodeAll(Wire, fs)|
    ensures Consumes(ReadFrame)
    ensures ReadAll(ReadFrame, EncodeAll(Wire, fs)[..k])
         == (fs[..Whole(Wire, fs, k)], if |Leftover(Wire, fs, k)| < HEADER then End else Bad)
  {
    FramesConsume();
    FramesUndo();
    FramesNoPartial();
    ReadPrefix(Encodable, Wire, ReadFrame, fs, k);
    LeftoverOutcome(fs, k);
  }

  /** A reader loop on a whole encoded frame stream gets its frames back in order and ends cleanly. */
  lemma FrameStreamRoundTrip(fs: seq<Frame>)
    requires AllEncodable(fs)
    ensures Consumes(ReadFrame) && ReadAll(ReadFrame, EncodeAll(Wire, fs)) == (fs, End)
  {
    FramesConsume();
    FramesUndo();
    ReadAllAppends(Encodable, Wire, ReadFrame, fs, []);
    assert EncodeAll(Wire, fs) + [] == EncodeAll(Wire, fs) && fs + [] == fs;
  }
}
