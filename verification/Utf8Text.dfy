/**
 The strings that frames carry: the byte sequences that `String::from_utf8` accepts
 are exactly the UTF-8 encodings of sequences of Unicode scalar values.
 */
module Utf8Text {
  import opened Bytes
  import opened Sequences

  predicate Scalar(c: int) { 0 <= c <= 0x10FFFF && !(0xD800 <= c <= 0xDFFF) }

  /** The UTF-8 encoding of one scalar value (table 3-6 of the Unicode Standard). */
  function EncodeScalar(c: int): Blob
    requires Scalar(c)
  {
    if c <= 0x7F then [c]
    else if c <= 0x7FF then [0xC0 + c / 64, 0x80 + c % 64]
    else if c <= 0xFFFF then [0xE0 + c / 4096, 0x80 + c / 64 % 64, 0x80 + c % 64]
    else [0xF0 + c / 262144, 0x80 + c / 4096 % 64, 0x80 + c / 64 % 64, 0x80 + c % 64]
  }

  predicate AllScalars(cs: seq<int>) { forall i :: 0 <= i < |cs| ==> Scalar(cs[i]) }

  function EncodeScalars(cs: seq<int>): Blob
    requires AllScalars(cs)
  {
    if cs == [] then [] else EncodeScalar(cs[0]) + EncodeScalars(cs[1..])
  }

  lemma HeadOfScalar(c: int, rest: Blob)
    requires Scalar(c)
    ensures Utf8Head(EncodeScalar(c) + rest) == |EncodeScalar(c)|
  {
  }

  lemma {:induction false} EncodedIsUtf8(cs: seq<int>)
    requires AllScalars(cs)
    ensures Utf8(EncodeScalars(cs))
  {
    if cs != [] {
      var rest := EncodeScalars(cs[1..]);
      EncodedIsUtf8(cs[1..]);
      HeadOfScalar(cs[0], rest);
      DropPrefix(EncodeScalar(cs[0]), rest);
    }
  }

  lemma TwoBytes(a: byte, b: byte) returns (c: int)
    requires 0xC2 <= a <= 0xDF && Continuation(b)
    ensures Scalar(c) && EncodeScalar(c) == [a, b]
  {
    c := (a - 0xC0) * 64 + (b - 0x80);
  }

  lemma ThreeBytes(a: byte, b: byte, d: byte) returns (c: int)
    requires Continuation(d) && Continuation(b) && 0xE0 <= a <= 0xEF
    requires (a == 0xE0 ==> b >= 0xA0) && (a == 0xED ==> b <= 0x9F)
    ensures Scalar(c) && EncodeScalar(c) == [a, b, d]
  {
    c := (a - 0xE0) * 4096 + (b - 0x80) * 64 + (d - 0x80);
    assert c / 64 == (a - 0xE0) * 64 + (b - 0x80);
  }

  lemma FourBytes(a: byte, b: byte, d: byte, e: byte) returns (c: int)
    requires Continuation(b) && Continuation(d) && Continuation(e) && 0xF0 <= a <= 0xF4
    requires (a == 0xF0 ==> b >= 0x90) && (a == 0xF4 ==> b <= 0x8F)
    ensures Scalar(c) && EncodeScalar(c) == [a, b, d, e]
  {
    c := (a - 0xF0) * 262144 + (b - 0x80) * 4096 + (d - 0x80) * 64 + (e - 0x80);
    assert c / 64 == (a - 0xF0) * 4096 + (b - 0x80) * 64 + (d - 0x80);
    assert c / 4096 == (a - 0xF0) * 64 + (b - 0x80);
  }

  lemma ScalarOfHead(s: Blob) returns (c: int)
    requires s != [] && Utf8Head(s) > 0
    ensures Scalar(c) && s[..Utf8Head(s)] == EncodeScalar(c)
  {
    var n := Utf8Head(s);
    if n == 1 {
      c := s[0];
    } else if n == 2 {
      c := TwoBytes(s[0], s[1]);
    } else if n == 3 {
      c := ThreeBytes(s[0], s[1], s[2]);
    } else {
      c := FourBytes(s[0], s[1], s[2], s[3]);
    }
  }

  lemma {:induction false} Utf8IsEncoded(s: Blob) returns (cs: seq<int>)
    requires Utf8(s)
    ensures AllScalars(cs) && s == EncodeScalars(cs)
    decreases |s|
  {
    if s == [] {
      cs := [];
    } else {
      var c := ScalarOfHead(s);
      var rest := Utf8IsEncoded(s[Utf8Head(s)..]);
      SplitAt(s, Utf8Head(s));
      cs := [c] + rest;
      assert cs[1..] == rest;
    }
  }

  /** A byte sequence is accepted as a string if and only if it encodes a sequence of scalar values. */
  lemma Utf8Iff(s: Blob)
    ensures Utf8(s) <==> exists cs :: AllScalars(cs) && s == EncodeScalars(cs)
  {
    if Utf8(s) {
      var cs := Utf8IsEncoded(s);
    }
    if cs :| AllScalars(cs) && s == EncodeScalars(cs) {
      EncodedIsUtf8(cs);
    }
  }
}
