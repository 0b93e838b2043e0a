/**
 Bytes, fixed-width integers and their big-endian encodings, and the UTF-8
 well-formedness test that `String::from_utf8` applies.
 */
module Bytes {

  datatype Option<+T> = None | Some(value: T)

  datatype Result<+T> = Ok(value: T) | Err {
    predicate IsFailure() { Err? }

    function PropagateFailure<U>(): Result<U>
      requires Err?
    {
      Err
    }

    function Extract(): T
      requires Ok?
    {
      value
    }
  }

  const U16 := 0x1_0000
  const U32 := 0x1_0000_0000

  type byte = b: int | 0 <= b < 0x100
  type u16 = n: int | 0 <= n < U16
  type u32 = n: int | 0 <= n < U32

  type Blob = seq<byte>

  /** The bytes of a Rust `String`: always well-formed UTF-8. */
  type Text = s: Blob | Utf8(s) witness []

  // Big-endian integers of `w` bytes; encoding keeps the low `w` bytes, as an `as` cast does

  function Pow256(w: nat): nat { if w == 0 then 1 else 256 * Pow256(w - 1) }

  function Be(w: nat, n: nat): (b: Blob)
    ensures |b| == w
  {
    if w == 0 then [] else Be(w - 1, n / 256) + [n % 256]
  }

  function FromBe(b: Blob): (n: nat)
    ensures n < Pow256(|b|)
  {
    if b == [] then 0
    else
      var last: int := b[|b| - 1];
      256 * FromBe(b[..|b| - 1]) + last
  }

  lemma Widths()
    ensures Pow256(2) == U16 && Pow256(4) == U32
  {
    assert Pow256(2) == 256 * Pow256(1) && Pow256(1) == 256;
    assert Pow256(4) == 256 * Pow256(3) && Pow256(3) == 256 * Pow256(2);
  }

  lemma {:induction false} FromBeOfBe(w: nat, n: nat)
    requires n < Pow256(w)
    ensures FromBe(Be(w, n)) == n
  {
    if w > 0 {
      FromBeOfBe(w - 1, n / 256);
      assert Be(w, n)[..w - 1] == Be(w - 1, n / 256);
    }
  }

  lemma {:induction false} BeOfFromBe(b: Blob)
    ensures Be(|b|, FromBe(b)) == b
  {
    if b != [] {
      var init := b[..|b| - 1];
      BeOfFromBe(init);
      assert FromBe(b) / 256 == FromBe(init) && FromBe(b) % 256 == b[|b| - 1];
      assert b == init + [b[|b| - 1]];
    }
  }

  predicate Continuation(b: byte) { 0x80 <= b <= 0xBF }

  /** The length of the well-formed sequence at the head of `s`, or 0 (Unicode, Table 3-7). */
  function Utf8Head(s: Blob): (n: nat)
    requires s != []
    ensures n <= |s|
  {
    if s[0] <= 0x7F then 1
    else if |s| >= 2 && 0xC2 <= s[0] <= 0xDF && Continuation(s[1]) then 2
    else if |s| >= 3 && Continuation(s[2]) &&
            (if s[0] == 0xE0 then 0xA0 <= s[1] <= 0xBF
             else if s[0] == 0xED then 0x80 <= s[1] <= 0x9F
             else 0xE1 <= s[0] <= 0xEF && Continuation(s[1])) then 3
    else if |s| >= 4 && Continuation(s[2]) && Continuation(s[3]) &&
            (if s[0] == 0xF0 then 0x90 <= s[1] <= 0xBF
             else if s[0] == 0xF4 then 0x80 <= s[1] <= 0x8F
             else 0xF1 <= s[0] <= 0xF3 && Continuation(s[1])) then 4
    else 0
  }

  predicate Utf8(s: Blob) {
    s == [] || (Utf8Head(s) > 0 && Utf8(s[Utf8Head(s)..]))
  }
}
