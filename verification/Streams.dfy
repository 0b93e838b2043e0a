/**
 Streams of self-delimiting items, for any encoder and any reader of one item:
 what a reader loop gets from the concatenation of encoded items, and from any
 prefix of it.
 */
module Streams {
  import opened Bytes
  import opened Sequences

  /** One read: an item and the bytes after it, the end of the stream, or an error. */
  datatype Outcome<+T> = Got(item: T, rest: Blob) | End | Bad

  ghost predicate Consumes<T(!new)>(read: Blob -> Outcome<T>) {
    forall b :: read(b).Got? ==> |read(b).rest| < |b|
  }

  /** The reader undoes the encoder on the items that are `ok`, whatever follows. */
  ghost predicate Undoes<T(!new)>(ok: T -> bool, enc: T -> Blob, read: Blob -> Outcome<T>) {
    forall x, rest {:trigger enc(x) + rest} :: ok(x) ==> read(enc(x) + rest) == Got(x, rest)
  }

  /** The reader gets no item from a proper part of an encoded item. */
  ghost predicate NoPartial<T(!new)>(ok: T -> bool, enc: T -> Blob, read: Blob -> Outcome<T>) {
    forall x, k {:trigger enc(x)[..k]} :: ok(x) && 0 <= k < |enc(x)| ==> !read(enc(x)[..k]).Got?
  }

  function EncodeAll<T>(enc: T -> Blob, xs: seq<T>): Blob {
    if xs == [] then [] else enc(xs[0]) + EncodeAll(enc, xs[1..])
  }

  /** All items up to the end of the stream or the first error, and the read that stopped the loop. */
  function ReadAll<T(!new)>(read: Blob -> Outcome<T>, b: Blob): (r: (seq<T>, Outcome<T>))
    requires Consumes(read)
    ensures !r.1.Got?
    decreases |b|
  {
    if read(b).Got? then
      var (xs, last) := ReadAll(read, read(b).rest);
      ([read(b).item] + xs, last)
    else ([], read(b))
  }

  lemma ReadAllStep<T(!new)>(read: Blob -> Outcome<T>, b: Blob, xs: seq<T>)
    requires Consumes(read) && read(b).Got?
    ensures (xs + ReadAll(read, b).0, ReadAll(read, b).1)
         == (xs + [read(b).item] + ReadAll(read, read(b).rest).0, ReadAll(read, read(b).rest).1)
  {
    Associate(xs, [read(b).item], ReadAll(read, read(b).rest).0);
  }

  /** How many of the items lie wholly within the first `k` bytes of their encoding. */
  function Whole<T>(enc: T -> Blob, xs: seq<T>, k: nat): (n: nat)
    ensures n <= |xs|
  {
    if xs == [] || k < |enc(xs[0])| then 0 else 1 + Whole(enc, xs[1..], k - |enc(xs[0])|)
  }

  /** The bytes left over after those items. */
  function Leftover<T>(enc: T -> Blob, xs: seq<T>, k: nat): Blob {
    if xs == [] then []
    else if k < |enc(xs[0])| then enc(xs[0])[..k]
    else Leftover(enc, xs[1..], k - |enc(xs[0])|)
  }

  /** What is left over is nothing, or a proper part of one item. */
  lemma {:induction false} LeftoverIsPart<T(!new)>(enc: T -> Blob, xs: seq<T>, k: nat) returns (x: T, j: nat)
    requires xs != [] && k < |EncodeAll(enc, xs)|
    ensures x in xs && j < |enc(x)| && Leftover(enc, xs, k) == enc(x)[..j]
    decreases |xs|
  {
    if k < |enc(xs[0])| {
      x, j := xs[0], k;
    } else {
      x, j := LeftoverIsPart(enc, xs[1..], k - |enc(xs[0])|);
    }
  }

  lemma {:induction false} NoLeftover<T>(enc: T -> Blob, xs: seq<T>)
    ensures Leftover(enc, xs, |EncodeAll(enc, xs)|) == []
  {
    if xs != [] { NoLeftover(enc, xs[1..]); }
  }

  /** A prefix of an encoded stream is its whole items and what is left over. */
  lemma {:induction false} PrefixSplits<T>(enc: T -> Blob, xs: seq<T>, k: nat)
    requires k <= |EncodeAll(enc, xs)|
    ensures EncodeAll(enc, xs)[..k] == EncodeAll(enc, xs[..Whole(enc, xs, k)]) + Leftover(enc, xs, k)
    decreases |xs|
  {
    if xs != [] && k >= |enc(xs[0])| {
      var e, tail := enc(xs[0]), xs[1..];
      var n := Whole(enc, tail, k - |e|);
      PrefixSplits(enc, tail, k - |e|);
      assert xs[..n + 1][1..] == tail[..n];
      assert EncodeAll(enc, xs)[..k] == e + EncodeAll(enc, tail)[..k - |e|];
    }
  }

  /** A reader loop on whole items followed by `rest` gets the items, then what it gets from `rest`. */
  lemma {:induction false} ReadAllAppends<T(!new)>(ok: T -> bool, enc: T -> Blob, read: Blob -> Outcome<T>, xs: seq<T>, rest: Blob)
    requires Consumes(read) && Undoes(ok, enc, read) && forall x :: x in xs ==> ok(x)
    ensures ReadAll(read, EncodeAll(enc, xs) + rest) == (xs + ReadAll(read, rest).0, ReadAll(read, rest).1)
  {
    if xs == [] {
      assert [] + rest == rest && xs + ReadAll(read, rest).0 == ReadAll(read, rest).0;
    } else {
      var tail := EncodeAll(enc, xs[1..]) + rest;
      assert EncodeAll(enc, xs) + rest == enc(xs[0]) + tail;
      ReadAllAppends(ok, enc, read, xs[1..], rest);
      assert [xs[0]] + (xs[1..] + ReadAll(read, rest).0) == xs + ReadAll(read, rest).0;
    }
  }

  lemma NoItemLeft<T(!new)>(ok: T -> bool, enc: T -> Blob, read: Blob -> Outcome<T>, xs: seq<T>, k: nat)
    requires NoPartial(ok, enc, read) && k <= |EncodeAll(enc, xs)| && !read([]).Got? && forall x :: x in xs ==> ok(x)
    ensures !read(Leftover(enc, xs, k)).Got?
  {
    if k < |EncodeAll(enc, xs)| {
      var x, j := LeftoverIsPart(enc, xs, k);
    } else {
      NoLeftover(enc, xs);
    }
  }

  /** Reading a prefix of an encoded stream gives exactly its whole items, then no item from the rest. */
  lemma ReadPrefix<T(!new)>(ok: T -> bool, enc: T -> Blob, read: Blob -> Outcome<T>, xs: seq<T>, k: nat)
    requires Consumes(read) && Undoes(ok, enc, read) && NoPartial(ok, enc, read) && forall x :: x in xs ==> ok(x)
    requires k <= |EncodeAll(enc, xs)|
    ensures ReadAll(read, EncodeAll(enc, xs)[..k]) == (xs[..Whole(enc, xs, k)], read(Leftover(enc, xs, k)))
  {
    var n, left := Whole(enc, xs, k), Leftover(enc, xs, k);
    PrefixSplits(enc, xs, k);
    ReadAllAppends(ok, enc, read, xs[..n], left);
    NoItemLeft(ok, enc, read, xs, k);
    assert xs[..n] + [] == xs[..n];
  }

  lemma {:induction false} EncodeAllConcat<T>(enc: T -> Blob, a: seq<T>, b: seq<T>)
    ensures EncodeAll(enc, a + b) == EncodeAll(enc, a) + EncodeAll(enc, b)
  {
    if a == [] {
      assert a + b == b;
    } else {
      assert (a + b)[0] == a[0] && (a + b)[1..] == a[1..] + b;
      EncodeAllConcat(enc, a[1..], b);
    }
  }

  // Writers

  /** `after` is `before` and a proper part of the bytes of `x` (none for an item that is refused). */
  ghost predicate CutOff<T(!new)>(ok: T -> bool, enc: T -> Blob, before: Blob, after: Blob, x: T) {
    exists k :: 0 <= k <= |enc(x)| && (ok(x) ==> k < |enc(x)|) && after == before + enc(x)[..k]
  }

  /** `after` is `before`, the bytes of the first `m` items, and perhaps a proper part of the next one's. */
  ghost predicate WrotePart<T(!new)>(ok: T -> bool, enc: T -> Blob, before: Blob, after: Blob, xs: seq<T>, m: nat) {
    && m <= |xs| && (forall x :: x in xs[..m] ==> ok(x))
    && var done := before + EncodeAll(enc, xs[..m]);
       after == done || (m < |xs| && CutOff(ok, enc, done, after, xs[m]))
  }

  /** A writer has `sent` these of `all` the items and has these `left`. */
  ghost predicate Progress<T(!new)>(ok: T -> bool, enc: T -> Blob, before: Blob, after: Blob, all: seq<T>, sent: seq<T>, left: seq<T>) {
    all == sent + left && (forall x :: x in sent ==> ok(x)) && after == before + EncodeAll(enc, sent)
  }

  lemma ProgressStarts<T(!new)>(ok: T -> bool, enc: T -> Blob, before: Blob, all: seq<T>)
    ensures Progress(ok, enc, before, before, all, [], all)
  {
  }

  /** Writing more whole items. */
  lemma ProgressMore<T(!new)>(ok: T -> bool, enc: T -> Blob, before: Blob, after: Blob, later: Blob,
                              all: seq<T>, sent: seq<T>, more: seq<T>, left: seq<T>)
    requires Progress(ok, enc, before, after, all, sent, more + left) && (forall x :: x in more ==> ok(x))
    requires later == after + EncodeAll(enc, more)
    ensures Progress(ok, enc, before, later, all, sent + more, left)
  {
    EncodeAllConcat(enc, sent, more);
    Associate(sent, more, left);
    Associate(before, EncodeAll(enc, sent), EncodeAll(enc, more));
  }

  lemma EncodeOne<T>(enc: T -> Blob, x: T)
    ensures EncodeAll(enc, [x]) == enc(x)
  {
    assert enc(x) + [] == enc(x);
  }

  /** A write that is cut off in the middle of a later batch is cut off in the middle of the whole. */
  lemma ProgressCut<T(!new)>(ok: T -> bool, enc: T -> Blob, before: Blob, after: Blob, later: Blob,
                             all: seq<T>, sent: seq<T>, left: seq<T>, m: nat)
    requires Progress(ok, enc, before, after, all, sent, left) && WrotePart(ok, enc, after, later, left, m)
    ensures WrotePart(ok, enc, before, later, all, |sent| + m)
  {
    assert all[..|sent| + m] == sent + left[..m] && (m < |left| ==> all[|sent| + m] == left[m]);
    EncodeAllConcat(enc, sent, left[..m]);
    assert before + (EncodeAll(enc, sent) + EncodeAll(enc, left[..m])) == after + EncodeAll(enc, left[..m]);
  }

  /** A writer may also fail between two items, or after the last. */
  lemma ProgressStops<T(!new)>(ok: T -> bool, enc: T -> Blob, before: Blob, after: Blob,
                               all: seq<T>, sent: seq<T>, left: seq<T>)
    requires Progress(ok, enc, before, after, all, sent, left)
    ensures WrotePart(ok, enc, before, after, all, |sent|)
  {
    assert all[..|sent|] == sent;
  }

  lemma FirstCut<T(!new)>(ok: T -> bool, enc: T -> Blob, before: Blob, after: Blob, xs: seq<T>)
    requires xs != [] && CutOff(ok, enc, before, after, xs[0])
    ensures WrotePart(ok, enc, before, after, xs, 0)
  {
    assert xs[..0] == [] && before + [] == before;
  }

  /** From what a failed writer leaves behind, a reader gets exactly the items before the failure. */
  lemma PartReads<T(!new)>(ok: T -> bool, enc: T -> Blob, read: Blob -> Outcome<T>,
                           before: Blob, after: Blob, xs: seq<T>, m: nat)
    requires Consumes(read) && Undoes(ok, enc, read) && NoPartial(ok, enc, read) && !read([]).Got?
    requires WrotePart(ok, enc, before, after, xs, m) && (m < |xs| && !ok(xs[m]) ==> enc(xs[m]) == [])
    ensures before <= after && ReadAll(read, after[|before|..]).0 == xs[..m]
  {
    var done := EncodeAll(enc, xs[..m]);
    var cut := after[|before + done|..];
    assert after[|before|..] == done + cut;
    assert !read(cut).Got? by {
      if cut != [] {
        var k :| 0 <= k <= |enc(xs[m])| && (ok(xs[m]) ==> k < |enc(xs[m])|) && after == before + done + enc(xs[m])[..k];
        assert cut == enc(xs[m])[..k];
      }
    }
    ReadAllAppends(ok, enc, read, xs[..m], cut);
    assert xs[..m] + [] == xs[..m];
  }
}
