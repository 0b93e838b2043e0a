/** Facts about sequences of any kind. */
module Sequences {

  lemma Associate<T>(a: seq<T>, b: seq<T>, c: seq<T>)
    ensures a + (b + c) == a + b + c
  {
  }

  lemma DropFirst<T>(x: T, a: seq<T>, b: seq<T>)
    ensures ([x] + a + b)[0] == x && ([x] + a + b)[1..] == a + b
  {
  }

  lemma SplitAt<T>(xs: seq<T>, n: nat)
    requires n <= |xs|
    ensures xs[..n] + xs[n..] == xs
  {
  }

  lemma DropAfterFirst<T>(x: T, a: seq<T>, n: nat)
    requires 1 <= n <= |a| + 1
    ensures ([x] + a)[n..] == a[n - 1..]
  {
  }

  lemma DropPrefix<T>(a: seq<T>, b: seq<T>)
    ensures (a + b)[|a|..] == b
  {
  }

  lemma SliceAt<T>(xs: seq<T>, n: nat, a: seq<T>, b: seq<T>)
    requires n <= |xs| && xs[n..] == a + b
    ensures n + |a| <= |xs| && xs[n..n + |a|] == a
  {
    assert xs[n..n + |a|] == xs[n..][..|a|];
  }

  lemma TakeInto<T>(a: seq<T>, b: seq<T>, k: nat)
    requires k <= |b|
    ensures (a + b)[..|a| + k] == a + b[..k] && (a + b)[|a| + k..] == b[k..]
  {
  }
}
