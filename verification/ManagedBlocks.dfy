/**
 Text with managed blocks: some lines begin a block and some end one.  Which lines
 these are is left open.
 */
module ManagedBlocks {
  import opened Sequences
  import opened TextLines

  datatype Mark = Begin | End | Plain

  /** The lines that stay, when `skip` says whether a block is open. */
  function Kept(mark: string -> Mark, ls: seq<string>, skip: bool): seq<string> {
    if ls == [] then []
    else if mark(ls[0]).Begin? then Kept(mark, ls[1..], true)
    else if mark(ls[0]).End? then Kept(mark, ls[1..], false)
    else if skip then Kept(mark, ls[1..], true)
    else [ls[0]] + Kept(mark, ls[1..], false)
  }

  ghost predicate OpenedAt(mark: string -> Mark, ls: seq<string>, j: nat, i: nat) {
    j < i <= |ls| && mark(ls[j]).Begin? && forall k :: j < k < i ==> !mark(ls[k]).End?
  }

  /** Some begin marker above line `i` has not been closed since. */
  ghost predicate Open(mark: string -> Mark, ls: seq<string>, i: nat) { exists j: nat :: OpenedAt(mark, ls, j, i) }

  ghost predicate Outside(mark: string -> Mark, ls: seq<string>, i: nat)
    requires i < |ls|
  {
    mark(ls[i]).Plain? && !Open(mark, ls, i)
  }

  ghost function Survivors(mark: string -> Mark, ls: seq<string>, n: nat): seq<string>
    requires n <= |ls|
  {
    if n == 0 then [] else Survivors(mark, ls, n - 1) + if Outside(mark, ls, n - 1) then [ls[n - 1]] else []
  }

  ghost predicate All(ls: seq<string>, ok: string -> bool) { forall i :: 0 <= i < |ls| ==> ok(ls[i]) }

  ghost predicate AllOutside(mark: string -> Mark, ls: seq<string>, n: nat, ok: string -> bool)
    requires n <= |ls|
  {
    forall i :: 0 <= i < n && Outside(mark, ls, i) ==> ok(ls[i])
  }

  lemma AllConcat(a: seq<string>, b: seq<string>, ok: string -> bool)
    ensures All(a + b, ok) <==> All(a, ok) && All(b, ok)
  {
    assert forall i :: 0 <= i < |a| ==> (a + b)[i] == a[i];
    assert forall i :: 0 <= i < |b| ==> (a + b)[|a| + i] == b[i];
  }

  lemma OutsideNext(mark: string -> Mark, ls: seq<string>, n: nat, ok: string -> bool)
    requires n < |ls|
    ensures AllOutside(mark, ls, n + 1, ok) <==> AllOutside(mark, ls, n, ok) && (Outside(mark, ls, n) ==> ok(ls[n]))
  {
  }

  /** Whatever holds of each line outside holds of each survivor, and the other way round. */
  lemma {:induction false} SurvivorsAll(mark: string -> Mark, ls: seq<string>, n: nat, ok: string -> bool)
    requires n <= |ls|
    ensures All(Survivors(mark, ls, n), ok) <==> AllOutside(mark, ls, n, ok)
  {
    if n > 0 {
      SurvivorsAll(mark, ls, n - 1, ok);
      var last := if Outside(mark, ls, n - 1) then [ls[n - 1]] else [];
      AllConcat(Survivors(mark, ls, n - 1), last, ok);
      assert Outside(mark, ls, n - 1) ==> last[0] == ls[n - 1];
      OutsideNext(mark, ls, n - 1, ok);
    }
  }

  lemma OpenNext(mark: string -> Mark, ls: seq<string>, n: nat)
    requires n < |ls|
    ensures Open(mark, ls, n + 1) <==> mark(ls[n]).Begin? || (!mark(ls[n]).End? && Open(mark, ls, n))
  {
    var m := n + 1;
    assert OpenedAt(mark, ls, n, m) <==> mark(ls[n]).Begin?;
    forall j: nat | j != n
      ensures OpenedAt(mark, ls, j, m) <==> OpenedAt(mark, ls, j, n) && !mark(ls[n]).End?
    {
    }
  }

  function FirstKept(mark: string -> Mark, l: string, skip: bool): seq<string> {
    if mark(l).Plain? && !skip then [l] else []
  }

  function SkipAfter(mark: string -> Mark, l: string, skip: bool): bool { mark(l).Begin? || (mark(l).Plain? && skip) }

  lemma KeptStep(mark: string -> Mark, ls: seq<string>, skip: bool)
    requires ls != []
    ensures Kept(mark, ls, skip) == FirstKept(mark, ls[0], skip) + Kept(mark, ls[1..], SkipAfter(mark, ls[0], skip))
  {
  }

  lemma SurvivorsNext(mark: string -> Mark, ls: seq<string>, n: nat)
    requires n < |ls|
    ensures Survivors(mark, ls, n + 1) == Survivors(mark, ls, n) + FirstKept(mark, ls[n], Open(mark, ls, n))
  {
  }

  lemma KeptNext(mark: string -> Mark, ls: seq<string>, n: nat)
    requires n < |ls|
    ensures Kept(mark, ls[n..], Open(mark, ls, n))
         == FirstKept(mark, ls[n], Open(mark, ls, n)) + Kept(mark, ls[n + 1..], Open(mark, ls, n + 1))
  {
    assert ls[n..][0] == ls[n] && ls[n..][1..] == ls[n + 1..];
    KeptStep(mark, ls[n..], Open(mark, ls, n));
    OpenNext(mark, ls, n);
  }

  lemma {:induction false} KeptFrom(mark: string -> Mark, ls: seq<string>, n: nat)
    requires n <= |ls|
    ensures Survivors(mark, ls, n) + Kept(mark, ls[n..], Open(mark, ls, n)) == Survivors(mark, ls, |ls|)
    decreases |ls| - n
  {
    if n < |ls| {
      KeptFrom(mark, ls, n + 1);
      SurvivorsNext(mark, ls, n);
      KeptNext(mark, ls, n);
      Associate(Survivors(mark, ls, n), FirstKept(mark, ls[n], Open(mark, ls, n)), Kept(mark, ls[n + 1..], Open(mark, ls, n + 1)));
    }
  }

  /** Stripping keeps exactly the lines outside the managed blocks, in order. */
  lemma KeptAreOutside(mark: string -> Mark, ls: seq<string>)
    ensures Kept(mark, ls, false) == Survivors(mark, ls, |ls|)
  {
    assert ls[0..] == ls;
    KeptFrom(mark, ls, 0);
  }

  lemma {:induction false} KeptUnbroken(mark: string -> Mark, ls: seq<string>, skip: bool)
    requires Unbroken(ls)
    ensures Unbroken(Kept(mark, ls, skip))
  {
    if ls != [] {
      KeptStep(mark, ls, skip);
      KeptUnbroken(mark, ls[1..], SkipAfter(mark, ls[0], skip));
    }
  }

  lemma {:induction false} KeptNoMarkers(mark: string -> Mark, ls: seq<string>, skip: bool)
    ensures NoMarkers(mark, Kept(mark, ls, skip))
  {
    if ls != [] {
      KeptStep(mark, ls, skip);
      KeptNoMarkers(mark, ls[1..], SkipAfter(mark, ls[0], skip));
    }
  }

  predicate NoMarkers(mark: string -> Mark, ls: seq<string>) { forall i :: 0 <= i < |ls| ==> mark(ls[i]).Plain? }

  lemma {:induction false} KeptPlain(mark: string -> Mark, a: seq<string>, rest: seq<string>)
    requires NoMarkers(mark, a)
    ensures Kept(mark, a + rest, false) == a + Kept(mark, rest, false)
  {
    if a == [] {
      assert a + rest == rest;
    } else {
      KeptPlain(mark, a[1..], rest);
      assert (a + rest)[1..] == a[1..] + rest;
      assert [a[0]] + (a[1..] + Kept(mark, rest, false)) == a + Kept(mark, rest, false);
    }
  }

  lemma {:induction false} KeptInBlock(mark: string -> Mark, ls: seq<string>, end: string)
    requires mark(end).End? && forall i :: 0 <= i < |ls| ==> !mark(ls[i]).End?
    ensures Kept(mark, ls + [end], true) == []
  {
    if ls != [] {
      KeptInBlock(mark, ls[1..], end);
      assert (ls + [end])[1..] == ls[1..] + [end];
    }
  }

  lemma KeptWholeBlock(mark: string -> Mark, ls: seq<string>, mid: seq<string>, end: string)
    requires ls != [] && mark(ls[0]).Begin? && ls[1..] == mid + [end]
    requires mark(end).End? && forall i :: 0 <= i < |mid| ==> !mark(mid[i]).End?
    ensures Kept(mark, ls, false) == []
  {
    KeptInBlock(mark, mid, end);
  }

  /** In a block with an end marker inside, the line after that marker lies outside. */
  lemma TailOutside(mark: string -> Mark, begin: string, head: string, end: string, tail: string, last: string)
    requires mark(end).End? && mark(head).Plain? && mark(tail).Plain?
    ensures Outside(mark, [begin, head, end, tail, last], 3)
  {
    var ls := [begin, head, end, tail, last];
    forall j: nat ensures !OpenedAt(mark, ls, j, 3) {
      if j == 0 || j == 1 { assert mark(ls[2]).End?; }
    }
  }
}
