/**
 The bridge pool: selection of the least loaded connected slot with a rotating
 tie-break, and the per-slot stream counters
 (`SharedState` in `crates/ssh-proxy/src/controller.rs`).
 */
module BridgePool {
  import opened Bytes

  const U64 := 0x1_0000_0000_0000_0000

  type Handle = nat

  datatype Pool = Pool(
    slots: seq<Option<Handle>>,      // bridge_slots
    connected: seq<bool>,            // bridge_workers[..].connected
    active: seq<nat>,                // bridge_worker_counters[..].active_streams
    next: u32)                       // next_bridge

  /** `fetch_add(1)` on the 32-bit counter. */
  function Advance(next: u32): u32 { (next + 1) % U32 }

  predicate Eligible(p: Pool, i: nat) {
    i < |p.slots| && p.slots[i].Some? && i < |p.connected| && p.connected[i]
  }

  function Load(p: Pool, i: nat): nat { if i < |p.active| then p.active[i] else 0 }

  /** The eligible slots below `n`, in order. */
  function Candidates(p: Pool, n: nat): seq<nat> {
    if n == 0 then [] else Candidates(p, n - 1) + if Eligible(p, n - 1) then [n - 1] else []
  }

  /** Those of the slots `c` whose load is `m`, in order. */
  function WithLoad(p: Pool, c: seq<nat>, m: nat): seq<nat> {
    if c == [] then []
    else WithLoad(p, c[..|c| - 1], m) + if Load(p, c[|c| - 1]) == m then [c[|c| - 1]] else []
  }

  ghost predicate Minimal(p: Pool, i: nat) {
    Eligible(p, i) && forall j: nat :: Eligible(p, j) ==> Load(p, i) <= Load(p, j)
  }

  ghost predicate Increasing(s: seq<nat>) { forall i, j :: 0 <= i < j < |s| ==> s[i] < s[j] }

  /** The tied slots: exactly the eligible ones of minimal load, in increasing order. */
  ghost predicate AreTies(p: Pool, ties: seq<nat>) {
    Increasing(ties) && forall i: nat :: i in ties <==> Minimal(p, i)
  }

  lemma IncreasingSnoc(s: seq<nat>, x: nat)
    requires Increasing(s) && forall i :: i in s ==> i < x
    ensures Increasing(s + [x])
  {
    forall i, j | 0 <= i < j < |s + [x]| ensures (s + [x])[i] < (s + [x])[j] {
      assert s[i] in s;
    }
  }

  lemma {:induction false} CandidatesAre(p: Pool, n: nat)
    ensures Increasing(Candidates(p, n))
    ensures forall i: nat :: i in Candidates(p, n) <==> i < n && Eligible(p, i)
  {
    if n > 0 {
      CandidatesAre(p, n - 1);
      IncreasingSnoc(Candidates(p, n - 1), n - 1);
    }
  }

  lemma {:induction false} WithLoadAre(p: Pool, c: seq<nat>, m: nat)
    requires Increasing(c)
    ensures Increasing(WithLoad(p, c, m))
    ensures forall i: nat :: i in WithLoad(p, c, m) <==> i in c && Load(p, i) == m
  {
    if c != [] {
      var init, last := c[..|c| - 1], c[|c| - 1];
      WithLoadAre(p, init, m);
      assert forall i :: i in c <==> i in init || i == last;
      assert forall i :: i in init ==> i < last;
      IncreasingSnoc(WithLoad(p, init, m), last);
    }
  }

  lemma HasMember(s: seq<nat>)
    ensures s == [] || s[0] in s
  {
  }

  /** There is only one such sequence, so the tied slots are a function of the pool. */
  lemma {:induction false} TiesUnique(a: seq<nat>, b: seq<nat>)
    requires Increasing(a) && Increasing(b) && forall i: nat :: i in a <==> i in b
    ensures a == b
    decreases |a|
  {
    HasMember(b);
    if a != [] {
      assert a[|a| - 1] in b && b[|b| - 1] in a;
      var a', b' := a[..|a| - 1], b[..|b| - 1];
      assert a[|a| - 1] == b[|b| - 1];
      forall i: nat ensures i in a' <==> i in b' {
        assert i in a <==> i in a' || i == a[|a| - 1];
        assert i in b <==> i in b' || i == b[|b| - 1];
      }
      TiesUnique(a', b');
    }
  }

  ghost predicate AnyEligible(p: Pool) { exists i: nat :: Eligible(p, i) }

  lemma CandidatesEmpty(p: Pool)
    ensures Candidates(p, |p.slots|) == [] <==> !AnyEligible(p)
  {
    CandidatesAre(p, |p.slots|);
    HasMember(Candidates(p, |p.slots|));
  }

  /** `min` is the least load of the candidates. */
  ghost predicate IsLeast(p: Pool, candidates: seq<nat>, min: nat) {
    && (exists j :: 0 <= j < |candidates| && min == Load(p, candidates[j]))
    && (forall j :: 0 <= j < |candidates| ==> min <= Load(p, candidates[j]))
  }

  lemma LeastIsMinimal(p: Pool, candidates: seq<nat>, min: nat, i: nat)
    requires candidates == Candidates(p, |p.slots|)
    requires IsLeast(p, candidates, min)
    ensures Minimal(p, i) <==> i in candidates && Load(p, i) == min
  {
    CandidatesAre(p, |p.slots|);
    var j :| 0 <= j < |candidates| && min == Load(p, candidates[j]);
    assert candidates[j] in candidates;
    forall k: nat | Eligible(p, k) ensures min <= Load(p, k) { assert k in candidates; }
  }

  lemma TiesFound(p: Pool, candidates: seq<nat>, min: nat, available: seq<nat>)
    requires candidates == Candidates(p, |p.slots|) && available == WithLoad(p, candidates, min)
    requires IsLeast(p, candidates, min)
    ensures AreTies(p, available) && available != []
    ensures forall ties :: AreTies(p, ties) ==> ties == available
  {
    CandidatesAre(p, |p.slots|);
    WithLoadAre(p, candidates, min);
    forall i: nat ensures i in available <==> Minimal(p, i) { LeastIsMinimal(p, candidates, min, i); }
    var j :| 0 <= j < |candidates| && min == Load(p, candidates[j]);
    assert candidates[j] in available;
    forall ties | AreTies(p, ties) ensures ties == available { TiesUnique(ties, available); }
  }

  /** The slot is of minimal load, and is the one among the tied slots that the counter points at. */
  ghost predicate Picked(p: Pool, slot: nat) {
    Minimal(p, slot) && forall ties :: AreTies(p, ties) ==> ties != [] && slot == ties[p.next % |ties|]
  }

  lemma PickIsTied(p: Pool, candidates: seq<nat>, min: nat, available: seq<nat>)
    requires candidates == Candidates(p, |p.slots|) && available == WithLoad(p, candidates, min)
    requires IsLeast(p, candidates, min)
    ensures available != [] && Picked(p, available[p.next % |available|]) && Eligible(p, available[p.next % |available|])
  {
    TiesFound(p, candidates, min, available);
    assert available[p.next % |available|] in available;
  }

  lemma {:induction false} LeastOf(p: Pool, candidates: seq<nat>) returns (min: nat)
    requires candidates != []
    ensures IsLeast(p, candidates, min)
  {
    var last := |candidates| - 1;
    min := Load(p, candidates[last]);
    if last > 0 {
      var least := LeastOf(p, candidates[..last]);
      if least < min { min := least; }
    }
  }

  lemma PickExists(p: Pool) returns (slot: nat)
    requires AnyEligible(p)
    ensures Picked(p, slot)
  {
    var candidates := Candidates(p, |p.slots|);
    CandidatesEmpty(p);
    var min := LeastOf(p, candidates);
    var available := WithLoad(p, candidates, min);
    PickIsTied(p, candidates, min, available);
    slot := available[p.next % |available|];
  }

  lemma PickIsOne(p: Pool, a: nat, b: nat)
    requires Picked(p, a) && Picked(p, b)
    ensures a == b
  {
    var candidates := Candidates(p, |p.slots|);
    CandidatesEmpty(p);
    var min := LeastOf(p, candidates);
    TiesFound(p, candidates, min, WithLoad(p, candidates, min));
  }

  /** The slot has a bridge and its worker is connected. */
  predicate Serving(p: Pool, i: nat) {
    i < |p.slots| && i < |p.connected| && p.slots[i].Some? && p.connected[i]
  }

  /** Exactly one slot is picked if one serves, and none otherwise; the one picked serves, under the least load. */
  lemma PickServes(p: Pool, slot: nat)
    ensures (exists i: nat :: Picked(p, i)) <==> exists i: nat :: Serving(p, i)
    ensures Picked(p, slot) ==> Serving(p, slot)
    ensures forall i: nat :: Picked(p, slot) && Picked(p, i) ==> i == slot
    ensures forall i: nat :: Picked(p, slot) && Serving(p, i) ==>
              (if slot < |p.active| then p.active[slot] else 0) <= if i < |p.active| then p.active[i] else 0
  {
    assert forall i: nat :: Serving(p, i) <==> Eligible(p, i);
    if AnyEligible(p) { var picked := PickExists(p); }
    forall i: nat | Picked(p, slot) && Picked(p, i) ensures i == slot { PickIsOne(p, slot, i); }
  }

  /** The shared state of a route's controller that the pool methods update. */
  class SharedState {
    var slots: seq<Option<Handle>>
    var connected: seq<bool>
    const counters: array<nat>
    var next: u32

    ghost function View(): Pool
      reads this, counters
    {
      Pool(slots, connected, counters[..], next)
    }

    constructor (size: nat)
      ensures fresh(counters)
      ensures var n := if size == 0 then 1 else size;
              View() == Pool(seq(n, _ => None), seq(n, _ => false), seq(n, _ => 0), 0)
    {
      var n := if size == 0 then 1 else size;
      slots, connected, next := seq(n, _ => None), seq(n, _ => false), 0;
      counters := new nat[n](_ => 0);
    }

    method SetBridge(slot: nat, bridge: Option<Handle>)
      modifies this`slots
      ensures |slots| == if slot < old(|slots|) then old(|slots|) else slot + 1
      ensures slots[slot] == bridge
      ensures forall i :: 0 <= i < |slots| && i != slot ==> slots[i] == if i < old(|slots|) then old(slots)[i] else None
    {
      if slot >= |slots| { slots := slots + seq(slot + 1 - |slots|, _ => None); }
      slots := slots[slot := bridge];
    }

    /** The part of the connect, disconnect and failure records that selection sees. */
    method RecordBridge(slot: nat, up: bool)
      modifies this`connected, counters
      ensures |connected| == (if slot < old(|connected|) then old(|connected|) else slot + 1) && connected[slot] == up
      ensures forall i :: 0 <= i < |connected| && i != slot ==> connected[i] == (i < old(|connected|) && old(connected)[i])
      ensures counters[..] == Reset(old(counters[..]), slot)
    {
      if slot >= |connected| { connected := connected + seq(slot + 1 - |connected|, _ => false); }
      connected := connected[slot := up];
      if slot < counters.Length { counters[slot] := 0; }
    }

    method RecordWorkerTcpOpen(slot: nat)
      modifies counters
      ensures counters[..] == Open(old(counters[..]), slot)
    {
      if slot < counters.Length { counters[slot] := (counters[slot] + 1) % U64; }
    }

    method RecordWorkerTcpClose(slot: nat)
      modifies counters
      ensures counters[..] == Close(old(counters[..]), slot)
    {
      if slot < counters.Length && counters[slot] > 0 { counters[slot] := counters[slot] - 1; }
    }

    method Connected() returns (candidates: seq<nat>)
      ensures candidates == Candidates(View(), |slots|)
    {
      candidates := [];
      for slot := 0 to |slots|
        invariant candidates == Candidates(View(), slot)
      {
        if slots[slot].Some? && slot < |connected| && connected[slot] { candidates := candidates + [slot]; }
      }
    }

    method LeastLoad(candidates: seq<nat>) returns (min: nat)
      requires candidates != []
      ensures IsLeast(View(), candidates, min)
    {
      min := LoadOf(candidates[0]);
      for k := 1 to |candidates|
        invariant exists j :: 0 <= j < |candidates| && min == Load(View(), candidates[j])
        invariant forall j :: 0 <= j < k ==> min <= Load(View(), candidates[j])
      {
        var load := LoadOf(candidates[k]);
        if load < min { min := load; }
      }
    }

    method Retain(candidates: seq<nat>, min: nat) returns (available: seq<nat>)
      ensures available == WithLoad(View(), candidates, min)
    {
      available := [];
      for k := 0 to |candidates|
        invariant available == WithLoad(View(), candidates[..k], min)
      {
        assert candidates[..k + 1][..k] == candidates[..k];
        if LoadOf(candidates[k]) == min { available := available + [candidates[k]]; }
      }
      assert candidates[..|candidates|] == candidates;
    }

    /** `bridge()`: the tied slot that the rotating counter points at, or nothing if no slot is eligible. */
    method Bridge() returns (r: Option<(nat, Handle)>)
      modifies this`next
      ensures r.Some? <==> AnyEligible(old(View()))
      ensures r.None? ==> next == old(next)
      ensures r.Some? ==> Picked(old(View()), r.value.0) && slots[r.value.0] == Some(r.value.1)
      ensures r.Some? ==> next == Advance(old(next))
    {
      ghost var p := View();
      var candidates := Connected();
      CandidatesEmpty(p);
      if candidates == [] { return None; }
      var min := LeastLoad(candidates);
      var available := Retain(candidates, min);
      PickIsTied(p, candidates, min, available);
      var slot := available[next % |available|];
      next := Advance(next);
      return Some((slot, slots[slot].value));
    }

    function LoadOf(slot: nat): (load: nat)
      reads this, counters
      ensures load == Load(View(), slot)
    {
      if slot < counters.Length then counters[slot] else 0
    }
  }

  // The counters

  function Open(active: seq<nat>, slot: nat): seq<nat> {
    if slot < |active| then active[slot := (active[slot] + 1) % U64] else active
  }

  function Close(active: seq<nat>, slot: nat): seq<nat> {
    if slot < |active| && active[slot] > 0 then active[slot := active[slot] - 1] else active
  }

  function Reset(active: seq<nat>, slot: nat): seq<nat> {
    if slot < |active| then active[slot := 0] else active
  }

  datatype Event = Opened(slot: nat) | Closed(slot: nat) | Reconnected(slot: nat) | Lost(slot: nat) | ConnectFailed(slot: nat)

  predicate Resets(e: Event) { e.Reconnected? || e.Lost? || e.ConnectFailed? }

  function Counters(size: nat, es: seq<Event>): (active: seq<nat>)
    ensures |active| == size
  {
    if es == [] then seq(size, _ => 0)
    else
      var before, e := Counters(size, es[..|es| - 1]), es[|es| - 1];
      match e
      case Opened(slot) => Open(before, slot)
      case Closed(slot) => Close(before, slot)
      case _ => Reset(before, e.slot)
  }

  /** Streams opened on `slot` and not yet closed. */
  function Live(es: seq<Event>, slot: nat): int {
    if es == [] then 0
    else Live(es[..|es| - 1], slot) +
         if es[|es| - 1] == Opened(slot) then 1 else if es[|es| - 1] == Closed(slot) then -1 else 0
  }

  /** Live streams of `slot` at its last reset; 0 if it was never reset. */
  function LiveAtReset(es: seq<Event>, slot: nat): int {
    if es == [] then 0
    else if ResetOf(es[|es| - 1], slot) then Live(es[..|es| - 1], slot)
    else LiveAtReset(es[..|es| - 1], slot)
  }

  /** Every close follows an open of the same slot that it pairs with. */
  ghost predicate Paired(es: seq<Event>) {
    forall n, slot: nat {:trigger Live(es[..n], slot)} :: 0 <= n <= |es| ==> Live(es[..n], slot) >= 0
  }

  lemma PairedPrefix(es: seq<Event>)
    requires Paired(es) && es != []
    ensures Paired(es[..|es| - 1])
    ensures forall slot: nat :: Live(es, slot) >= 0 && Live(es[..|es| - 1], slot) >= 0
  {
    var init := es[..|es| - 1];
    forall n, slot: nat | 0 <= n <= |init| ensures Live(init[..n], slot) >= 0 { assert init[..n] == es[..n]; }
    forall slot: nat ensures Live(es, slot) >= 0 && Live(init, slot) >= 0 { assert es[..|es|] == es; }
  }

  predicate ResetOf(e: Event, slot: nat) { Resets(e) && e.slot == slot }

  /** The least number of live streams that `slot` had since its last reset; 0 if it was never reset. */
  function Low(es: seq<Event>, slot: nat): int {
    if es == [] then 0
    else if ResetOf(es[|es| - 1], slot) then Live(es, slot)
    else if Live(es, slot) < Low(es[..|es| - 1], slot) then Live(es, slot)
    else Low(es[..|es| - 1], slot)
  }

  /**
   Over every run of opens, paired closes and resets, a slot's counter misses exactly the streams of
   the slot's quietest moment since its last reset.
   */
  lemma {:induction false} CounterIs(size: nat, es: seq<Event>, slot: nat)
    requires Paired(es) && |es| < U64 && slot < size
    ensures Counters(size, es)[slot] == Live(es, slot) - Low(es, slot)
    ensures 0 <= Low(es, slot) <= Live(es, slot) <= |es|
  {
    if es != [] {
      PairedPrefix(es);
      CounterIs(size, es[..|es| - 1], slot);
    }
  }

  /** After the first `n` events `slot` had no live stream, and it was not reset since. */
  ghost predicate IdleAt(es: seq<Event>, slot: nat, n: nat) {
    n <= |es| && Live(es[..n], slot) == 0 && forall i :: n <= i < |es| ==> !ResetOf(es[i], slot)
  }

  /** At some moment since its last reset the slot had no live stream. */
  ghost predicate Idle(es: seq<Event>, slot: nat) { exists n: nat :: IdleAt(es, slot, n) }

  lemma IdleAtNext(es: seq<Event>, slot: nat, n: nat)
    requires es != [] && n < |es|
    ensures IdleAt(es, slot, n) <==> IdleAt(es[..|es| - 1], slot, n) && !ResetOf(es[|es| - 1], slot)
  {
    assert es[..|es| - 1][..n] == es[..n];
  }

  lemma IdleNext(es: seq<Event>, slot: nat)
    requires es != []
    ensures Idle(es, slot) <==> Live(es, slot) == 0 || (Idle(es[..|es| - 1], slot) && !ResetOf(es[|es| - 1], slot))
  {
    assert es[..|es|] == es;
    assert IdleAt(es, slot, |es|) <==> Live(es, slot) == 0;
    forall n: nat | n < |es|
      ensures IdleAt(es, slot, n) <==> IdleAt(es[..|es| - 1], slot, n) && !ResetOf(es[|es| - 1], slot)
    {
      IdleAtNext(es, slot, n);
    }
    if Idle(es[..|es| - 1], slot) && !ResetOf(es[|es| - 1], slot) {
      var n: nat :| IdleAt(es[..|es| - 1], slot, n);
      assert IdleAt(es, slot, n);
    }
  }

  lemma {:induction false} LowIsIdle(es: seq<Event>, slot: nat)
    requires Paired(es)
    ensures Low(es, slot) >= 0 && (Low(es, slot) == 0 <==> Idle(es, slot))
  {
    if es == [] {
      assert IdleAt(es, slot, 0);
    } else {
      PairedPrefix(es);
      LowIsIdle(es[..|es| - 1], slot);
      IdleNext(es, slot);
    }
  }

  /** The counter is exact if and only if the slot had no live stream at some moment since its last reset. */
  lemma CounterExactIff(size: nat, es: seq<Event>, slot: nat)
    requires Paired(es) && |es| < U64 && slot < size
    ensures Counters(size, es)[slot] == Live(es, slot) <==> Idle(es, slot)
  {
    CounterIs(size, es, slot);
    LowIsIdle(es, slot);
  }

  lemma {:induction false} LowAtReset(es: seq<Event>, slot: nat)
    ensures Low(es, slot) <= LiveAtReset(es, slot)
  {
    if es != [] { LowAtReset(es[..|es| - 1], slot); }
  }

  /** So it never exceeds the live streams, and falls short by at most those live at the last reset. */
  lemma CounterTracksLive(size: nat, es: seq<Event>, slot: nat)
    requires Paired(es) && |es| < U64 && slot < size
    ensures Live(es, slot) - LiveAtReset(es, slot) <= Counters(size, es)[slot] <= Live(es, slot)
    ensures (forall i :: 0 <= i < |es| ==> !ResetOf(es[i], slot)) ==> Counters(size, es)[slot] == Live(es, slot)
  {
    CounterIs(size, es, slot);
    LowAtReset(es, slot);
    if forall i :: 0 <= i < |es| ==> !ResetOf(es[i], slot) {
      assert es[..0] == [] && IdleAt(es, slot, 0);
      LowIsIdle(es, slot);
    }
  }

  /** After a reset the counter can miss a live stream: the close of an old stream takes off a new one. */
  lemma ResetUndercounts()
    ensures var es := [Opened(0), Lost(0), Reconnected(0), Opened(0), Closed(0)];
            Paired(es) && Counters(1, es)[0] == 0 && Live(es, 0) == 1
  {
    var es := [Opened(0), Lost(0), Reconnected(0), Opened(0), Closed(0)];
    var e1, e2, e3, e4 := es[..1], es[..2], es[..3], es[..4];
    assert e1[..0] == [] && e2[..1] == e1 && e3[..2] == e2 && e4[..3] == e3 && es[..|es| - 1] == e4;
    assert forall slot: nat :: Live(e1, slot) == if slot == 0 then 1 else 0;
    assert forall slot: nat :: Live(e3, slot) == Live(e2, slot) == Live(e1, slot);
    assert forall slot: nat :: Live(e4, slot) == if slot == 0 then 2 else 0;
    forall n, slot: nat | 0 <= n <= |es| ensures Live(es[..n], slot) >= 0 {
      if n == 5 { assert es[..5] == es; }
    }
    assert Counters(1, e1)[0] == 1;
    assert Counters(1, e3)[0] == 0;
    assert Counters(1, e4)[0] == 1;
  }

  // Sequential selection

  /** Every eligible slot has a counter; `set_bridge` can add slots that have none. */
  ghost predicate Counted(p: Pool) { forall i: nat :: Eligible(p, i) ==> i < |p.active| }

  /** A stream is placed on `slot` by `bridge()` and its open recorded. */
  function Place(p: Pool, slot: nat): Pool { p.(active := Open(p.active, slot), next := Advance(p.next)) }

  /** A sequential run of selections, each followed by its recorded open; nothing closes or reconnects. */
  ghost predicate Placements(run: seq<Pool>, picks: seq<nat>) {
    && |run| == |picks| + 1
    && forall i :: 0 <= i < |picks| ==> PlacedAt(run, picks, i)
  }

  ghost predicate PlacedAt(run: seq<Pool>, picks: seq<nat>, i: nat)
    requires |run| == |picks| + 1 && i < |picks|
  {
    Minimal(run[i], picks[i]) && run[i + 1] == Place(run[i], picks[i])
  }

  /** No two eligible slots differ in load by more than `d`. */
  ghost predicate SpreadAtMost(p: Pool, d: int) {
    forall i: nat, j: nat :: Eligible(p, i) && Eligible(p, j) ==> Load(p, i) - Load(p, j) <= d
  }

  /** No counter of the pool is about to wrap. */
  ghost predicate LoadsBelow(p: Pool, h: int) { forall i: nat :: Eligible(p, i) ==> Load(p, i) <= h }

  lemma PlaceLoads(p: Pool, slot: nat, i: nat)
    requires Load(p, slot) + 1 < U64
    ensures Eligible(Place(p, slot), i) <==> Eligible(p, i)
    ensures Load(Place(p, slot), i) == Load(p, i) + if i == slot < |p.active| then 1 else 0
  {
  }

  lemma PlaceStep(p: Pool, slot: nat, d: int, h: int)
    requires Minimal(p, slot) && SpreadAtMost(p, d) && d >= 1 && LoadsBelow(p, h) && h + 1 < U64
    ensures SpreadAtMost(Place(p, slot), d) && LoadsBelow(Place(p, slot), h + 1)
  {
    forall i: nat
      ensures Eligible(Place(p, slot), i) <==> Eligible(p, i)
      ensures Load(Place(p, slot), i) == Load(p, i) + if i == slot < |p.active| then 1 else 0
    {
      PlaceLoads(p, slot, i);
    }
  }

  /** The load spread over the eligible slots never exceeds the larger of 1 and the initial spread. */
  lemma {:induction false} SpreadStays(run: seq<Pool>, picks: seq<nat>, d: int, h: int, n: nat)
    requires Placements(run, picks) && n <= |picks|
    requires SpreadAtMost(run[0], d) && LoadsBelow(run[0], h) && h + |picks| < U64
    ensures SpreadAtMost(run[n], if d > 1 then d else 1) && LoadsBelow(run[n], h + n)
  {
    if n > 0 {
      SpreadStays(run, picks, d, h, n - 1);
      assert PlacedAt(run, picks, n - 1);
      PlaceStep(run[n - 1], picks[n - 1], if d > 1 then d else 1, h + (n - 1));
    }
  }

  /** How many placements it takes to bring every eligible slot below `n` up to load `h`. */
  function Deficit(p: Pool, h: nat, n: nat): nat {
    if n == 0 then 0
    else Deficit(p, h, n - 1) + if Eligible(p, n - 1) && Load(p, n - 1) < h then h - Load(p, n - 1) else 0
  }

  lemma {:induction false} DeficitStep(p: Pool, slot: nat, h: nat, n: nat)
    requires Counted(p) && Minimal(p, slot) && Load(p, slot) < h && h < U64 && n <= |p.slots|
    ensures Deficit(Place(p, slot), h, n) == Deficit(p, h, n) - if slot < n then 1 else 0
  {
    if n > 0 { DeficitStep(p, slot, h, n - 1); }
  }

  lemma {:induction false} DeficitIsZero(p: Pool, h: nat, n: nat)
    ensures Deficit(p, h, n) == 0 <==> forall i: nat :: i < n && Eligible(p, i) ==> Load(p, i) >= h
  {
    if n > 0 { DeficitIsZero(p, h, n - 1); }
  }

  /** After as many placements as the initial deficit, or more, no two eligible slots differ by more than 1. */
  lemma {:induction false} LoadsEvenOut(run: seq<Pool>, picks: seq<nat>, h: nat, n: nat)
    requires Placements(run, picks) && n <= |picks| && Counted(run[0])
    requires LoadsBelow(run[0], h) && h + |picks| < U64
    ensures Counted(run[n]) && |run[n].slots| == |run[0].slots|
    ensures n <= Deficit(run[0], h, |run[0].slots|) ==>
              LoadsBelow(run[n], h) && Deficit(run[n], h, |run[n].slots|) == Deficit(run[0], h, |run[0].slots|) - n
    ensures n >= Deficit(run[0], h, |run[0].slots|) ==> SpreadAtMost(run[n], 1) && LoadsBelow(run[n], h + n)
  {
    var size := |run[0].slots|;
    if n > 0 {
      LoadsEvenOut(run, picks, h, n - 1);
      var p, slot := run[n - 1], picks[n - 1];
      assert PlacedAt(run, picks, n - 1);
      assert forall i: nat :: Eligible(Place(p, slot), i) ==> Eligible(p, i);
      DeficitIsZero(p, h, size);
      if n <= Deficit(run[0], h, size) {
        assert Load(p, slot) < h;
        DeficitStep(p, slot, h, size);
        StaysBelow(p, slot, h);
      } else {
        PlaceStep(p, slot, 1, h + (n - 1));
      }
    }
    if n == Deficit(run[0], h, size) {
      DeficitIsZero(run[n], h, size);
    }
  }

  lemma StaysBelow(p: Pool, slot: nat, h: nat)
    requires Counted(p) && Minimal(p, slot) && Load(p, slot) < h < U64 && LoadsBelow(p, h)
    ensures LoadsBelow(Place(p, slot), h)
  {
    var q := Place(p, slot);
    assert forall i: nat :: Load(q, i) == Load(p, i) + (if i == slot then 1 else 0) && (Eligible(q, i) <==> Eligible(p, i));
  }

  /** A slot without a counter keeps load 0 and takes every placement, so a load above 1 is never evened out. */
  lemma {:induction false} UncountedNeverEvens(run: seq<Pool>, picks: seq<nat>, n: nat, bare: nat, loaded: nat)
    requires Placements(run, picks) && n <= |picks|
    requires Eligible(run[0], bare) && bare >= |run[0].active|
    requires Eligible(run[0], loaded) && Load(run[0], loaded) > 1
    ensures Eligible(run[n], bare) && |run[n].active| == |run[0].active|
    ensures Eligible(run[n], loaded) && Load(run[n], loaded) == Load(run[0], loaded)
    ensures !SpreadAtMost(run[n], 1)
  {
    if n > 0 {
      UncountedNeverEvens(run, picks, n - 1, bare, loaded);
      assert PlacedAt(run, picks, n - 1);
      assert Load(run[n - 1], bare) == 0;
    }
    assert Load(run[n], loaded) - Load(run[n], bare) > 1;
  }

  // The rotating tie-break

  lemma MulAtLeast(k: nat, d: int)
    requires d >= 1
    ensures k * d >= k
  {
    if d > 1 { MulAtLeast(k, d - 1); assert k * d == k * (d - 1) + k; }
  }

  /** Division with remainder is unique. */
  lemma Residue(k: nat, q: int, r: nat)
    requires r < k
    ensures (k * q + r) % k == r
  {
    var a := k * q + r;
    var q', r' := a / k, a % k;
    assert k * (q - q') == r' - r;
    if q > q' {
      MulAtLeast(k, q - q');
    } else if q < q' {
      assert k * (q' - q) == r - r';
      MulAtLeast(k, q' - q);
    }
  }

  /** Numbers closer than `k` have different remainders by `k`. */
  lemma CloseDiffer(a: nat, b: nat, k: nat)
    requires a < b < a + k
    ensures a % k != b % k
  {
    var q, r, d := a / k, a % k, b - a;
    assert b == k * q + (r + d);
    if r + d < k {
      Residue(k, q, r + d);
    } else {
      assert b == k * (q + 1) + (r + d - k);
      Residue(k, q + 1, r + d - k);
    }
  }

  lemma AddMultiple(a: nat, m: nat, k: nat)
    requires 0 < k && m % k == 0
    ensures (a + m) % k == a % k
  {
    var q, r := a / k, a % k;
    assert a + m == k * (q + m / k) + r;
    Residue(k, q + m / k, r);
  }

  /** The tied slot chosen by the `i`-th of a series of picks that starts at counter value `c`. */
  function PickIndex(c: u32, i: nat, k: nat): nat
    requires 0 < k
  {
    ((c + i) % U32) % k
  }

  ghost predicate EachOnce(c: u32, k: nat)
    requires 0 < k
  {
    forall i, j :: 0 <= i < j < k ==> PickIndex(c, i, k) != PickIndex(c, j, k)
  }

  lemma PickBeforeWrap(c: u32, i: nat, k: nat)
    requires 0 < k && c + i < U32
    ensures PickIndex(c, i, k) == (c + i) % k
  {
    assert (c + i) % U32 == c + i;
  }

  lemma DifferBeforeWrap(c: u32, i: nat, j: nat, k: nat)
    requires i < j < k && c + k <= U32
    ensures PickIndex(c, i, k) != PickIndex(c, j, k)
  {
    PickBeforeWrap(c, i, k);
    PickBeforeWrap(c, j, k);
    CloseDiffer(c + i, c + j, k);
  }

  lemma DifferOnEvenWrap(c: u32, i: nat, j: nat, k: nat)
    requires i < j < k <= U32 && U32 % k == 0
    ensures PickIndex(c, i, k) != PickIndex(c, j, k)
  {
    PickOnEvenWrap(c, i, k);
    PickOnEvenWrap(c, j, k);
    CloseDiffer(c + i, c + j, k);
  }

  lemma NoWrap(c: u32, k: nat)
    requires 0 < k && c + k <= U32
    ensures EachOnce(c, k)
  {
    forall i, j | 0 <= i < j < k ensures PickIndex(c, i, k) != PickIndex(c, j, k) { DifferBeforeWrap(c, i, j, k); }
  }

  lemma EvenWrap(c: u32, k: nat)
    requires 0 < k <= U32 && U32 % k == 0
    ensures EachOnce(c, k)
  {
    forall i, j | 0 <= i < j < k ensures PickIndex(c, i, k) != PickIndex(c, j, k) { DifferOnEvenWrap(c, i, j, k); }
  }

  lemma PickOnEvenWrap(c: u32, i: nat, k: nat)
    requires 0 < k <= U32 && i < k && U32 % k == 0
    ensures PickIndex(c, i, k) == (c + i) % k
  {
    if c + i < U32 {
      PickBeforeWrap(c, i, k);
    } else {
      PickAfterWrap(c, i, k);
      AddMultiple(c + i - U32, U32, k);
    }
  }

  lemma PickAfterWrap(c: u32, i: nat, k: nat)
    requires 0 < k && U32 <= c + i < 2 * U32
    ensures PickIndex(c, i, k) == (c + i - U32) % k
  {
    assert (c + i) % U32 == c + i - U32;
  }

  /** If 2^32 leaves `r` by `k`, the rotation points at its first slot both `r` before the wrap and at the wrap. */
  lemma RepeatsAtWrap(c: u32, k: nat, q: nat, r: nat)
    requires 0 < r < k && U32 == k * q + r && r <= U32 - c
    ensures PickIndex(c, U32 - c - r, k) == PickIndex(c, U32 - c, k)
  {
    PickBeforeWrap(c, U32 - c - r, k);
    Residue(k, q, 0);
    PickAfterWrap(c, U32 - c, k);
    Residue(k, 0, 0);
  }

  /** If the series starts after that place, its first slot comes again after the wrap. */
  lemma RepeatsAfterWrap(c: u32, k: nat, q: nat, r: nat)
    requires r < k && U32 == k * q + r && U32 - c < r
    ensures PickIndex(c, 0, k) == PickIndex(c, r, k)
  {
    var t := r - (U32 - c);
    PickBeforeWrap(c, 0, k);
    assert c == k * q + t;
    Residue(k, q, t);
    PickAfterWrap(c, r, k);
    Residue(k, 0, t);
  }

  /** A wrap in the middle of a series makes two of its picks fall on the same slot. */
  lemma UnevenWrap(c: u32, k: nat)
    requires 0 < k <= U32 && c + k > U32 && U32 % k != 0
    ensures !EachOnce(c, k)
  {
    var q, r := U32 / k, U32 % k;
    assert U32 == k * q + r;
    if r <= U32 - c { RepeatsAtWrap(c, k, q, r); } else { RepeatsAfterWrap(c, k, q, r); }
  }

  lemma SomeShift(c: nat, k: nat, t: nat) returns (i: nat)
    requires t < k
    ensures i < k && (c + i) % k == t
  {
    var q, r := c / k, c % k;
    if t >= r {
      i := t - r;
      assert c + i == k * q + t;
      Residue(k, q, t);
    } else {
      i := t + k - r;
      assert c + i == k * (q + 1) + t;
      Residue(k, q + 1, t);
    }
  }

  lemma SomePick(c: u32, k: nat, t: nat) returns (i: nat)
    requires t < k && (c + k <= U32 || U32 % k == 0)
    ensures i < k && PickIndex(c, i, k) == t
  {
    i := SomeShift(c, k, t);
    if c + k > U32 {
      AtMostU32(k);
      PickOnEvenWrap(c, i, k);
    }
  }

  /** More than 2^32 slots cannot share the counter's values evenly. */
  lemma AtMostU32(k: nat)
    requires 0 < k && U32 % k == 0
    ensures k <= U32
  {
    if k > U32 { Residue(k, 0, U32); }
  }

  lemma EachOnceIff(c: u32, k: nat)
    requires 0 < k
    ensures EachOnce(c, k) <==> c + k <= U32 || U32 % k == 0
  {
    if U32 % k == 0 {
      AtMostU32(k);
      EvenWrap(c, k);
    } else if c + k <= U32 {
      NoWrap(c, k);
    } else if k <= U32 {
      UnevenWrap(c, k);
    } else {
      assert PickIndex(c, 0, k) == PickIndex(c, U32, k);
    }
  }

  ghost predicate PickedAt(run: seq<Pool>, picks: seq<nat>, i: nat)
    requires |run| == |picks| + 1 && i < |picks|
  {
    Picked(run[i], picks[i]) && run[i + 1] == run[i].(next := Advance(run[i].next))
  }

  /** A series of calls of `bridge()` during which no load and no connection changes. */
  ghost predicate Series(run: seq<Pool>, picks: seq<nat>) {
    |run| == |picks| + 1 && forall i :: 0 <= i < |picks| ==> PickedAt(run, picks, i)
  }

  lemma NextCount(a: nat)
    ensures (a % U32 + 1) % U32 == (a + 1) % U32
  {
  }

  lemma {:induction false} SeriesPool(run: seq<Pool>, picks: seq<nat>, i: nat)
    requires Series(run, picks) && i <= |picks|
    ensures run[i] == run[0].(next := (run[0].next + i) % U32)
  {
    if i > 0 {
      SeriesPool(run, picks, i - 1);
      assert PickedAt(run, picks, i - 1);
      NextCount(run[0].next + (i - 1));
    }
  }

  /** The ties do not depend on the counter. */
  lemma TiesStay(p: Pool, next: u32, ties: seq<nat>)
    requires AreTies(p, ties)
    ensures AreTies(p.(next := next), ties)
  {
    forall i: nat ensures Minimal(p.(next := next), i) <==> Minimal(p, i) {
      assert forall j: nat :: Eligible(p.(next := next), j) <==> Eligible(p, j);
    }
  }

  /** The `i`-th pick of a series is the tied slot at the `i`-th position of the rotation. */
  lemma SeriesPick(run: seq<Pool>, picks: seq<nat>, ties: seq<nat>, i: nat)
    requires Series(run, picks) && AreTies(run[0], ties) && i < |picks|
    ensures ties != [] && picks[i] == ties[PickIndex(run[0].next, i, |ties|)]
  {
    SeriesPool(run, picks, i);
    TiesStay(run[0], run[i].next, ties);
    assert PickedAt(run, picks, i);
  }

  ghost predicate Distinct(picks: seq<nat>) { forall i, j :: 0 <= i < j < |picks| ==> picks[i] != picks[j] }

  /** As many picks as there are tied slots choose them all, and each once. */
  ghost predicate Fair(p: Pool, picks: seq<nat>) {
    Distinct(picks) && forall slot: nat :: slot in picks <==> Minimal(p, slot)
  }

  lemma DistinctIff(run: seq<Pool>, picks: seq<nat>, ties: seq<nat>)
    requires Series(run, picks) && AreTies(run[0], ties) && |picks| == |ties| > 0
    ensures Distinct(picks) <==> EachOnce(run[0].next, |ties|)
  {
    var c, k := run[0].next, |ties|;
    forall i | 0 <= i < k ensures picks[i] == ties[PickIndex(c, i, k)] { SeriesPick(run, picks, ties, i); }
    assert forall a, b :: 0 <= a < k && 0 <= b < k ==> (ties[a] == ties[b] <==> a == b);
    assert forall i, j :: 0 <= i < j < k ==> (picks[i] == picks[j] <==> PickIndex(c, i, k) == PickIndex(c, j, k));
  }

  lemma PicksTied(run: seq<Pool>, picks: seq<nat>, ties: seq<nat>, slot: nat)
    requires Series(run, picks) && AreTies(run[0], ties) && |picks| == |ties|
    requires run[0].next + |ties| <= U32 || (ties != [] && U32 % |ties| == 0)
    ensures slot in picks <==> slot in ties
  {
    if slot in ties {
      var t :| 0 <= t < |ties| && ties[t] == slot;
      var i := SomePick(run[0].next, |ties|, t);
      SeriesPick(run, picks, ties, i);
    }
    if slot in picks {
      var i :| 0 <= i < |picks| && picks[i] == slot;
      SeriesPick(run, picks, ties, i);
    }
  }

  /**
   `k` consecutive picks among `k` tied slots choose each once, if and only if the 32-bit counter does
   not wrap among them or `k` divides 2^32.
   */
  lemma RotationIsFair(run: seq<Pool>, picks: seq<nat>, ties: seq<nat>)
    requires Series(run, picks) && AreTies(run[0], ties) && |picks| == |ties| > 0
    ensures Fair(run[0], picks) <==> run[0].next + |ties| <= U32 || U32 % |ties| == 0
  {
    DistinctIff(run, picks, ties);
    EachOnceIff(run[0].next, |ties|);
    if run[0].next + |ties| <= U32 || U32 % |ties| == 0 {
      forall slot: nat ensures slot in picks <==> slot in ties { PicksTied(run, picks, ties, slot); }
    }
  }

  /** Three tied slots and a counter at its last value: the first two picks fall on the same slot. */
  lemma WrapRepeats(run: seq<Pool>, picks: seq<nat>)
    requires var p := Pool([Some(7), Some(8), Some(9)], [true, true, true], [0, 0, 0], U32 - 1);
             |run| == 4 && run[0] == p && Series(run, picks)
    ensures picks[0] == picks[1] == 0 && !Fair(run[0], picks)
  {
    var p, ties := run[0], [0, 1, 2];
    forall i: nat ensures i in ties <==> Minimal(p, i) {
      assert Eligible(p, i) <==> i < 3;
      assert forall j: nat :: Eligible(p, j) ==> Load(p, j) == 0;
    }
    SeriesPick(run, picks, ties, 0);
    SeriesPick(run, picks, ties, 1);
  }
}
