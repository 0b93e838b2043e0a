/**
 Admission of routes
 (`crates/ssh-proxy-route/src/conflict.rs`): a candidate is judged against the routes
 that run, which the daemon hands over in no particular order.
 */
module RouteConflict {
  import opened Bytes
  import opened Characters
  import opened Json

  datatype Route =
    Route(id: string, direction: string, listen: Option<string>, peer: Option<string>, spec: Json)

  datatype Candidate =
    Candidate(id: Option<string>, direction: string, listen: string, peer: Option<string>, spec: Json)

  datatype Decision =
    | Available
    | ReuseExisting(routeId: string)
    | DifferentSpec(routeId: string)
    | ListenerReserved(routeId: string)

  // Specifications

  predicate IsReverse(v: Json) {
    var direction := Get(v, "direction");
    direction.Some? && direction.value.Str? && EqIgnoreAsciiCase(direction.value.s, "reverse")
  }

  predicate HasReverse(v: Json) {
    var reverse := Get(v, "reverse");
    reverse.Some? && reverse.value.Object?
  }

  function Normalized(v: Json): Json {
    if IsReverse(v) && HasReverse(v)
    then Object(v.fields["reverse" := Object(v.fields["reverse"].fields - {"identity"})])
    else v
  }

  predicate SpecsMatch(left: Json, right: Json) { Normalized(left) == Normalized(right) }

  // Decisions

  predicate Matches(route: Route, candidate: Candidate) {
    && route.direction == candidate.direction
    && route.listen == Some(candidate.listen)
    && (candidate.peer.Some? ==> route.peer == candidate.peer)
    && SpecsMatch(route.spec, candidate.spec)
  }

  predicate Reserves(route: Route, candidate: Candidate) {
    && route.direction == candidate.direction
    && route.listen == Some(candidate.listen)
    && (candidate.direction == "forward" || (candidate.peer.Some? && route.peer == candidate.peer))
  }

  function WithId(routes: seq<Route>, id: Option<string>): (r: Option<Route>)
    ensures r.Some? ==> r.value in routes && Some(r.value.id) == id
    ensures r.None? ==> forall route :: route in routes ==> Some(route.id) != id
  {
    if routes == [] then None
    else if Some(routes[0].id) == id then Some(routes[0])
    else WithId(routes[1..], id)
  }

  function Reserving(routes: seq<Route>, candidate: Candidate): (r: Option<Route>)
    ensures r.Some? ==> r.value in routes && Reserves(r.value, candidate)
    ensures r.None? ==> forall route :: route in routes ==> !Reserves(route, candidate)
  {
    if routes == [] then None
    else if Reserves(routes[0], candidate) then Some(routes[0])
    else Reserving(routes[1..], candidate)
  }

  function Decide(existing: seq<Route>, candidate: Candidate): Decision {
    match WithId(existing, candidate.id)
    case Some(route) => if Matches(route, candidate) then ReuseExisting(route.id) else DifferentSpec(route.id)
    case None =>
      match Reserving(existing, candidate)
      case Some(route) => ListenerReserved(route.id)
      case None => Available
  }

  // Registries

  /** Two routes want the same listener: a forward listener is one per address, others one per address and peer. */
  predicate Compete(a: Route, b: Route) {
    && a.direction == b.direction
    && a.listen.Some? && a.listen == b.listen
    && (a.direction == "forward" || (a.peer.Some? && a.peer == b.peer))
  }

  predicate Sound(routes: seq<Route>) {
    forall i, j :: 0 <= i < j < |routes| ==> routes[i].id != routes[j].id && !Compete(routes[i], routes[j])
  }

  datatype Event = Submit(candidate: Candidate) | Stop(id: string)

  function RouteOf(c: Candidate): Route
    requires c.id.Some?
  {
    Route(c.id.value, c.direction, Some(c.listen), c.peer, c.spec)
  }

  function Without(routes: seq<Route>, id: string): seq<Route> {
    if routes == [] then []
    else (if routes[0].id == id then [] else [routes[0]]) + Without(routes[1..], id)
  }

  function Step(routes: seq<Route>, event: Event): seq<Route> {
    match event
    case Submit(c) => if c.id.Some? && Decide(routes, c) == Available then routes + [RouteOf(c)] else routes
    case Stop(id) => Without(routes, id)
  }

  function Run(events: seq<Event>): seq<Route> {
    if events == [] then [] else Step(Run(events[..|events| - 1]), events[|events| - 1])
  }

  lemma {:induction false} WithoutKeeps(routes: seq<Route>, id: string)
    requires Sound(routes)
    ensures Sound(Without(routes, id))
    ensures forall r :: r in Without(routes, id) <==> r in routes && r.id != id
  {
    if routes != [] {
      assert Sound(routes[1..]);
      WithoutKeeps(routes[1..], id);
      assert routes == [routes[0]] + routes[1..];
      forall r | r in routes[1..]
        ensures routes[0].id != r.id && !Compete(routes[0], r)
      {
        var j :| 0 <= j < |routes[1..]| && routes[1..][j] == r;
        assert routes[j + 1] == r;
      }
    }
  }

  lemma StepKeeps(routes: seq<Route>, event: Event)
    requires Sound(routes)
    ensures Sound(Step(routes, event))
  {
    match event
    case Stop(id) => WithoutKeeps(routes, id);
    case Submit(c) =>
      if c.id.Some? && Decide(routes, c) == Available {
        forall r | r in routes
          ensures r.id != RouteOf(c).id && !Compete(r, RouteOf(c))
        {
          assert !(Some(r.id) == c.id) && !Reserves(r, c);
        }
      }
  }

  /** Whatever is submitted and stopped, no two routes have one id and no two want the same listener. */
  lemma {:induction false} RunIsSound(events: seq<Event>)
    ensures Sound(Run(events))
  {
    if events != [] {
      RunIsSound(events[..|events| - 1]);
      StepKeeps(Run(events[..|events| - 1]), events[|events| - 1]);
    }
  }

  // The decision as a judgement about a set of routes

  ghost predicate HasId(routes: seq<Route>, id: Option<string>) {
    exists r :: r in routes && Some(r.id) == id
  }

  lemma SameRoute(routes: seq<Route>, a: Route, b: Route)
    requires Sound(routes) && a in routes && b in routes
    requires a.id == b.id || Compete(a, b) || Compete(b, a)
    ensures a == b
  {
    var i :| 0 <= i < |routes| && routes[i] == a;
    var j :| 0 <= j < |routes| && routes[j] == b;
    assert i == j;
  }

  // What matching of specifications ignores

  /** The value with its reverse section's identity set, or removed. */
  function WithIdentity(v: Json, identity: Option<Json>): Json
    requires HasReverse(v)
  {
    var section := v.fields["reverse"].fields;
    Object(v.fields["reverse" := Object(
      match identity case Some(x) => section["identity" := x] case None => section - {"identity"})])
  }

  lemma NormalizedIgnoresIdentity(v: Json, identity: Option<Json>)
    requires IsReverse(v) && HasReverse(v)
    ensures Normalized(WithIdentity(v, identity)) == Normalized(v)
  {
    var w := WithIdentity(v, identity);
    assert Get(w, "direction") == Get(v, "direction");
    assert w.fields["reverse"].fields - {"identity"} == v.fields["reverse"].fields - {"identity"};
    assert Normalized(w).fields == Normalized(v).fields;
  }

  lemma NormalizedStays(v: Json)
    ensures IsReverse(Normalized(v)) == IsReverse(v) && HasReverse(Normalized(v)) == HasReverse(v)
  {
    assert Get(Normalized(v), "direction") == Get(v, "direction");
  }

  lemma IdentityTells(a: Json, b: Json)
    requires IsReverse(a) && HasReverse(a) && IsReverse(b) && HasReverse(b) && SpecsMatch(a, b)
    ensures b == WithIdentity(a, Get(b.fields["reverse"], "identity"))
  {
    var w := WithIdentity(a, Get(b.fields["reverse"], "identity"));
    var before, after := Normalized(a), Normalized(b);
    assert before.fields["reverse"] == after.fields["reverse"];
    forall key | key in b.fields["reverse"].fields || key in w.fields["reverse"].fields
      ensures key in b.fields["reverse"].fields && key in w.fields["reverse"].fields
      ensures b.fields["reverse"].fields[key] == w.fields["reverse"].fields[key]
    {
      assert key in before.fields["reverse"].fields || key == "identity";
    }
    assert b.fields["reverse"].fields == w.fields["reverse"].fields;
    forall key | key in b.fields || key in w.fields
      ensures key in b.fields && key in w.fields && b.fields[key] == w.fields[key]
    {
      assert key in before.fields;
    }
    assert b.fields == w.fields;
  }

  /**
   Specifications match exactly when they are equal, or are reverse specifications of
   which one is the other with another identity, or none.
   */
  lemma SpecsMatchIff(a: Json, b: Json)
    ensures SpecsMatch(a, b)
       <==> a == b || (IsReverse(a) && HasReverse(a) && exists identity :: b == WithIdentity(a, identity))
  {
    NormalizedStays(a);
    NormalizedStays(b);
    if IsReverse(a) && HasReverse(a) {
      if identity :| b == WithIdentity(a, identity) {
        NormalizedIgnoresIdentity(a, identity);
      }
      if SpecsMatch(a, b) { IdentityTells(a, b); }
    }
  }

  /** `b` is the reverse specification `a` with this identity in its reverse section, or without one. */
  predicate DiffersInIdentity(a: Json, b: Json, direction: string, section: map<string, Json>, identity: Option<Json>) {
    && a.Object? && "direction" in a.fields && a.fields["direction"] == Str(direction) && SameText(direction, "reverse")
    && "reverse" in a.fields && a.fields["reverse"] == Object(section)
    && b == Object(a.fields["reverse" := Object(
         match identity case Some(x) => section["identity" := x] case None => section - {"identity"})])
  }

  ghost predicate OtherIdentity(a: Json, b: Json) {
    exists direction, section, identity :: DiffersInIdentity(a, b, direction, section, identity)
  }

  lemma SpecsMatchExactly(a: Json, b: Json)
    ensures SpecsMatch(a, b) <==> a == b || OtherIdentity(a, b)
  {
    SpecsMatchIff(a, b);
    if Get(a, "direction").Some? && Get(a, "direction").value.Str? { IgnoreCaseIs(Get(a, "direction").value.s, "reverse"); }
    if IsReverse(a) && HasReverse(a) && exists identity :: b == WithIdentity(a, identity) {
      var identity :| b == WithIdentity(a, identity);
      assert DiffersInIdentity(a, b, a.fields["direction"].s, a.fields["reverse"].fields, identity);
    }
    if OtherIdentity(a, b) {
      var direction, section, identity :| DiffersInIdentity(a, b, direction, section, identity);
      assert b == WithIdentity(a, identity);
    }
  }

  // What is decided

  lemma SameIdDecides(routes: seq<Route>, c: Candidate, r: Route)
    requires Sound(routes) && r in routes && Some(r.id) == c.id
    ensures WithId(routes, c.id) == Some(r)
  {
    SameRoute(routes, r, WithId(routes, c.id).value);
  }

  /**
   A candidate with the id of a running route reuses it if and only if direction and listener are equal, the
   peer, if it names one, is the route's, and the specifications are equal but for a reverse identity.
   */
  lemma ReuseExactly(routes: seq<Route>, c: Candidate, r: Route)
    requires Sound(routes) && r in routes && Some(r.id) == c.id
    ensures Decide(routes, c) ==
            if && r.direction == c.direction && r.listen == Some(c.listen)
               && (c.peer.None? || r.peer == c.peer)
               && (r.spec == c.spec || OtherIdentity(r.spec, c.spec))
            then ReuseExisting(r.id) else DifferentSpec(r.id)
  {
    SameIdDecides(routes, c, r);
    SpecsMatchExactly(r.spec, c.spec);
  }

  /** The route holds the listener that the candidate asks for: a forward one is held alone, another one for its peer. */
  predicate Holds(r: Route, c: Candidate) {
    && r.direction == c.direction && r.listen == Some(c.listen)
    && (r.direction == "forward" || (r.peer.Some? && r.peer == c.peer))
  }

  /** A candidate with no running route's id is refused for a route that holds its listener, and else available. */
  lemma ListenerExactly(routes: seq<Route>, c: Candidate)
    requires Sound(routes) && !HasId(routes, c.id)
    ensures Decide(routes, c) == Available <==> forall r :: r in routes ==> !Holds(r, c)
    ensures forall r :: r in routes && Holds(r, c) ==> Decide(routes, c) == ListenerReserved(r.id)
  {
    var reserving := Reserving(routes, c);
    forall r | r in routes && Holds(r, c) ensures reserving == Some(r) {
      assert Reserves(r, c);
      SameRoute(routes, r, reserving.value);
    }
  }

  /** The order in which the daemon lists its routes does not matter. */
  lemma OrderIrrelevant(a: seq<Route>, b: seq<Route>, c: Candidate)
    requires Sound(a) && Sound(b) && forall r :: r in a <==> r in b
    ensures Decide(a, c) == Decide(b, c)
  {
    if HasId(a, c.id) {
      var r :| r in a && Some(r.id) == c.id;
      ReuseExactly(a, c, r);
      ReuseExactly(b, c, r);
    } else {
      assert !HasId(b, c.id);
      ListenerExactly(a, c);
      ListenerExactly(b, c);
      if r :| r in a && Holds(r, c) {
        assert r in b;
      }
    }
  }

  /** An admitted route, submitted again at any later time while it runs, is reused. */
  lemma ResubmitReuses(events: seq<Event>, c: Candidate)
    requires c.id.Some? && RouteOf(c) in Run(events)
    ensures Decide(Run(events), c) == ReuseExisting(c.id.value)
  {
    RunIsSound(events);
    ReuseExactly(Run(events), c, RouteOf(c));
  }

  /** A candidate with an id that is judged available runs from then on, as it was submitted. */
  lemma AvailableRuns(events: seq<Event>, c: Candidate)
    requires c.id.Some? && Decide(Run(events), c) == Available
    ensures Route(c.id.value, c.direction, Some(c.listen), c.peer, c.spec) in Run(events + [Submit(c)])
  {
    var longer := events + [Submit(c)];
    assert longer[..|longer| - 1] == events;
  }

  /** A submitted route runs until its own id is stopped, whatever else is submitted or stopped. */
  lemma {:induction false} RunsUntilStopped(events: seq<Event>, n: nat, r: Route)
    requires n <= |events| && r in Run(events[..n])
    requires forall i :: n <= i < |events| ==> events[i] != Stop(r.id)
    ensures r in Run(events)
    decreases |events| - n
  {
    if n == |events| {
      assert events[..n] == events;
    } else {
      var shorter := events[..n + 1];
      assert shorter[..n] == events[..n] && shorter[n] == events[n];
      RunIsSound(events[..n]);
      if events[n].Stop? { WithoutKeeps(Run(events[..n]), events[n].id); }
      RunsUntilStopped(events, n + 1, r);
    }
  }

  /** The event submits the route, and it is available. */
  predicate Admits(routes: seq<Route>, event: Event, r: Route) {
    event.Submit? &&
    var c := event.candidate;
    c.id.Some? && Decide(routes, c) == Available && r == Route(c.id.value, c.direction, Some(c.listen), c.peer, c.spec)
  }

  /** The `n`th event admitted the route, and no later one stopped it. */
  ghost predicate AdmittedAt(events: seq<Event>, n: nat, r: Route) {
    && n < |events| && Admits(Run(events[..n]), events[n], r)
    && forall i :: n < i < |events| ==> events[i] != Stop(r.id)
  }

  lemma RunsAfterStep(routes: seq<Route>, event: Event, r: Route)
    requires Sound(routes) && r in Step(routes, event)
    ensures Admits(routes, event, r) || (r in routes && event != Stop(r.id))
  {
    if event.Stop? { WithoutKeeps(routes, event.id); }
  }

  lemma {:induction false} RunningWasAdmitted(events: seq<Event>, r: Route) returns (n: nat)
    requires r in Run(events)
    ensures AdmittedAt(events, n, r)
  {
    n := |events| - 1;
    var before := events[..n];
    RunIsSound(before);
    RunsAfterStep(Run(before), events[n], r);
    if !Admits(Run(before), events[n], r) {
      n := RunningWasAdmitted(before, r);
      assert before[..n] == events[..n];
    }
  }

  /** A route runs if and only if it was submitted when it was available and has not been stopped since. */
  lemma RunsIff(events: seq<Event>, r: Route)
    ensures r in Run(events) <==> exists n: nat :: AdmittedAt(events, n, r)
  {
    if r in Run(events) {
      var n := RunningWasAdmitted(events, r);
    }
    if n: nat :| AdmittedAt(events, n, r) {
      AvailableRuns(events[..n], events[n].candidate);
      assert events[..n + 1] == events[..n] + [events[n]];
      RunsUntilStopped(events, n + 1, r);
    }
  }
}
