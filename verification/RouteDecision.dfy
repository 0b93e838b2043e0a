/**
 Choosing a route's transport: selection
 (`crates/ssh-proxy-route/src/decision.rs`), probing and fallback
 (`crates/ssh-proxy-route/src/preflight.rs`, applied by
 `crates/ssh-proxy/src/route/preflight.rs`) and the topology class that the plan
 reports (`crates/ssh-proxy-route/src/plan.rs`).
 */
module RouteDecision {
  import opened Bytes
  import opened Characters
  import opened Json
  import opened Sequences

  datatype Mode = Auto | SshNative | QuicNative | Quic | TlsTcp | PlainTcp | Exec | Tcp

  const TOPOLOGY := "topology"
  const BENCHMARK := "benchmark-tuned default"

  // Selection

  datatype PolicyInput = PolicyInput(
    requested: Mode,
    profileTransport: Option<string>,
    defaultsTransport: Option<string>,
    remoteQuic: Option<string>,
    remoteTls: Option<string>,
    allowPlainTcp: bool,
    cliAllowPlainTcp: bool,
    profileAllowPlainTcp: Option<bool>,
    defaultsAllowPlainTcp: Option<bool>,
    persistentPeerReady: bool)

  datatype Selection = Selection(mode: Mode, source: string)

  function ParseMode(value: string): Result<Mode> {
    var v := AsciiLower(value);
    if v == "auto" then Ok(Auto)
    else if v in ["quic-native", "quic_native", "native-quic", "native_quic"] then Ok(QuicNative)
    else if v in ["ssh-native", "ssh_native", "native-ssh", "native_ssh"] then Ok(SshNative)
    else if v == "quic" then Ok(Quic)
    else if v in ["tls-tcp", "tls_tcp", "tls"] then Ok(TlsTcp)
    else if v in ["plain-tcp", "plain_tcp", "tcp-plain", "direct-tcp", "direct_tcp"] then Ok(PlainTcp)
    else if v == "exec" then Ok(Exec)
    else if v == "tcp" then Ok(Tcp)
    else Err
  }

  function PlainTcpSource(input: PolicyInput): Option<string> {
    if input.cliAllowPlainTcp then Some("cli")
    else if input.profileAllowPlainTcp == Some(true) then Some("profile")
    else if input.defaultsAllowPlainTcp == Some(true) then Some(BENCHMARK)
    else None
  }

  function OrElse(o: Option<string>, other: string): string { if o.Some? then o.value else other }

  /** A transport setting read from a file; none is like `auto`. */
  function Setting(value: Option<string>): Result<Mode> {
    if value.Some? then ParseMode(value.value) else Ok(Auto)
  }

  /** `transport_selection_policy`. */
  function Select(input: PolicyInput): Result<Selection> {
    if input.requested != Auto then Ok(Selection(input.requested, "cli"))
    else
      var profile :- Setting(input.profileTransport);
      if profile != Auto then Ok(Selection(profile, "profile"))
      else if input.remoteTls.Some? then Ok(Selection(TlsTcp, TOPOLOGY))
      else if input.remoteQuic.Some? then Ok(Selection(Quic, TOPOLOGY))
      else
        var defaults :- Setting(input.defaultsTransport);
        if defaults == PlainTcp && input.allowPlainTcp then
          Ok(Selection(PlainTcp, OrElse(PlainTcpSource(input), BENCHMARK)))
        else if defaults != Auto && defaults != PlainTcp then Ok(Selection(defaults, "defaults"))
        else if input.allowPlainTcp then Ok(Selection(PlainTcp, OrElse(PlainTcpSource(input), "cli")))
        else if input.persistentPeerReady then Ok(Selection(Tcp, "peer-default"))
        else Ok(Selection(SshNative, TOPOLOGY))
  }

  // Probes

  datatype Probe = Probe(
    protocol: string, endpoint: Option<string>, reachable: Option<bool>, status: string, message: string)

  predicate DirectProtocol(protocol: string) { protocol in ["quic", "tls-tcp", "plain-tcp"] }

  predicate DirectFailed(p: Probe) { DirectProtocol(p.protocol) && p.reachable == Some(false) }

  predicate DirectReachable(p: Probe) { DirectProtocol(p.protocol) && p.reachable == Some(true) }

  function Filter(probes: seq<Probe>, keep: Probe -> bool): seq<Probe> {
    if probes == [] then [] else (if keep(probes[0]) then [probes[0]] else []) + Filter(probes[1..], keep)
  }

  datatype Preflight = Preflight(
    timeoutMs: nat, results: seq<Probe>, candidateFailures: seq<Probe>, recommendedFallback: Option<string>)

  /** `decide_route_preflight`, without its display texts. */
  function DecidePreflight(timeoutMs: nat, results: seq<Probe>): Preflight {
    var failures := Filter(results, DirectFailed);
    var successes := |Filter(results, DirectReachable)|;
    Preflight(timeoutMs, results, failures,
              if |failures| > 0 && successes == 0 then Some("ssh-native") else None)
  }

  // Fallback

  datatype Fallback = Fallback(mode: Mode, source: string)

  /** `decide_route_fallback`. */
  function DecideFallback(recommended: Option<string>, current: Mode, source: Option<string>): Option<Fallback> {
    if recommended.None? then None
    else if current != Auto && source != Some(TOPOLOGY) && source != Some(BENCHMARK) then None
    else if recommended.value != "ssh-native" && recommended.value != "ssh-direct-tcpip" then None
    else Some(Fallback(SshNative, "route-preflight"))
  }

  // The plan as JSON

  function OptionalText(o: Option<string>): Json { if o.Some? then Str(o.value) else Null }

  function ProbeJson(p: Probe): Json {
    Object(map["protocol" := Str(p.protocol), "endpoint" := OptionalText(p.endpoint),
               "reachable" := if p.reachable.Some? then Bool(p.reachable.value) else Null,
               "status" := Str(p.status), "message" := Str(p.message)])
  }

  function ProbesJson(probes: seq<Probe>): Json {
    Array(seq(|probes|, i requires 0 <= i < |probes| => ProbeJson(probes[i])))
  }

  /** `to_plan_value`. */
  function PlanValue(p: Preflight): Json {
    Object(map["kind" := Str("local-direct-transport-probe"), "timeout_ms" := Integer(p.timeoutMs),
               "results" := ProbesJson(p.results), "candidate_failures" := ProbesJson(p.candidateFailures),
               "recommended_fallback" := OptionalText(p.recommendedFallback)])
  }

  function Lookup(v: Option<Json>, key: string): Option<Json> { if v.Some? then Get(v.value, key) else None }

  function Items(v: Option<Json>): seq<Json> { if v.Some? && v.value.Array? then v.value.items else [] }

  predicate ShowsReachable(result: Json) {
    var protocol := Lookup(Some(result), "protocol");
    && protocol.Some? && protocol.value.Str? && DirectProtocol(protocol.value.s)
    && Lookup(Some(result), "reachable") == Some(Bool(true))
  }

  predicate SomeReachable(results: seq<Json>) { exists i :: 0 <= i < |results| && ShowsReachable(results[i]) }

  /** `route_topology_class`. */
  function TopologyClass(preflight: Option<Json>, topology: Option<Json>): string {
    var recommended := Lookup(preflight, "recommended_fallback");
    var hasDirect := Items(Lookup(topology, "direct_private_candidates")) != [];
    if SomeReachable(Items(Lookup(preflight, "results"))) then "direct-reachable"
    else if recommended.Some? && recommended.value.Str? then "ssh-only"
    else if Items(Lookup(topology, "ssh_jump_chain")) != [] && hasDirect then "mixed"
    else if hasDirect then "unknown-direct"
    else "ssh-reachable"
  }

  // Probing and falling back, on the route's arguments and its plan

  /** `remote_transport_name`. */
  function ModeName(mode: Mode): string {
    match mode
    case Auto => "auto"
    case SshNative => "ssh-native"
    case QuicNative => "quic-native"
    case Quic => "quic"
    case TlsTcp => "tls-tcp"
    case PlainTcp => "plain-tcp"
    case Exec => "ssh-exec"
    case Tcp => "ssh-direct-tcpip"
  }

  class Forward {
    var transport: Mode
    var source: Option<string>
  }

  class Plan {
    var fields: map<string, Json>
  }

  datatype State = State(mode: Mode, source: Option<string>, plan: map<string, Json>)

  function StateOf(forward: Forward, plan: Plan): State
    reads forward, plan
  {
    State(forward.transport, forward.source, plan.fields)
  }

  function AddProbes(s: State, timeoutMs: nat, results: seq<Probe>): State {
    s.(plan := s.plan["preflight" := PlanValue(DecidePreflight(timeoutMs, results))])
  }

  function Recommended(plan: map<string, Json>): Option<string> {
    var text := Lookup(Lookup(Some(Object(plan)), "preflight"), "recommended_fallback");
    if text.Some? && text.value.Str? then Some(text.value.s) else None
  }

  function Rewritten(plan: map<string, Json>, f: Fallback): map<string, Json> {
    plan["selected_transport" := Str(ModeName(f.mode))]["transport_selection_source" := Str(f.source)]
  }

  function ApplyFallback(s: State): State {
    match DecideFallback(Recommended(s.plan), s.mode, s.source)
    case None => s
    case Some(f) => State(f.mode, Some(f.source), Rewritten(s.plan, f))
  }

  /** `add_local_transport_probe_results`, given what the probes found. */
  method AddLocalTransportProbeResults(plan: Plan, forward: Forward, timeoutMs: nat, results: seq<Probe>)
    modifies plan
    ensures StateOf(forward, plan) == AddProbes(old(StateOf(forward, plan)), timeoutMs, results)
  {
    var decision := DecidePreflight(timeoutMs, results);
    plan.fields := plan.fields["preflight" := PlanValue(decision)];
  }

  /** `apply_local_forward_fallback`, without the display texts. */
  method ApplyLocalForwardFallback(forward: Forward, plan: Plan) returns (applied: bool)
    modifies forward, plan
    ensures StateOf(forward, plan) == ApplyFallback(old(StateOf(forward, plan)))
    ensures !applied ==> StateOf(forward, plan) == old(StateOf(forward, plan))
  {
    var recommended := Recommended(plan.fields);
    if recommended.None? { return false; }
    var decision := DecideFallback(recommended, forward.transport, forward.source);
    if decision.None? { return false; }
    forward.transport := decision.value.mode;
    forward.source := Some(decision.value.source);
    plan.fields := plan.fields["selected_transport" := Str(ModeName(decision.value.mode))];
    plan.fields := plan.fields["transport_selection_source" := Str(decision.value.source)];
    return true;
  }

  // What a run of probes and fallbacks does

  /** Some direct transport was probed and failed, and none was reached. */
  predicate AllDirectFailed(results: seq<Probe>) {
    && (exists i :: 0 <= i < |results| && DirectFailed(results[i]))
    && (forall i :: 0 <= i < |results| ==> !DirectReachable(results[i]))
  }

  /**
   Nobody chose the transport: neither the caller nor the profile names one, and either a
   direct endpoint is configured, or plain TCP is allowed by the defaults alone, or
   nothing is configured at all.
   */
  predicate ChosenByDefault(input: PolicyInput) {
    && input.requested == Auto
    && Setting(input.profileTransport) == Ok(Auto)
    && (|| input.remoteTls.Some?
        || input.remoteQuic.Some?
        || (&& Setting(input.defaultsTransport) in [Ok(Auto), Ok(PlainTcp)]
            && if input.allowPlainTcp then
                 && !input.cliAllowPlainTcp
                 && input.profileAllowPlainTcp != Some(true)
                 && (input.defaultsAllowPlainTcp == Some(true) || Setting(input.defaultsTransport) == Ok(PlainTcp))
               else !input.persistentPeerReady))
  }

  /** The names under which a setting may give a mode. */
  function Names(m: Mode): seq<string> {
    match m
    case Auto => ["auto"]
    case SshNative => ["ssh-native", "ssh_native", "native-ssh", "native_ssh"]
    case QuicNative => ["quic-native", "quic_native", "native-quic", "native_quic"]
    case Quic => ["quic"]
    case TlsTcp => ["tls-tcp", "tls_tcp", "tls"]
    case PlainTcp => ["plain-tcp", "plain_tcp", "tcp-plain", "direct-tcp", "direct_tcp"]
    case Exec => ["exec"]
    case Tcp => ["tcp"]
  }

  lemma NativeNamesAreLower(m: Mode, i: nat)
    requires (m.SshNative? || m.QuicNative?) && i < |Names(m)|
    ensures NoCapitals(Names(m)[i])
  {
  }

  lemma NamesAreLower(m: Mode, i: nat)
    requires i < |Names(m)|
    ensures NoCapitals(Names(m)[i])
  {
    if m.SshNative? || m.QuicNative? { NativeNamesAreLower(m, i); }
  }

  /** No name stands for two modes: those of equal length differ in their first two characters. */
  lemma NamesDiffer(m: Mode, i: nat, k: Mode, j: nat)
    requires i < |Names(m)| && j < |Names(k)| && Names(m)[i] == Names(k)[j]
    ensures m == k
  {
    assert |Names(m)[i]| == |Names(k)[j]| && Names(m)[i][0] == Names(k)[j][0] && Names(m)[i][1] == Names(k)[j][1];
  }

  lemma ParsedNames(value: string, m: Mode)
    ensures ParseMode(value) == Ok(m) ==> AsciiLower(value) in Names(m)
    ensures ParseMode(value).Err? ==> AsciiLower(value) !in Names(m)
  {
  }

  /** A setting is read as a mode if and only if it is one of the mode's names, in any case of letters. */
  lemma ParseModeIs(value: string, m: Mode)
    ensures ParseMode(value) == Ok(m) <==> exists i :: 0 <= i < |Names(m)| && SameText(value, Names(m)[i])
  {
    ParsedNames(value, m);
    forall i | 0 <= i < |Names(m)| ensures AsciiLower(value) == Names(m)[i] <==> SameText(value, Names(m)[i]) {
      NamesAreLower(m, i);
      LowersTo(value, Names(m)[i]);
    }
    if i :| 0 <= i < |Names(m)| && AsciiLower(value) == Names(m)[i] {
      var k := ParseMode(value).value;
      ParsedNames(value, k);
      var j :| 0 <= j < |Names(k)| && Names(k)[j] == AsciiLower(value);
      NamesDiffer(m, i, k, j);
    }
  }

  /** A setting that is left out is like `auto`; one that is given is read by its names. */
  lemma SettingIs(value: Option<string>, m: Mode)
    ensures Setting(value) == Ok(m) <==>
            if value.None? then m == Auto else exists i :: 0 <= i < |Names(m)| && SameText(value.value, Names(m)[i])
  {
    if value.Some? { ParseModeIs(value.value, m); }
  }

  /** The selections that the input calls for, the most wanted first; those that do not apply are left out. */
  function Wanted(input: PolicyInput, profile: Mode, defaults: Mode): seq<Option<Selection>> {
    var plainSource := if input.cliAllowPlainTcp then "cli"
                       else if input.profileAllowPlainTcp == Some(true) then "profile"
                       else if input.defaultsAllowPlainTcp == Some(true) || defaults == PlainTcp then BENCHMARK
                       else "cli";
    [ if input.requested == Auto then None else Some(Selection(input.requested, "cli")),
      if profile == Auto then None else Some(Selection(profile, "profile")),
      if input.remoteTls.None? then None else Some(Selection(TlsTcp, TOPOLOGY)),
      if input.remoteQuic.None? then None else Some(Selection(Quic, TOPOLOGY)),
      if defaults in [Auto, PlainTcp] then None else Some(Selection(defaults, "defaults")),
      if !input.allowPlainTcp then None else Some(Selection(PlainTcp, plainSource)),
      if !input.persistentPeerReady then None else Some(Selection(Tcp, "peer-default")),
      Some(Selection(SshNative, TOPOLOGY)) ]
  }

  /** The setting's mode; an unreadable one matters only where selection does not get to it. */
  function ModeOf(value: Option<string>): Mode { if Setting(value).Ok? then Setting(value).value else Auto }

  /** The first selection that applies. */
  ghost predicate FirstWanted(wanted: seq<Option<Selection>>, s: Selection) {
    exists i :: 0 <= i < |wanted| && wanted[i] == Some(s) && forall j :: 0 <= j < i ==> wanted[j] == None
  }

  lemma FirstIsOne(wanted: seq<Option<Selection>>, s: Selection, t: Selection)
    requires FirstWanted(wanted, s) && FirstWanted(wanted, t)
    ensures s == t
  {
    var i :| 0 <= i < |wanted| && wanted[i] == Some(s) && forall j :: 0 <= j < i ==> wanted[j] == None;
    var k :| 0 <= k < |wanted| && wanted[k] == Some(t) && forall j :: 0 <= j < k ==> wanted[j] == None;
    assert i == k;
  }

  lemma AtPlace(wanted: seq<Option<Selection>>, i: nat, s: Selection)
    requires i < |wanted| && wanted[i] == Some(s) && forall j :: 0 <= j < i ==> wanted[j] == None
    ensures FirstWanted(wanted, s)
  {
  }

  /** Selection fails exactly on a setting that it reads and cannot parse, and else makes the first choice that applies. */
  lemma SelectionIs(input: PolicyInput)
    ensures Select(input).Err? <==>
            && input.requested == Auto
            && (|| Setting(input.profileTransport).Err?
                || (&& Setting(input.profileTransport) == Ok(Auto)
                    && input.remoteTls.None? && input.remoteQuic.None? && Setting(input.defaultsTransport).Err?))
    ensures Select(input).Ok? ==>
              FirstWanted(Wanted(input, ModeOf(input.profileTransport), ModeOf(input.defaultsTransport)), Select(input).value)
    ensures Select(input).Ok? ==> Select(input).value.mode != Auto
    ensures Select(input).Ok? ==>
              (Select(input).value.source in [TOPOLOGY, BENCHMARK] <==> ChosenByDefault(input))
  {
    assert |"cli"| == 3 && |"profile"| == 7 && |"defaults"| == 8 && |"peer-default"| == 12;
    assert |TOPOLOGY| == 8 && |BENCHMARK| == 23 && TOPOLOGY[0] == 't' && "defaults"[0] == 'd';
    if Select(input).Ok? { SelectsFirst(input); }
  }

  lemma SelectsFirst(input: PolicyInput)
    requires Select(input).Ok?
    ensures FirstWanted(Wanted(input, ModeOf(input.profileTransport), ModeOf(input.defaultsTransport)), Select(input).value)
  {
    var profile, defaults := ModeOf(input.profileTransport), ModeOf(input.defaultsTransport);
    var wanted := Wanted(input, profile, defaults);
    var i := if input.requested != Auto then 0
             else if profile != Auto then 1
             else if input.remoteTls.Some? then 2
             else if input.remoteQuic.Some? then 3
             else if defaults !in [Auto, PlainTcp] then 4
             else if input.allowPlainTcp then 5
             else if input.persistentPeerReady then 6
             else 7;
    AtPlace(wanted, i, Select(input).value);
  }

  lemma {:induction false} FilterEmpty(probes: seq<Probe>, keep: Probe -> bool)
    ensures Filter(probes, keep) == [] <==> forall i :: 0 <= i < |probes| ==> !keep(probes[i])
  {
    if probes != [] {
      FilterEmpty(probes[1..], keep);
      assert forall i :: 0 <= i < |probes| ==> probes[i] == if i == 0 then probes[0] else probes[1..][i - 1];
    }
  }

  lemma {:induction false} FilterConcat(a: seq<Probe>, b: seq<Probe>, keep: Probe -> bool)
    ensures Filter(a + b, keep) == Filter(a, keep) + Filter(b, keep)
  {
    if a == [] {
      assert a + b == b;
    } else {
      FilterConcat(a[1..], b, keep);
      assert (a + b)[0] == a[0] && (a + b)[1..] == a[1..] + b;
      Associate(if keep(a[0]) then [a[0]] else [], Filter(a[1..], keep), Filter(b, keep));
    }
  }

  lemma FilterOne(p: Probe, keep: Probe -> bool)
    ensures Filter([p], keep) == if keep(p) then [p] else []
  {
    assert [p][1..] == [];
  }

  lemma FilterMiddle(before: seq<Probe>, p: Probe, after: seq<Probe>, keep: Probe -> bool)
    ensures Filter(before + [p] + after, keep)
         == Filter(before, keep) + (if keep(p) then [p] else []) + Filter(after, keep)
  {
    FilterConcat(before + [p], after, keep);
    FilterConcat(before, [p], keep);
    FilterOne(p, keep);
  }

  /** The failures reported are the failed direct probes, each as often and in the order they were made. */
  lemma FailuresAre(timeoutMs: nat, before: seq<Probe>, p: Probe, after: seq<Probe>)
    ensures DecidePreflight(timeoutMs, before + [p] + after).candidateFailures
         == DecidePreflight(timeoutMs, before).candidateFailures
            + (if p.protocol in ["quic", "tls-tcp", "plain-tcp"] && p.reachable == Some(false) then [p] else [])
            + DecidePreflight(timeoutMs, after).candidateFailures
    ensures DecidePreflight(timeoutMs, []).candidateFailures == []
  {
    FilterMiddle(before, p, after, DirectFailed);
  }

  lemma PreflightRecommends(timeoutMs: nat, results: seq<Probe>)
    ensures DecidePreflight(timeoutMs, results).recommendedFallback
         == if AllDirectFailed(results) then Some("ssh-native") else None
  {
    FilterEmpty(results, DirectFailed);
    FilterEmpty(results, DirectReachable);
  }

  lemma PlanLookups(p: Preflight)
    ensures Lookup(Some(PlanValue(p)), "results") == Some(ProbesJson(p.results))
    ensures Lookup(Some(PlanValue(p)), "recommended_fallback") == Some(OptionalText(p.recommendedFallback))
  {
    assert |"results"| == 7 && |"candidate_failures"| == 18 && |"recommended_fallback"| == 20;
  }

  lemma PlanFields(p: Preflight)
    ensures Lookup(Some(PlanValue(p)), "timeout_ms") == Some(Integer(p.timeoutMs))
    ensures Lookup(Some(PlanValue(p)), "candidate_failures") == Some(ProbesJson(p.candidateFailures))
  {
    assert |"timeout_ms"| == 10 && |"results"| == 7 && |"candidate_failures"| == 18 && |"recommended_fallback"| == 20;
  }

  lemma ProbeFields(p: Probe)
    ensures Lookup(Some(ProbeJson(p)), "protocol") == Some(Str(p.protocol))
    ensures Lookup(Some(ProbeJson(p)), "endpoint") == Some(OptionalText(p.endpoint))
    ensures Lookup(Some(ProbeJson(p)), "reachable") == Some(if p.reachable.Some? then Bool(p.reachable.value) else Null)
    ensures Lookup(Some(ProbeJson(p)), "status") == Some(Str(p.status))
    ensures Lookup(Some(ProbeJson(p)), "message") == Some(Str(p.message))
  {
    assert |"reachable"| == 9 && |"status"| == 6 && |"message"| == 7;
    assert "protocol"[0] == 'p' && "endpoint"[0] == 'e';
  }

  lemma ProbesAlike(a: seq<Probe>, b: seq<Probe>)
    requires ProbesJson(a) == ProbesJson(b)
    ensures a == b
  {
    var x, y := ProbesJson(a).items, ProbesJson(b).items;
    assert |x| == |a| && |y| == |b|;
    forall i | 0 <= i < |a| ensures a[i] == b[i] {
      assert x[i] == ProbeJson(a[i]) && y[i] == ProbeJson(b[i]);
      ProbeFields(a[i]);
      ProbeFields(b[i]);
    }
  }

  /** The plan's JSON holds all of the preflight decision: different decisions are written differently. */
  lemma PlanHoldsAll(p: Preflight, q: Preflight)
    requires PlanValue(p) == PlanValue(q)
    ensures p == q
  {
    PlanLookups(p);
    PlanLookups(q);
    PlanFields(p);
    PlanFields(q);
    ProbesAlike(p.results, q.results);
    ProbesAlike(p.candidateFailures, q.candidateFailures);
  }

  lemma ProbeShows(p: Probe)
    ensures ShowsReachable(ProbeJson(p)) == DirectReachable(p)
  {
    assert |"protocol"| == 8 && |"endpoint"| == 8 && "protocol"[0] == 'p' && "endpoint"[0] == 'e';
    assert |"reachable"| == 9 && |"status"| == 6 && |"message"| == 7;
    assert Lookup(Some(ProbeJson(p)), "protocol") == Some(Str(p.protocol));
  }

  lemma AnyReachable(results: seq<Probe>)
    ensures SomeReachable(ProbesJson(results).items)
       <==> exists i :: 0 <= i < |results| && DirectReachable(results[i])
  {
    var items := ProbesJson(results).items;
    forall i | 0 <= i < |results|
      ensures ShowsReachable(items[i]) == DirectReachable(results[i])
    {
      ProbeShows(results[i]);
    }
  }

  /** The JSON object has a non-empty array under the key. */
  predicate HasItems(v: Option<Json>, key: string) {
    && v.Some? && v.value.Object? && key in v.value.fields
    && v.value.fields[key].Array? && v.value.fields[key].items != []
  }

  lemma ClassIs(preflight: Json, topology: Option<Json>)
    ensures var shown := TopologyClass(Some(preflight), topology);
            var reachable := SomeReachable(Items(Lookup(Some(preflight), "results")));
            var recommended := Lookup(Some(preflight), "recommended_fallback");
            var jump, direct := HasItems(topology, "ssh_jump_chain"), HasItems(topology, "direct_private_candidates");
            shown == if reachable then "direct-reachable"
                     else if recommended.Some? && recommended.value.Str? then "ssh-only"
                     else if direct then (if jump then "mixed" else "unknown-direct")
                     else "ssh-reachable"
  {
  }

  lemma ClassesDiffer()
    ensures "ssh-only" !in ["direct-reachable", "mixed", "unknown-direct", "ssh-reachable"]
    ensures "direct-reachable" !in ["ssh-only", "mixed", "unknown-direct", "ssh-reachable"]
  {
    assert |"ssh-only"| == 8 && |"direct-reachable"| == 16 && |"mixed"| == 5;
    assert |"unknown-direct"| == 14 && |"ssh-reachable"| == 13;
  }

  /**
   The plan calls a route ssh-only exactly when the probes recommended a fallback; without that, and with no
   direct probe reached, the class goes by the direct candidates and the jump hosts of the topology.
   */
  lemma ClassOfPreflight(timeoutMs: nat, results: seq<Probe>, topology: Option<Json>)
    ensures var preflight := PlanValue(DecidePreflight(timeoutMs, results));
            var shown := TopologyClass(Some(preflight), topology);
            var jump, direct := HasItems(topology, "ssh_jump_chain"), HasItems(topology, "direct_private_candidates");
            && (shown == "ssh-only" <==> AllDirectFailed(results))
            && (shown == "direct-reachable" <==> exists i :: 0 <= i < |results| && DirectReachable(results[i]))
            && (shown !in ["ssh-only", "direct-reachable"] ==>
                  shown == if direct then (if jump then "mixed" else "unknown-direct") else "ssh-reachable")
  {
    var decision := DecidePreflight(timeoutMs, results);
    PlanLookups(decision);
    PreflightRecommends(timeoutMs, results);
    AnyReachable(results);
    ClassIs(PlanValue(decision), topology);
    ClassesDiffer();
  }

  /**
   A fallback is applied if and only if the plan recommends an SSH transport and nobody chose the current one;
   it then puts native SSH and its own name into the arguments and the plan, and changes no other key.
   */
  lemma FallbackIs(s: State)
    ensures var t, recommended := ApplyFallback(s), Recommended(s.plan);
            if (s.mode == Auto || s.source in [Some("topology"), Some("benchmark-tuned default")])
               && recommended in [Some("ssh-native"), Some("ssh-direct-tcpip")]
            then && t.mode == SshNative && t.source == Some("route-preflight")
                 && t.plan.Keys == s.plan.Keys + {"selected_transport", "transport_selection_source"}
                 && t.plan["selected_transport"] == Str("ssh-native")
                 && t.plan["transport_selection_source"] == Str("route-preflight")
                 && forall key :: key in s.plan && key !in {"selected_transport", "transport_selection_source"} ==>
                      t.plan[key] == s.plan[key]
            else t == s
  {
    assert |"selected_transport"| == 18 && |"transport_selection_source"| == 26;
  }

  /** A second fallback pass changes nothing. */
  lemma FallbackTwice(s: State)
    ensures ApplyFallback(ApplyFallback(s)) == ApplyFallback(s)
  {
    assert |"route-preflight"| == 15 && |TOPOLOGY| == 8 && |BENCHMARK| == 23;
  }

  datatype Pass = ProbeAgain(timeoutMs: nat, results: seq<Probe>) | TryFallback

  function Run(s: State, passes: seq<Pass>): State {
    if passes == [] then s
    else
      var before := Run(s, passes[..|passes| - 1]);
      match passes[|passes| - 1]
      case ProbeAgain(timeoutMs, results) => AddProbes(before, timeoutMs, results)
      case TryFallback => ApplyFallback(before)
  }

  ghost predicate LastProbesAt(passes: seq<Pass>, j: nat) {
    j < |passes| && passes[j].ProbeAgain? && forall i :: j < i < |passes| ==> passes[i].TryFallback?
  }

  /** The last probes made all failed. */
  ghost predicate LastProbesFailed(passes: seq<Pass>) {
    exists j: nat :: LastProbesAt(passes, j) && AllDirectFailed(passes[j].results)
  }

  /** A fallback was tried while the last probes had all failed. */
  ghost predicate FellBack(passes: seq<Pass>) {
    exists k: nat :: k < |passes| && passes[k].TryFallback? && LastProbesFailed(passes[..k])
  }

  lemma LastProbesNext(passes: seq<Pass>, pass: Pass)
    ensures LastProbesFailed(passes + [pass])
       <==> if pass.ProbeAgain? then AllDirectFailed(pass.results) else LastProbesFailed(passes)
  {
    var longer := passes + [pass];
    if pass.ProbeAgain? {
      assert LastProbesAt(longer, |passes|);
      assert forall j: nat :: LastProbesAt(longer, j) ==> j == |passes|;
    } else {
      forall j: nat
        ensures LastProbesAt(longer, j) <==> LastProbesAt(passes, j)
      {
        assert longer[|passes|] == pass;
        assert forall i :: 0 <= i < |passes| ==> longer[i] == passes[i];
      }
    }
  }

  lemma FellBackNext(passes: seq<Pass>, pass: Pass)
    ensures FellBack(passes + [pass]) <==> FellBack(passes) || (pass.TryFallback? && LastProbesFailed(passes))
  {
    var longer := passes + [pass];
    assert longer[..|passes|] == passes && longer[|passes|] == pass;
    assert forall k: nat :: k < |passes| ==> longer[..k] == passes[..k] && longer[k] == passes[k];
  }

  predicate Overridable(s: State) { s.mode == Auto || s.source == Some(TOPOLOGY) || s.source == Some(BENCHMARK) }

  lemma RecommendedNext(s: State, pass: Pass)
    ensures pass.ProbeAgain? ==>
              Recommended(AddProbes(s, pass.timeoutMs, pass.results).plan)
              == if AllDirectFailed(pass.results) then Some("ssh-native") else None
    ensures Recommended(ApplyFallback(s).plan) == Recommended(s.plan)
  {
    assert |"preflight"| == 9 && |"selected_transport"| == 18 && |"transport_selection_source"| == 26;
    if pass.ProbeAgain? {
      PlanLookups(DecidePreflight(pass.timeoutMs, pass.results));
      PreflightRecommends(pass.timeoutMs, pass.results);
    }
  }

  /**
   In any run of probes and fallbacks, the transport gives way to native SSH exactly when
   it may be overridden and a fallback was once tried while the last probes had all failed.
   */
  lemma {:induction false} RunGivesWay(s: State, passes: seq<Pass>)
    requires "preflight" !in s.plan
    ensures Recommended(Run(s, passes).plan) == if LastProbesFailed(passes) then Some("ssh-native") else None
    ensures if Overridable(s) && FellBack(passes)
            then Run(s, passes).mode == SshNative && Run(s, passes).source == Some("route-preflight")
            else Run(s, passes).mode == s.mode && Run(s, passes).source == s.source
  {
    if passes != [] {
      var before, pass := passes[..|passes| - 1], passes[|passes| - 1];
      assert passes == before + [pass];
      RunGivesWay(s, before);
      LastProbesNext(before, pass);
      FellBackNext(before, pass);
      RecommendedNext(Run(s, before), pass);
      assert |"route-preflight"| == 15 && |TOPOLOGY| == 8 && |BENCHMARK| == 23;
    }
  }

  /** From selection on: the first choice of the input stays, whatever the probes find and however often, unless nobody chose it. */
  lemma FinalTransport(input: PolicyInput, first: Selection, plan: map<string, Json>, passes: seq<Pass>)
    requires Select(input).Ok? && "preflight" !in plan
    requires FirstWanted(Wanted(input, ModeOf(input.profileTransport), ModeOf(input.defaultsTransport)), first)
    ensures var selected := Select(input).value;
            Run(State(selected.mode, Some(selected.source), plan), passes).mode
            == if ChosenByDefault(input) && FellBack(passes) then SshNative else first.mode
  {
    var selected := Select(input).value;
    SelectionIs(input);
    FirstIsOne(Wanted(input, ModeOf(input.profileTransport), ModeOf(input.defaultsTransport)), first, selected);
    RunGivesWay(State(selected.mode, Some(selected.source), plan), passes);
  }
}
