/**
 Host patterns of the SSH configuration: the greedy `*` matcher
 (`wildcard_match` in `crates/ssh-proxy-ssh/src/client.rs`) against the language
 of `*` patterns in the PATTERNS section of ssh_config(5).
 */
module Wildcard {
  import opened Bytes
  import opened Characters

  // The language of a pattern

  /** `*` stands for any text, every other character for itself. */
  ghost predicate Glob(p: string, v: string) {
    if p == "" then v == ""
    else if p[0] == '*' then exists i :: 0 <= i <= |v| && Glob(p[1..], v[i..])
    else v != "" && v[0] == p[0] && Glob(p[1..], v[1..])
  }

  // The matcher

  predicate HasStar(p: string) { exists i :: 0 <= i < |p| && p[i] == '*' }

  predicate EndsWithStar(p: string) { p != "" && p[|p| - 1] == '*' }

  predicate StartsWithStar(p: string) { p != "" && p[0] == '*' }

  /** `pattern.split('*')`. */
  function Parts(p: string): (parts: seq<string>)
    ensures parts != []
  {
    if p == "" then [""]
    else
      var rest := Parts(p[1..]);
      if p[0] == '*' then [""] + rest else [[p[0]] + rest[0]] + rest[1..]
  }

  /** `rest.find(part)`: the leftmost place where `part` occurs. */
  function Find(v: string, part: string): Option<nat> {
    if part <= v then Some(0)
    else if v == "" then None
    else
      var found := Find(v[1..], part);
      if found.Some? then Some(found.value + 1) else None
  }

  /** What is left of `v` after the parts have been found one after the other; the first may be anchored. */
  function Scan(parts: seq<string>, v: string, anchored: bool): Option<string> {
    if parts == [] then Some(v)
    else if parts[0] == "" then Scan(parts[1..], v, anchored)
    else if anchored then
      if parts[0] <= v then Scan(parts[1..], v[|parts[0]|..], false) else None
    else
      var found := Find(v, parts[0]);
      if found.None? || found.value + |parts[0]| > |v| then None
      else Scan(parts[1..], v[found.value + |parts[0]|..], false)
  }

  predicate Matches(p: string, v: string) {
    if !HasStar(p) then EqIgnoreAsciiCase(p, v)
    else
      var left := Scan(Parts(p), v, !StartsWithStar(p));
      left.Some? && (EndsWithStar(p) || left.value == "")
  }

  /** What one part leaves of the text; an empty part leaves all of it. */
  function ScanPart(part: string, v: string, anchored: bool): Option<string> {
    if part == "" then Some(v)
    else if anchored then if part <= v then Some(v[|part|..]) else None
    else
      var found := Find(v, part);
      if found.None? || found.value + |part| > |v| then None else Some(v[found.value + |part|..])
  }

  lemma ScanStep(parts: seq<string>, i: nat, v: string, anchored: bool)
    requires i < |parts|
    ensures var left := ScanPart(parts[i], v, anchored);
            Scan(parts[i..], v, anchored)
            == if left.None? then None else Scan(parts[i + 1..], left.value, anchored && parts[i] == "")
  {
    assert parts[i..][0] == parts[i] && parts[i..][1..] == parts[i + 1..];
  }

  /** `wildcard_match`. */
  method WildcardMatch(p: string, v: string) returns (r: bool)
    ensures r == Matches(p, v)
  {
    if !HasStar(p) { return EqIgnoreAsciiCase(p, v); }
    var rest, first, parts, anchored := v, true, Parts(p), !StartsWithStar(p);
    ghost var whole := Scan(parts, v, anchored);
    assert parts[0..] == parts;
    for i := 0 to |parts|
      invariant Scan(parts[i..], rest, first && anchored) == whole
    {
      var part := parts[i];
      ScanStep(parts, i, rest, first && anchored);
      if part == "" { continue; }
      if first && anchored {
        if part <= rest { rest := rest[|part|..]; } else { return false; }
      } else {
        FindIsLeftmost(rest, part);
        var found := Find(rest, part);
        if found.Some? { rest := rest[found.value + |part|..]; } else { return false; }
      }
      first := false;
    }
    return EndsWithStar(p) || rest == "";
  }

  // Finding

  lemma {:induction false} FindIsLeftmost(v: string, part: string)
    ensures Find(v, part).Some? ==> Find(v, part).value + |part| <= |v| && part <= v[Find(v, part).value..]
    ensures forall i :: 0 <= i <= |v| && part <= v[i..] ==> Find(v, part).Some? && Find(v, part).value <= i
    decreases |v|
  {
    if !(part <= v) && v != "" {
      FindIsLeftmost(v[1..], part);
      forall i | 0 <= i <= |v| && part <= v[i..] ensures Find(v, part).Some? && Find(v, part).value <= i {
        assert i > 0 && v[i..] == v[1..][i - 1..] by { assert v[0..] == v; }
      }
      if Find(v, part).Some? { assert v[Find(v, part).value..] == v[1..][Find(v[1..], part).value..]; }
    } else if part <= v {
      assert v[0..] == v;
    }
  }

  // The language by parts

  /** `v` is in the language of `*part*part...*part`. */
  ghost predicate Tail(parts: seq<string>, v: string)
    decreases |parts|, 1
  {
    if parts == [] then v == "" else exists i: nat :: i <= |v| && TailAt(parts, v, i)
  }

  /** It is with the first part at place `i`. */
  ghost predicate TailAt(parts: seq<string>, v: string, i: nat)
    requires parts != [] && i <= |v|
    decreases |parts|, 0
  {
    parts[0] <= v[i..] && Tail(parts[1..], v[i + |parts[0]|..])
  }

  lemma {:induction false} GlobByParts(p: string, v: string)
    ensures var ps := Parts(p); Glob(p, v) <==> ps[0] <= v && Tail(ps[1..], v[|ps[0]|..])
    decreases |p|
  {
    if p != "" {
      var ps, rest := Parts(p), Parts(p[1..]);
      if p[0] == '*' {
        assert v[0..] == v && ps[1..] == rest;
        forall i: nat | i <= |v| ensures Glob(p[1..], v[i..]) <==> TailAt(rest, v, i) {
          GlobByParts(p[1..], v[i..]);
          assert rest[0] <= v[i..] ==> v[i..][|rest[0]|..] == v[i + |rest[0]|..];
        }
        assert Glob(p, v) <==> exists i: nat :: i <= |v| && TailAt(rest, v, i);
      } else if v != "" {
        GlobByParts(p[1..], v[1..]);
        assert ps[0] <= v <==> v[0] == p[0] && rest[0] <= v[1..];
        assert ps[0] <= v ==> v[|ps[0]|..] == v[1..][|rest[0]|..];
        assert ps[1..] == rest[1..];
      }
    }
  }

  lemma TailPlace(parts: seq<string>, v: string) returns (i: nat)
    requires parts != [] && Tail(parts, v)
    ensures i <= |v| && TailAt(parts, v, i)
  {
    i :| i <= |v| && TailAt(parts, v, i);
  }

  /** A pattern that begins with a star still matches when text is put in front. */
  lemma TailGrows(parts: seq<string>, v: string, k: nat)
    requires k <= |v| && parts != [] && Tail(parts, v[k..])
    ensures Tail(parts, v)
  {
    var w := v[k..];
    var i: nat :| i <= |w| && TailAt(parts, w, i);
    assert v[k + i..] == w[i..] && v[k + i + |parts[0]|..] == w[i + |parts[0]|..];
    assert TailAt(parts, v, k + i);
  }

  lemma EmptyPart(parts: seq<string>, v: string)
    requires parts != [] && parts[0] == "" && parts[1..] != []
    ensures Tail(parts, v) <==> Tail(parts[1..], v)
  {
    if Tail(parts, v) {
      var i := TailPlace(parts, v);
      TailGrows(parts[1..], v, i);
    }
    if Tail(parts[1..], v) {
      assert v[0..] == v;
      assert TailAt(parts, v, 0);
    }
  }

  lemma LeftmostWorks(parts: seq<string>, v: string, at: nat)
    requires |parts| > 1 && Find(v, parts[0]) == Some(at) && at + |parts[0]| <= |v| && Tail(parts[1..], v[at + |parts[0]|..])
    ensures Tail(parts, v)
  {
    FindIsLeftmost(v, parts[0]);
    assert TailAt(parts, v, at);
  }

  /** A match that starts with its first part at `i` can have it at any earlier place. */
  lemma MoveLeft(parts: seq<string>, v: string, i: nat, at: nat)
    requires |parts| > 1 && at <= i && i + |parts[0]| <= |v| && Tail(parts[1..], v[i + |parts[0]|..])
    ensures Tail(parts[1..], v[at + |parts[0]|..])
  {
    var w := v[at + |parts[0]|..];
    assert v[i + |parts[0]|..] == w[i - at..];
    TailGrows(parts[1..], w, i - at);
  }

  lemma FoundBy(v: string, part: string, i: nat)
    requires i <= |v| && part <= v[i..]
    ensures i + |part| <= |v| && Find(v, part).Some? && Find(v, part).value <= i
  {
    FindIsLeftmost(v, part);
  }

  lemma LeftmostNeededAt(parts: seq<string>, v: string, i: nat)
    requires |parts| > 1 && i <= |v| && TailAt(parts, v, i)
    ensures var found := Find(v, parts[0]);
            found.Some? && found.value + |parts[0]| <= |v| && Tail(parts[1..], v[found.value + |parts[0]|..])
  {
    FoundBy(v, parts[0], i);
    MoveLeft(parts, v, i, Find(v, parts[0]).value);
  }

  lemma LeftmostNeeded(parts: seq<string>, v: string)
    requires |parts| > 1 && Tail(parts, v)
    ensures var found := Find(v, parts[0]);
            found.Some? && found.value + |parts[0]| <= |v| && Tail(parts[1..], v[found.value + |parts[0]|..])
  {
    var i := TailPlace(parts, v);
    LeftmostNeededAt(parts, v, i);
  }

  /** Taking the leftmost place for a part loses nothing, as long as a star follows it. */
  lemma LeftmostSuffices(parts: seq<string>, v: string)
    requires |parts| > 1
    ensures var found := Find(v, parts[0]);
            Tail(parts, v) <==> found.Some? && found.value + |parts[0]| <= |v| && Tail(parts[1..], v[found.value + |parts[0]|..])
  {
    if Tail(parts, v) { LeftmostNeeded(parts, v); }
    var found := Find(v, parts[0]);
    if found.Some? && found.value + |parts[0]| <= |v| && Tail(parts[1..], v[found.value + |parts[0]|..]) {
      LeftmostWorks(parts, v, found.value);
    }
  }

  predicate EndsWith(v: string, suffix: string) { |suffix| <= |v| && v[|v| - |suffix|..] == suffix }

  /**
   Scanning all parts but the last decides the whole language of parts: what the scan leaves must end
   with the last part.
   */
  lemma {:induction false} ScanDecides(init: seq<string>, last: string, v: string)
    ensures Tail(init + [last], v) <==> Scan(init, v, false).Some? && EndsWith(Scan(init, v, false).value, last)
    decreases |init|
  {
    var parts := init + [last];
    if init == [] {
      assert parts == [last];
      LastPart(last, v);
    } else {
      var first, tail := init[0], init[1..];
      assert parts[0] == first && parts[1..] == tail + [last];
      if first == "" {
        EmptyPart(parts, v);
        ScanDecides(tail, last, v);
      } else {
        LeftmostSuffices(parts, v);
        var found := Find(v, first);
        if found.Some? && found.value + |first| <= |v| {
          var w := v[found.value + |first|..];
          ScanDecides(tail, last, w);
          assert Scan(init, v, false) == Scan(tail, w, false);
        }
      }
    }
  }

  lemma LastPart(last: string, v: string)
    ensures Tail([last], v) <==> EndsWith(v, last)
  {
    assert [last][1..] == [];
    if Tail([last], v) {
      var i := TailPlace([last], v);
      assert [last][0] == last && Tail([], v[i + |last|..]);
      assert v[i..] == last;
    }
    if EndsWith(v, last) { assert TailAt([last], v, |v| - |last|); }
  }

  // The matcher and the language

  lemma {:induction false} PartsFacts(p: string)
    ensures HasStar(p) <==> |Parts(p)| > 1
    ensures StartsWithStar(p) <==> |Parts(p)| > 1 && Parts(p)[0] == ""
    ensures EndsWithStar(p) <==> |Parts(p)| > 1 && Parts(p)[|Parts(p)| - 1] == ""
    ensures |Parts(p)| == 1 ==> Parts(p)[0] == p
  {
    if p != "" {
      PartsFacts(p[1..]);
      if HasStar(p[1..]) {
        var i :| 0 <= i < |p[1..]| && p[1..][i] == '*';
        assert p[i + 1] == '*';
      }
      if |p| > 1 { assert p[1..][|p[1..]| - 1] == p[|p| - 1]; }
    }
  }

  /** The part after the last star of a pattern. */
  function LastOf(p: string): string { Parts(p)[|Parts(p)| - 1] }

  /** What the greedy scan leaves of `v` before it looks for the last part. */
  function Remainder(p: string, v: string): Option<string> {
    Scan(Parts(p)[..|Parts(p)| - 1], v, !StartsWithStar(p))
  }

  lemma {:induction false} ScanAppends(init: seq<string>, last: string, v: string, anchored: bool)
    requires anchored ==> exists i :: 0 <= i < |init| && init[i] != ""
    ensures Scan(init + [last], v, anchored)
         == if Scan(init, v, anchored).Some? then Scan([last], Scan(init, v, anchored).value, false) else None
    decreases |init|
  {
    var parts := init + [last];
    if init == [] {
      assert parts == [last];
    } else {
      assert parts[0] == init[0] && parts[1..] == init[1..] + [last];
      if init[0] == "" {
        if anchored {
          var i :| 0 <= i < |init| && init[i] != "";
          assert init[1..][i - 1] == init[i];
        }
        ScanAppends(init[1..], last, v, anchored);
      } else if anchored {
        if init[0] <= v { ScanAppends(init[1..], last, v[|init[0]|..], false); }
      } else {
        var found := Find(v, init[0]);
        if found.Some? && found.value + |init[0]| <= |v| {
          ScanAppends(init[1..], last, v[found.value + |init[0]|..], false);
        }
      }
    }
  }

  /** A pattern with a star matches exactly the texts whose remainder ends with the pattern's last part. */
  lemma GlobByRemainder(p: string, v: string)
    requires HasStar(p)
    ensures Glob(p, v) <==> Remainder(p, v).Some? && EndsWith(Remainder(p, v).value, LastOf(p))
  {
    var ps := Parts(p);
    PartsFacts(p);
    GlobByParts(p, v);
    var init, last := ps[..|ps| - 1], LastOf(p);
    assert init[0] == ps[0] && ps[1..] == init[1..] + [last];
    if ps[0] <= v { ScanDecides(init[1..], last, v[|ps[0]|..]); }
    if ps[0] == "" {
      assert v[0..] == v;
      assert Scan(init, v, false) == Scan(init[1..], v, false);
    }
  }

  /** The matcher looks for the last part from the left, so the first place must also be the last. */
  lemma MatchByRemainder(p: string, v: string)
    requires HasStar(p)
    ensures Matches(p, v) <==>
              && Remainder(p, v).Some?
              && (EndsWithStar(p) || (EndsWith(Remainder(p, v).value, LastOf(p))
                                      && Find(Remainder(p, v).value, LastOf(p)) == Some(|Remainder(p, v).value| - |LastOf(p)|)))
  {
    var ps := Parts(p);
    PartsFacts(p);
    var init, last := ps[..|ps| - 1], LastOf(p);
    assert ps == init + [last];
    if !StartsWithStar(p) { assert init[0] != ""; }
    ScanAppends(init, last, v, !StartsWithStar(p));
    if Remainder(p, v).Some? {
      var left := Remainder(p, v).value;
      FindIsLeftmost(left, last);
      if last != "" {
        assert [last][1..] == [];
        assert Scan([last], left, false) ==
               if Find(left, last).None? then None else Some(left[Find(left, last).value + |last|..]);
      }
    }
  }

  /** The last part occurs in the remainder before the place where it would have to stand. */
  predicate LastOccursEarly(p: string, v: string) {
    && Remainder(p, v).Some? && |LastOf(p)| <= |Remainder(p, v).value|
    && Find(Remainder(p, v).value, LastOf(p)).Some?
    && Find(Remainder(p, v).value, LastOf(p)).value < |Remainder(p, v).value| - |LastOf(p)|
  }

  lemma MatchUnlessEarly(p: string, v: string)
    requires HasStar(p)
    ensures Matches(p, v) <==> Glob(p, v) && (EndsWithStar(p) || !LastOccursEarly(p, v))
  {
    PartsFacts(p);
    GlobByRemainder(p, v);
    MatchByRemainder(p, v);
    if Remainder(p, v).Some? { FindIsLeftmost(Remainder(p, v).value, LastOf(p)); }
  }

  lemma OccursAlike(u: string, t: string, part: string, i: nat)
    requires i + |part| <= |u|
    ensures part <= u[i..] <==> part <= (u + t)[i..]
  {
    assert (u + t)[i..] == u[i..] + t;
  }

  lemma {:induction false} FindGrows(u: string, t: string, part: string)
    requires Find(u, part).Some?
    ensures Find(u + t, part) == Find(u, part) && Find(u, part).value + |part| <= |u|
  {
    assert part <= u ==> part <= u + t;
    if !(part <= u) {
      FindGrows(u[1..], t, part);
      assert (u + t)[1..] == u[1..] + t;
      OccursAlike(u, t, part, 0);
    }
  }

  /** Text that follows does not change where the parts are found. */
  lemma {:induction false} ScanGrows(parts: seq<string>, u: string, t: string, anchored: bool)
    requires Scan(parts, u, anchored).Some?
    ensures Scan(parts, u + t, anchored) == Some(Scan(parts, u, anchored).value + t)
    decreases |parts|
  {
    if parts != [] {
      var part := parts[0];
      if part == "" {
        ScanGrows(parts[1..], u, t, anchored);
      } else {
        if !anchored { FindGrows(u, t, part); }
        var n := |part| + if anchored then 0 else Find(u, part).value;
        assert (u + t)[n..] == u[n..] + t;
        ScanGrows(parts[1..], u[n..], t, false);
      }
    }
  }

  lemma {:induction false} ScanLeaves(parts: seq<string>, v: string, anchored: bool)
    requires Scan(parts, v, anchored).Some?
    ensures |Scan(parts, v, anchored).value| <= |v|
    decreases |parts|
  {
    if parts != [] {
      var part := parts[0];
      if part == "" {
        ScanLeaves(parts[1..], v, anchored);
      } else {
        ScanLeaves(parts[1..], v[|part| + (if anchored then 0 else Find(v, part).value)..], false);
      }
    }
  }

  /** Only the text that was passed over is needed to find the parts. */
  lemma {:induction false} ScanShrinks(parts: seq<string>, v: string, n: nat, anchored: bool)
    requires Scan(parts, v, anchored).Some? && |v| - |Scan(parts, v, anchored).value| <= n <= |v|
    ensures Scan(parts, v[..n], anchored).Some?
    decreases |parts|
  {
    if parts != [] {
      var part := parts[0];
      if part == "" {
        ScanShrinks(parts[1..], v, n, anchored);
      } else {
        var k := |part| + if anchored then 0 else Find(v, part).value;
        ScanLeaves(parts[1..], v[k..], false);
        ScanShrinks(parts[1..], v[k..], n - k, false);
        assert v[k..][..n - k] == v[..n][k..];
        if !anchored { FindShrinks(v, part, n); }
      }
    }
  }

  lemma FindShrinks(v: string, part: string, n: nat)
    requires Find(v, part).Some? && Find(v, part).value + |part| <= n <= |v|
    ensures Find(v[..n], part) == Find(v, part)
  {
    var i := Find(v, part).value;
    FindIsLeftmost(v, part);
    FindIsLeftmost(v[..n], part);
    assert v[..n][i..][..|part|] == v[i..][..|part|];
    FindGrows(v[..n], v[n..], part);
    assert v[..n] + v[n..] == v;
  }

  /** A proper prefix of `v` is in the language of the pattern too. */
  ghost predicate PrefixInLanguage(p: string, v: string) { exists n: nat :: n < |v| && Glob(p, v[..n]) }

  lemma EarlyGivesPrefix(p: string, v: string)
    requires HasStar(p) && LastOccursEarly(p, v)
    ensures PrefixInLanguage(p, v)
  {
    var init, a := Parts(p)[..|Parts(p)| - 1], !StartsWithStar(p);
    var left, last := Remainder(p, v).value, LastOf(p);
    ScanLeaves(init, v, a);
    var at := Find(left, last).value;
    var n := |v| - |left| + at + |last|;
    ScanShrinks(init, v, n, a);
    ScanGrows(init, v[..n], v[n..], a);
    assert v[..n] + v[n..] == v;
    var shorter := Scan(init, v[..n], a).value;
    assert shorter == left[..at + |last|];
    FindIsLeftmost(left, last);
    assert left[at..][..|last|] == last && shorter[at..] == last;
    GlobByRemainder(p, v[..n]);
  }

  lemma PrefixGivesEarly(p: string, v: string, n: nat)
    requires HasStar(p) && n < |v| && Glob(p, v[..n])
    ensures LastOccursEarly(p, v)
  {
    var init, a := Parts(p)[..|Parts(p)| - 1], !StartsWithStar(p);
    GlobByRemainder(p, v[..n]);
    ScanGrows(init, v[..n], v[n..], a);
    assert v[..n] + v[n..] == v;
    var shorter, left, last := Remainder(p, v[..n]).value, Remainder(p, v).value, LastOf(p);
    var i := |shorter| - |last|;
    assert last <= left[i..] by { assert left[i..] == shorter[i..] + v[n..]; }
    FindIsLeftmost(left, last);
  }

  /**
   For every pattern with a star the matcher accepts only texts of the pattern's language. A pattern
   that ends in a star is decided exactly; of any other it accepts exactly the texts of which no
   proper prefix is in the language.
   */
  lemma MatcherIsExact(p: string, v: string)
    requires HasStar(p)
    ensures Matches(p, v) <==> Glob(p, v) && (EndsWithStar(p) || !PrefixInLanguage(p, v))
  {
    MatchUnlessEarly(p, v);
    if LastOccursEarly(p, v) { EarlyGivesPrefix(p, v); }
    if PrefixInLanguage(p, v) {
      var n: nat :| n < |v| && Glob(p, v[..n]);
      PrefixGivesEarly(p, v, n);
    }
  }

  /** The matcher is incomplete: `*a` does not match `aa`. */
  lemma StarSuffixIncomplete()
    ensures Glob("*a", "aa") && !Matches("*a", "aa")
  {
    var p, v := "*a", "aa";
    assert v[1..] == "a" && p[1..] == "a" && "a"[1..] == "" && Glob("a", "a") && Glob("a", v[1..]);
    assert Parts("") == [""] && Parts("a") == ["a"] by { assert [""][1..] == [] && "a" + "" == "a"; }
    assert Parts(p) == ["", "a"] && Parts(p)[1..] == ["a"] && ["a"][1..] == [];
    assert Scan(["a"], v, false) == Scan([], "a", false) == Some("a");
  }

  /** `host_pattern_matches`. */
  predicate HostPatternMatches(p: string, host: string) {
    if p == "*" then true else if p != "" && p[0] == '!' then false else Matches(p, host)
  }

  lemma {:induction false} GlobOfLiteral(p: string, v: string)
    requires !HasStar(p)
    ensures Glob(p, v) <==> p == v
    decreases |p|
  {
    if p != "" && v != "" {
      assert forall i :: 0 <= i < |p[1..]| ==> p[1..][i] == p[i + 1];
      GlobOfLiteral(p[1..], v[1..]);
      assert p == [p[0]] + p[1..] && v == [v[0]] + v[1..];
    }
  }

  lemma SameAsItself(v: string)
    ensures SameText(v, v)
  {
  }

  /**
   A pattern without a star matches the texts that are equal to it but for the case of ASCII letters;
   that is more than its language, which has the pattern alone.
   */
  lemma LiteralIsExact(p: string, v: string)
    requires !HasStar(p)
    ensures Matches(p, v) <==> SameText(p, v)
    ensures Glob(p, v) ==> Matches(p, v)
  {
    IgnoreCaseIs(p, v);
    GlobOfLiteral(p, v);
    SameAsItself(v);
  }

  /** What a host pattern matches: nothing if it is negated, else what the literal or the star rule says. */
  lemma HostPatternIs(p: string, host: string)
    ensures HostPatternMatches(p, host) <==>
            && (p == "" || p[0] != '!')
            && if HasStar(p) then Glob(p, host) && (EndsWithStar(p) || !PrefixInLanguage(p, host)) else SameText(p, host)
  {
    if HasStar(p) { MatcherIsExact(p, host); } else { LiteralIsExact(p, host); }
    if p == "*" {
      assert p[1..] == "" && host[|host|..] == "";
      assert Glob(p, host) && p[0] == '*';
    }
  }
}
