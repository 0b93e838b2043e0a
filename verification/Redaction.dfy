/**
 Redaction of JSON values before they are shown
 (`crates/ssh-proxy-core/src/redaction.rs`).
 */
module Redaction {
  import opened Bytes
  import opened Characters
  import opened Json
  import opened Sequences

  const REDACTED := "<redacted>"

  predicate Contains(s: string, part: string) {
    exists i :: 0 <= i <= |s| - |part| && s[i..][..|part|] == part
  }

  predicate Sensitive(key: string) {
    var lower := AsciiLower(key);
    || Contains(lower, "token") || Contains(lower, "password") || Contains(lower, "passphrase")
    || Contains(lower, "secret") || Contains(lower, "credential")
  }

  predicate PathKey(key: string) {
    var lower := AsciiLower(key);
    Contains(lower, "identity") || Contains(lower, "known_hosts")
  }

  /** Where the last component of a path starts. */
  function NameStart(path: string): (i: nat)
    ensures i <= |path| && '/' !in path[i..] && (i > 0 ==> path[i - 1] == '/')
  {
    if path == "" || path[|path| - 1] == '/' then |path|
    else
      var i := NameStart(path[..|path| - 1]);
      assert path[i..] == path[..|path| - 1][i..] + [path[|path| - 1]];
      i
  }

  /** Rust's `Path::file_name` on Unix: empty and `.` components at the end are passed over. */
  function FileName(path: string): (r: Option<string>)
    ensures r.Some? ==> '/' !in r.value && r.value !in ["", ".", ".."]
  {
    var i := NameStart(path);
    var name := path[i..];
    if name == ".." then None
    else if name != "" && name != "." then Some(name)
    else if i == 0 then None
    else FileName(path[..i - 1])
  }

  function RedactedPath(path: string): string {
    REDACTED + "/" + match FileName(path) case Some(name) => name case None => "<path>"
  }

  function RedactValue(v: Json): Json
    decreases v, 0
  {
    match v
    case Object(fields) => Object(map key | key in fields :: RedactField(key, fields[key]))
    case Array(items) => Array(seq(|items|, i requires 0 <= i < |items| => RedactValue(items[i])))
    case _ => v
  }

  function RedactField(key: string, v: Json): Json
    decreases v, 2
  {
    if Sensitive(key) then Str(REDACTED) else if PathKey(key) then RedactPathish(v) else RedactValue(v)
  }

  function RedactPathish(v: Json): Json
    decreases v, 1
  {
    match v
    case Str(path) => Str(RedactedPath(path))
    case Array(items) => Array(seq(|items|, i requires 0 <= i < |items| => RedactPathish(items[i])))
    case _ => RedactValue(v)
  }

  /** `redact_object`. */
  method RedactObject(fields: map<string, Json>) returns (redacted: map<string, Json>)
    ensures Object(redacted) == RedactValue(Object(fields))
  {
    redacted := map[];
    var keys := fields.Keys;
    while keys != {}
      invariant keys <= fields.Keys && redacted.Keys == fields.Keys - keys
      invariant forall k :: k in redacted ==> redacted[k] == RedactField(k, fields[k])
    {
      var key :| key in keys;
      var value := fields[key];
      if Sensitive(key) {
        redacted := redacted[key := Str(REDACTED)];
      } else if PathKey(key) {
        redacted := redacted[key := RedactPathish(value)];
      } else {
        redacted := redacted[key := RedactValue(value)];
      }
      keys := keys - {key};
    }
    assert redacted == map key | key in fields :: RedactField(key, fields[key]);
  }

  // What is found at a place in a tree

  datatype Step = Key(key: string) | At(index: nat)

  datatype Node = Leaf(value: Json) | Keys(keys: set<string>) | Length(n: nat)

  function Child(v: Json, step: Step): (r: Option<Json>)
    ensures r.Some? ==> r.value < v
  {
    match step
    case Key(key) => if v.Object? && key in v.fields then Some(v.fields[key]) else None
    case At(i) => if v.Array? && i < |v.items| then Some(v.items[i]) else None
  }

  function NodeOf(v: Json): Node {
    match v
    case Object(fields) => Keys(fields.Keys)
    case Array(items) => Length(|items|)
    case _ => Leaf(v)
  }

  function View(v: Json, place: seq<Step>): Option<Node>
    decreases |place|
  {
    if place == [] then Some(NodeOf(v))
    else
      match Child(v, place[0])
      case Some(child) => View(child, place[1..])
      case None => None
  }

  /** Two trees with the same node at every place are the same tree. */
  lemma {:induction false} ViewsDecide(a: Json, b: Json)
    requires forall place :: View(a, place) == View(b, place)
    ensures a == b
  {
    assert View(a, []) == View(b, []);
    forall step: Step | Child(a, step).Some? && Child(b, step).Some?
      ensures Child(a, step) == Child(b, step)
    {
      forall place
        ensures View(Child(a, step).value, place) == View(Child(b, step).value, place)
      {
        assert ([step] + place)[1..] == place;
        assert View(a, [step] + place) == View(b, [step] + place);
      }
      ViewsDecide(Child(a, step).value, Child(b, step).value);
    }
    if a.Object? {
      forall key | key in a.fields
        ensures a.fields[key] == b.fields[key]
      {
        assert Child(a, Key(key)) == Child(b, Key(key));
      }
    } else if a.Array? {
      forall i | 0 <= i < |a.items|
        ensures a.items[i] == b.items[i]
      {
        assert Child(a, At(i)) == Child(b, At(i));
      }
    }
  }

  // What redaction shows at a place

  function Shown(node: Node, pathish: bool): Node {
    if pathish && node.Leaf? && node.value.Str? then Leaf(Str(RedactedPath(node.value.s))) else node
  }

  /**
   What is seen at `place` when `node` is there: a sensitive key hides what it holds, and
   the last key on the way says whether strings are paths. `pathish` says it for the start.
   */
  function Seen(place: seq<Step>, pathish: bool, node: Option<Node>): Option<Node> {
    if node.None? then None
    else if place == [] then Some(Shown(node.value, pathish))
    else
      match place[0]
      case At(_) => Seen(place[1..], pathish, node)
      case Key(key) =>
        if !Sensitive(key) then Seen(place[1..], PathKey(key), node)
        else if |place| == 1 then Some(Leaf(Str(REDACTED)))
        else None
  }

  function RedactIn(v: Json, pathish: bool): Json { if pathish then RedactPathish(v) else RedactValue(v) }

  lemma PathishIsValue(v: Json)
    requires !v.Array? && !v.Str?
    ensures RedactPathish(v) == RedactValue(v)
  {
  }

  lemma RedactNode(v: Json, pathish: bool)
    ensures NodeOf(RedactIn(v, pathish)) == Shown(NodeOf(v), pathish)
  {
    if !v.Array? && !v.Str? { PathishIsValue(v); }
    if v.Object? { assert RedactValue(v).fields.Keys == v.fields.Keys; }
  }

  function RedactStep(step: Step, v: Json, pathish: bool): Json {
    match step
    case At(_) => RedactIn(v, pathish)
    case Key(key) => RedactField(key, v)
  }

  lemma RedactChild(v: Json, step: Step, pathish: bool)
    ensures Child(RedactIn(v, pathish), step)
         == match Child(v, step) case Some(child) => Some(RedactStep(step, child, pathish)) case None => None
  {
    if !v.Array? && !v.Str? { PathishIsValue(v); }
  }

  lemma {:induction false} RedactView(v: Json, place: seq<Step>, pathish: bool)
    ensures View(RedactIn(v, pathish), place) == Seen(place, pathish, View(v, place))
    decreases |place|
  {
    if place == [] {
      RedactNode(v, pathish);
    } else {
      var step := place[0];
      RedactChild(v, step, pathish);
      if Child(v, step).Some? {
        var child := Child(v, step).value;
        match step
        case At(_) => RedactView(child, place[1..], pathish);
        case Key(key) =>
          if !Sensitive(key) { RedactView(child, place[1..], PathKey(key)); }
      }
    }
  }

  /** At every place of every tree, redaction shows what the keys on the way there allow and nothing else. */
  lemma RedactionShows(v: Json, place: seq<Step>)
    ensures View(RedactValue(v), place) == Seen(place, false, View(v, place))
  {
    RedactView(v, place, false);
  }

  ghost predicate SeenAlike(a: Json, b: Json) {
    forall place :: Seen(place, false, View(a, place)) == Seen(place, false, View(b, place))
  }

  /** Two trees redact alike exactly when they are seen alike at every place. */
  lemma RedactsAlikeIff(a: Json, b: Json)
    ensures RedactValue(a) == RedactValue(b) <==> SeenAlike(a, b)
  {
    forall place: seq<Step>
      ensures View(RedactValue(a), place) == View(RedactValue(b), place)
         <==> Seen(place, false, View(a, place)) == Seen(place, false, View(b, place))
    {
      RedactionShows(a, place);
      RedactionShows(b, place);
    }
    if SeenAlike(a, b) { ViewsDecide(RedactValue(a), RedactValue(b)); }
  }

  // Idempotence

  lemma {:induction false} NameStartAfter(dir: string, name: string)
    requires '/' !in name
    ensures NameStart(dir + "/" + name) == |dir| + 1
  {
    var path := dir + "/" + name;
    if name == "" {
      assert path[|path| - 1] == '/';
    } else {
      var init := name[..|name| - 1];
      NameStartAfter(dir, init);
      assert path[..|path| - 1] == dir + "/" + init && path[|path| - 1] == name[|name| - 1];
      assert name[|name| - 1] in name;
    }
  }

  /** Only the file name of a path is shown, whatever its directory. */
  lemma DirectoryHidden(dir: string, name: string)
    requires '/' !in name && name !in ["", ".", ".."]
    ensures RedactedPath(dir + "/" + name) == REDACTED + "/" + name
  {
    NameStartAfter(dir, name);
    assert (dir + "/" + name)[|dir| + 1..] == name;
  }

  lemma RedactedPathTwice(path: string)
    ensures RedactedPath(RedactedPath(path)) == RedactedPath(path)
  {
    var name := match FileName(path) case Some(name) => name case None => "<path>";
    DirectoryHidden(REDACTED, name);
  }

  lemma {:induction false} SeenTwice(place: seq<Step>, pathish: bool, node: Option<Node>)
    ensures Seen(place, pathish, Seen(place, pathish, node)) == Seen(place, pathish, node)
  {
    if node.Some? {
      if place == [] {
        if node.value.Leaf? && node.value.value.Str? { RedactedPathTwice(node.value.value.s); }
      } else {
        match place[0]
        case At(_) => SeenTwice(place[1..], pathish, node);
        case Key(key) => SeenTwice(place[1..], PathKey(key), node);
      }
    }
  }

  /** Redacting a redacted tree changes nothing. */
  lemma RedactTwice(v: Json)
    ensures RedactValue(RedactValue(v)) == RedactValue(v)
  {
    forall place: seq<Step>
      ensures Seen(place, false, View(RedactValue(v), place)) == Seen(place, false, View(v, place))
    {
      RedactionShows(v, place);
      SeenTwice(place, false, View(v, place));
    }
    RedactsAlikeIff(RedactValue(v), v);
  }

  // Non-interference

  /** No sensitive key lies on the way to the place. */
  predicate Public(place: seq<Step>) {
    forall i :: 0 <= i < |place| ==> place[i].Key? ==> !Sensitive(place[i].key)
  }

  /** The trees differ only in what lies under sensitive keys. */
  ghost predicate DifferOnlyInSecrets(a: Json, b: Json) {
    forall place :: Public(place) ==> View(a, place) == View(b, place)
  }

  lemma ChildrenDifferOnlyInSecrets(a: Json, b: Json, step: Step)
    requires DifferOnlyInSecrets(a, b) && Public([step])
    ensures Child(a, step).Some? <==> Child(b, step).Some?
    ensures Child(a, step).Some? ==> DifferOnlyInSecrets(Child(a, step).value, Child(b, step).value)
  {
    assert Public([]) && View(a, []) == View(b, []);
    if Child(a, step).Some? && Child(b, step).Some? {
      forall place | Public(place)
        ensures View(Child(a, step).value, place) == View(Child(b, step).value, place)
      {
        var longer := [step] + place;
        assert longer[1..] == place && Public(longer);
        assert View(a, longer) == View(b, longer);
      }
    }
  }

  lemma {:induction false} SecretsUnseen(a: Json, b: Json, place: seq<Step>, pathish: bool)
    requires DifferOnlyInSecrets(a, b)
    ensures Seen(place, pathish, View(a, place)) == Seen(place, pathish, View(b, place))
    decreases |place|
  {
    assert Public([]) && View(a, []) == View(b, []);
    if place != [] {
      var step := place[0];
      if step.At? || !Sensitive(step.key) {
        assert [step][0] == step;
        ChildrenDifferOnlyInSecrets(a, b, step);
        if Child(a, step).Some? {
          var next := if step.At? then pathish else PathKey(step.key);
          SecretsUnseen(Child(a, step).value, Child(b, step).value, place[1..], next);
        }
      }
    }
  }

  /** Nothing under a sensitive key can be told from the redacted tree. */
  lemma NonInterference(a: Json, b: Json)
    requires DifferOnlyInSecrets(a, b)
    ensures RedactValue(a) == RedactValue(b)
  {
    forall place: seq<Step>
      ensures Seen(place, false, View(a, place)) == Seen(place, false, View(b, place))
    {
      SecretsUnseen(a, b, place, false);
    }
    RedactsAlikeIff(a, b);
  }

  // Which keys are sensitive, and which part of a path is its name

  predicate OccursAt(key: string, word: string, i: nat) {
    i + |word| <= |key| && SameText(key[i..i + |word|], word)
  }

  /** The word occurs in the key, in any case of letters. */
  ghost predicate Occurs(key: string, word: string) { exists i: nat :: OccursAt(key, word, i) }

  lemma FoundAt(key: string, word: string, i: nat)
    requires NoCapitals(word) && i + |word| <= |key|
    ensures AsciiLower(key)[i..][..|word|] == word <==> OccursAt(key, word, i)
  {
    assert AsciiLower(key)[i..][..|word|] == AsciiLower(key[i..i + |word|]);
    LowersTo(key[i..i + |word|], word);
  }

  lemma ContainsIs(key: string, word: string)
    requires NoCapitals(word)
    ensures Contains(AsciiLower(key), word) <==> Occurs(key, word)
  {
    if i :| 0 <= i <= |AsciiLower(key)| - |word| && AsciiLower(key)[i..][..|word|] == word { FoundAt(key, word, i); }
    if i: nat :| OccursAt(key, word, i) { FoundAt(key, word, i); }
  }

  /** A key is sensitive if and only if one of the five words occurs in it, in any case of letters. */
  lemma SensitiveIff(key: string)
    ensures Sensitive(key) <==>
            || Occurs(key, "token") || Occurs(key, "password") || Occurs(key, "passphrase")
            || Occurs(key, "secret") || Occurs(key, "credential")
  {
    ContainsIs(key, "token");
    ContainsIs(key, "password");
    ContainsIs(key, "passphrase");
    ContainsIs(key, "secret");
    ContainsIs(key, "credential");
  }

  lemma PathKeyIff(key: string)
    ensures PathKey(key) <==> Occurs(key, "identity") || Occurs(key, "known_hosts")
  {
    ContainsIs(key, "identity");
    ContainsIs(key, "known_hosts");
  }

  predicate IsName(name: string) { '/' !in name && name !in ["", ".", ".."] }

  predicate IsDirectory(dir: string) { dir == "" || dir[|dir| - 1] == '/' }

  /** Nothing but slashes and current-directory components. */
  predicate Trailing(t: string) {
    || t == ""
    || (t[|t| - 1] == '/' && Trailing(t[..|t| - 1]))
    || (|t| > 1 && t[|t| - 2] == '/' && t[|t| - 1] == '.' && Trailing(t[..|t| - 2]))
  }

  predicate Splits(path: string, dir: string, name: string, tail: string) {
    path == dir + name + tail && IsDirectory(dir) && IsName(name) && Trailing(tail)
  }

  lemma SlashIn(path: string, i: nat, j: nat)
    ensures i < j <= |path| && path[j - 1] == '/' ==> '/' in path[i..]
  {
    if i < j <= |path| { assert path[i..][j - 1 - i] == path[j - 1]; }
  }

  lemma NameStartIs(path: string, i: nat)
    requires i <= |path| && '/' !in path[i..] && (i > 0 ==> path[i - 1] == '/')
    ensures NameStart(path) == i
  {
    SlashIn(path, i, NameStart(path));
    SlashIn(path, NameStart(path), i);
  }

  lemma PassesSlash(path: string, n: nat)
    requires |path| == n + 1 && path[n] == '/'
    ensures FileName(path) == FileName(path[..n])
  {
    NameStartIs(path, n + 1);
  }

  lemma PassesDot(path: string, n: nat)
    requires |path| == n + 2 && path[n] == '/' && path[n + 1] == '.'
    ensures FileName(path) == FileName(path[..n])
  {
    assert path[n + 1..] == ".";
    NameStartIs(path, n + 1);
  }

  lemma PassesSlashAfter(front: string, tail: string)
    requires tail != "" && tail[|tail| - 1] == '/'
    ensures FileName(front + tail) == FileName(front + tail[..|tail| - 1])
  {
    TakeInto(front, tail, |tail| - 1);
    PassesSlash(front + tail, |front| + (|tail| - 1));
  }

  lemma PassesDotAfter(front: string, tail: string)
    requires |tail| > 1 && tail[|tail| - 2] == '/' && tail[|tail| - 1] == '.'
    ensures FileName(front + tail) == FileName(front + tail[..|tail| - 2])
  {
    TakeInto(front, tail, |tail| - 2);
    PassesDot(front + tail, |front| + (|tail| - 2));
  }

  lemma {:induction false} TailPassed(front: string, tail: string)
    requires Trailing(tail)
    ensures FileName(front + tail) == FileName(front)
    decreases |tail|
  {
    if tail == "" {
      assert front + tail == front;
    } else if tail[|tail| - 1] == '/' && Trailing(tail[..|tail| - 1]) {
      PassesSlashAfter(front, tail);
      TailPassed(front, tail[..|tail| - 1]);
    } else {
      PassesDotAfter(front, tail);
      TailPassed(front, tail[..|tail| - 2]);
    }
  }

  lemma NameFound(path: string, dir: string, name: string, tail: string)
    requires Splits(path, dir, name, tail)
    ensures FileName(path) == Some(name)
  {
    TailPassed(dir + name, tail);
    DropPrefix(dir, name);
    NameStartIs(dir + name, |dir|);
  }

  lemma TrailingGrows(tail: string, more: string)
    requires Trailing(tail) && (more == "/" || more == "/.")
    ensures Trailing(tail + more)
  {
    TakeInto(tail, more, 0);
    assert more[..0] == "" && tail + "" == tail;
  }

  lemma SplitGrows(shorter: string, more: string, dir: string, name: string, tail: string)
    requires Splits(shorter, dir, name, tail) && (more == "/" || more == "/.")
    ensures Splits(shorter + more, dir, name, tail + more)
  {
    TrailingGrows(tail, more);
    Associate(dir + name, tail, more);
  }

  /** Without a name at its end, a path is a shorter one and a slash or a current-directory component. */
  lemma LastPart(path: string)
    requires FileName(path).Some? && path[NameStart(path)..] in ["", "."]
    ensures var i := NameStart(path);
            && i > 0 && FileName(path) == FileName(path[..i - 1])
            && (path[i - 1..] == "/" || path[i - 1..] == "/.") && path == path[..i - 1] + path[i - 1..]
  {
    var i := NameStart(path);
    SlashRest(path, i);
    SplitAt(path, i - 1);
  }

  lemma SlashRest(path: string, i: nat)
    requires 0 < i <= |path| && path[i - 1] == '/'
    ensures path[i - 1..] == "/" + path[i..]
  {
  }

  lemma {:induction false} NameSplits(path: string) returns (dir: string, tail: string)
    requires FileName(path).Some?
    ensures Splits(path, dir, FileName(path).value, tail)
    decreases |path|
  {
    var i := NameStart(path);
    if path[i..] in ["", "."] {
      LastPart(path);
      dir, tail := NameSplits(path[..i - 1]);
      SplitGrows(path[..i - 1], path[i - 1..], dir, FileName(path).value, tail);
      tail := tail + path[i - 1..];
    } else {
      dir, tail := path[..i], "";
      assert path == dir + path[i..] + "";
    }
  }

  /**
   A path's file name is the component that only slashes and current-directory components follow: a bare name is
   its own, a trailing slash does not matter, and there is none after a parent-directory component.
   */
  lemma FileNameIs(path: string, name: string)
    ensures FileName(path) == Some(name) <==> exists dir, tail :: Splits(path, dir, name, tail)
  {
    if FileName(path) == Some(name) {
      var dir, tail := NameSplits(path);
    }
    if dir, tail :| Splits(path, dir, name, tail) {
      NameFound(path, dir, name, tail);
    }
  }

  /** A path is shown as its file name, or as a fixed text if it has none. */
  lemma ShownPath(path: string)
    ensures forall dir, name, tail :: Splits(path, dir, name, tail) ==> RedactedPath(path) == "<redacted>/" + name
    ensures (forall dir, name, tail :: !Splits(path, dir, name, tail)) ==> RedactedPath(path) == "<redacted>/<path>"
  {
    forall dir, name, tail | Splits(path, dir, name, tail) ensures RedactedPath(path) == "<redacted>/" + name {
      NameFound(path, dir, name, tail);
    }
    if FileName(path).Some? {
      var dir, tail := NameSplits(path);
    }
  }
}
