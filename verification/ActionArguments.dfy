/**
 Quoting of scheduled-task arguments
 (`crates/ssh-proxy-platform/src/windows_tasks.rs`) against the documented rules
 by which Windows splits a command line into arguments.
 */
module ActionArguments {
  import opened Characters

  function Slashes(n: nat): string { if n == 0 then "" else Slashes(n - 1) + "\\" }

  // Quoting

  predicate Special(c: char) { IsWhitespace(c) || c == '"' }

  predicate AnySpecial(v: string) { exists i :: 0 <= i < |v| && Special(v[i]) }

  /** What quoting writes for the rest `v` of an argument after `n` backslashes it has not written yet. */
  function Escape(v: string, n: nat): string {
    if v == "" then Slashes(2 * n)
    else if v[0] == '\\' then Escape(v[1..], n + 1)
    else if v[0] == '"' then Slashes(2 * n + 1) + ("\"" + Escape(v[1..], 0))
    else Slashes(n) + ([v[0]] + Escape(v[1..], 0))
  }

  function Quote(v: string): string {
    if v == "" then "\"\""
    else if AnySpecial(v) then "\"" + Escape(v, 0) + "\""
    else v
  }

  /** `windows_action_arg`. */
  method WindowsActionArg(v: string) returns (out: string)
    ensures out == Quote(v)
  {
    if v == "" { return "\"\""; }
    var special := false;
    for i := 0 to |v|
      invariant special <==> exists j :: 0 <= j < i && Special(v[j])
    {
      if Special(v[i]) { special := true; }
    }
    if !special { return v; }
    out := "\"";
    var backslashes := 0;
    for i := 0 to |v|
      invariant out + Escape(v[i..], backslashes) == "\"" + Escape(v, 0)
    {
      ghost var rest, tail := v[i..], v[i + 1..];
      assert rest[0] == v[i] && rest[1..] == tail;
      if v[i] == '\\' {
        backslashes := backslashes + 1;
      } else if v[i] == '"' {
        var slashes := Repeat(2 * backslashes + 1);
        assert out + (slashes + ("\"" + Escape(tail, 0))) == out + slashes + "\"" + Escape(tail, 0);
        out := out + slashes + "\"";
        backslashes := 0;
      } else {
        var slashes := Repeat(backslashes);
        assert out + (slashes + ([v[i]] + Escape(tail, 0))) == out + slashes + [v[i]] + Escape(tail, 0);
        out := out + slashes + [v[i]];
        backslashes := 0;
      }
    }
    assert v[|v|..] == "";
    var slashes := Repeat(2 * backslashes);
    out := out + slashes + "\"";
  }

  method Repeat(n: nat) returns (s: string)
    ensures s == Slashes(n)
  {
    s := "";
    for i := 0 to n
      invariant s == Slashes(i)
    {
      s := s + "\\";
    }
  }

  /** `action_arguments`: the quoted arguments joined by spaces. */
  function Join(args: seq<string>): string {
    if args == [] then ""
    else if |args| == 1 then Quote(args[0])
    else Quote(args[0]) + (" " + Join(args[1..]))
  }

  // Splitting

  predicate Blank(c: char) { c == ' ' || c == '\t' }

  /**
   The rest of one argument: `n` backslashes have just been read, `quoted` says whether we are inside
   quotes, and `cur` is what the argument holds so far.  An even run of backslashes before a quote
   stands for half of them and the quote opens or closes a quoted part; an odd run for half of them
   and a literal quote; other backslashes stand for themselves.  `pairs` adds the later rule that two
   quotes inside a quoted part stand for one.  Returns the argument and the unread input.
   */
  function Arg(s: string, n: nat, quoted: bool, cur: string, pairs: bool): (string, string) {
    if s == "" then (cur + Slashes(n), "")
    else if s[0] == '\\' then Arg(s[1..], n + 1, quoted, cur, pairs)
    else if s[0] == '"' then
      if n % 2 == 1 then Arg(s[1..], 0, quoted, cur + Slashes(n / 2) + "\"", pairs)
      else if pairs && quoted && |s| > 1 && s[1] == '"' then Arg(s[2..], 0, quoted, cur + Slashes(n / 2) + "\"", pairs)
      else Arg(s[1..], 0, !quoted, cur + Slashes(n / 2), pairs)
    else if Blank(s[0]) && !quoted then (cur + Slashes(n), s)
    else Arg(s[1..], 0, quoted, cur + Slashes(n) + [s[0]], pairs)
  }

  lemma {:induction false} ArgShrinks(s: string, n: nat, quoted: bool, cur: string, pairs: bool)
    ensures |Arg(s, n, quoted, cur, pairs).1| <= |s|
    ensures s != "" && !Blank(s[0]) ==> |Arg(s, n, quoted, cur, pairs).1| < |s|
    decreases |s|
  {
    if s != "" {
      if s[0] == '\\' { ArgShrinks(s[1..], n + 1, quoted, cur, pairs); }
      else if s[0] == '"' {
        if n % 2 == 1 { ArgShrinks(s[1..], 0, quoted, cur + Slashes(n / 2) + "\"", pairs); }
        else if pairs && quoted && |s| > 1 && s[1] == '"' { ArgShrinks(s[2..], 0, quoted, cur + Slashes(n / 2) + "\"", pairs); }
        else { ArgShrinks(s[1..], 0, !quoted, cur + Slashes(n / 2), pairs); }
      } else if !(Blank(s[0]) && !quoted) {
        ArgShrinks(s[1..], 0, quoted, cur + Slashes(n) + [s[0]], pairs);
      }
    }
  }

  /** The arguments of a command line's tail. */
  function Split(s: string, pairs: bool): seq<string>
    decreases |s|
  {
    if s == "" then []
    else if Blank(s[0]) then Split(s[1..], pairs)
    else
      ArgShrinks(s, 0, false, "", pairs);
      var (arg, rest) := Arg(s, 0, false, "", pairs);
      [arg] + Split(rest, pairs)
  }

  // Splitting undoes quoting

  lemma {:induction false} SlashesSum(m: nat, n: nat)
    ensures Slashes(m) + Slashes(n) == Slashes(m + n)
  {
    if n > 0 {
      SlashesSum(m, n - 1);
      assert Slashes(m) + (Slashes(n - 1) + "\\") == Slashes(m) + Slashes(n - 1) + "\\";
    } else {
      assert Slashes(m) + "" == Slashes(m);
    }
  }

  lemma {:induction false} ReadSlashes(k: nat, t: string, n: nat, quoted: bool, cur: string, pairs: bool)
    ensures Arg(Slashes(k) + t, n, quoted, cur, pairs) == Arg(t, n + k, quoted, cur, pairs)
    decreases k
  {
    if k == 0 {
      assert "" + t == t;
    } else {
      SlashesSum(1, k - 1);
      assert Slashes(1) == "\\";
      assert Slashes(k) + t == "\\" + (Slashes(k - 1) + t);
      assert (Slashes(k) + t)[1..] == Slashes(k - 1) + t;
      ReadSlashes(k - 1, t, n + 1, quoted, cur, pairs);
    }
  }

  /** The input ends, or goes on with the space that separates arguments. */
  predicate AtEnd(t: string) { t == "" || t[0] == ' ' }

  lemma ReadOther(k: nat, c: char, t: string, quoted: bool, cur: string, pairs: bool)
    requires c != '\\' && c != '"' && (Blank(c) ==> quoted)
    ensures Arg(Slashes(k) + ([c] + t), 0, quoted, cur, pairs) == Arg(t, 0, quoted, cur + Slashes(k) + [c], pairs)
  {
    ReadSlashes(k, [c] + t, 0, quoted, cur, pairs);
    assert ([c] + t)[1..] == t;
  }

  lemma ReadLiteralQuote(k: nat, t: string, cur: string, pairs: bool)
    ensures Arg(Slashes(2 * k + 1) + ("\"" + t), 0, true, cur, pairs) == Arg(t, 0, true, cur + Slashes(k) + "\"", pairs)
  {
    ReadSlashes(2 * k + 1, "\"" + t, 0, true, cur, pairs);
    assert ("\"" + t)[1..] == t && (2 * k + 1) / 2 == k && (2 * k + 1) % 2 == 1;
  }

  lemma ReadClosingQuote(k: nat, t: string, cur: string, pairs: bool)
    requires AtEnd(t)
    ensures Arg(Slashes(2 * k) + ("\"" + t), 0, true, cur, pairs) == (cur + Slashes(k), t)
  {
    ReadSlashes(2 * k, "\"" + t, 0, true, cur, pairs);
    assert ("\"" + t)[1..] == t && (2 * k) / 2 == k && (2 * k) % 2 == 0;
    assert cur + Slashes(k) + Slashes(0) == cur + Slashes(k);
  }

  /** Inside quotes, what `Escape` wrote is read as the text it came from. */
  lemma {:induction false} ReadEscaped(v: string, n: nat, t: string, cur: string, pairs: bool)
    requires AtEnd(t)
    ensures Arg(Escape(v, n) + ("\"" + t), 0, true, cur, pairs) == (cur + Slashes(n) + v, t)
    decreases |v|
  {
    var end := "\"" + t;
    if v == "" {
      ReadClosingQuote(n, t, cur, pairs);
      assert cur + Slashes(n) + "" == cur + Slashes(n);
    } else if v[0] == '\\' {
      ReadEscaped(v[1..], n + 1, t, cur, pairs);
      assert cur + Slashes(n + 1) + v[1..] == cur + Slashes(n) + v;
    } else if v[0] == '"' {
      var rest := Escape(v[1..], 0) + end;
      assert Slashes(2 * n + 1) + ("\"" + Escape(v[1..], 0)) + end == Slashes(2 * n + 1) + ("\"" + rest);
      ReadLiteralQuote(n, rest, cur, pairs);
      ReadEscaped(v[1..], 0, t, cur + Slashes(n) + "\"", pairs);
      assert cur + Slashes(n) + "\"" + Slashes(0) + v[1..] == cur + Slashes(n) + v;
    } else {
      var rest := Escape(v[1..], 0) + end;
      assert Slashes(n) + ([v[0]] + Escape(v[1..], 0)) + end == Slashes(n) + ([v[0]] + rest);
      ReadOther(n, v[0], rest, true, cur, pairs);
      ReadEscaped(v[1..], 0, t, cur + Slashes(n) + [v[0]], pairs);
      assert cur + Slashes(n) + [v[0]] + Slashes(0) + v[1..] == cur + Slashes(n) + v;
    }
  }

  /** Outside quotes, text without blanks and quotes is read as it stands. */
  lemma {:induction false} ReadPlain(v: string, n: nat, t: string, cur: string, pairs: bool)
    requires AtEnd(t) && !AnySpecial(v)
    ensures Arg(v + t, n, false, cur, pairs) == (cur + Slashes(n) + v, t)
    decreases |v|
  {
    if v == "" {
      assert "" + t == t && cur + Slashes(n) + "" == cur + Slashes(n);
    } else {
      assert !Special(v[0]);
      assert (v + t)[1..] == v[1..] + t;
      if v[0] == '\\' {
        ReadPlain(v[1..], n + 1, t, cur, pairs);
        assert cur + Slashes(n + 1) + v[1..] == cur + Slashes(n) + v;
      } else {
        ReadPlain(v[1..], 0, t, cur + Slashes(n) + [v[0]], pairs);
        assert cur + Slashes(n) + [v[0]] + Slashes(0) + v[1..] == cur + Slashes(n) + v;
      }
    }
  }

  /** A quoted argument at the head of a command line is read back, and nothing after it is touched. */
  lemma ReadQuoted(v: string, t: string, pairs: bool)
    requires AtEnd(t)
    ensures Arg(Quote(v) + t, 0, false, "", pairs) == (v, t)
    ensures Quote(v) != "" && !Blank(Quote(v)[0])
  {
    assert "" + Slashes(0) + v == v;
    if v == "" || AnySpecial(v) {
      assert Quote(v) + t == "\"" + (Escape(v, 0) + ("\"" + t));
      assert (Quote(v) + t)[1..] == Escape(v, 0) + ("\"" + t);
      ReadEscaped(v, 0, t, "", pairs);
    } else {
      assert !Special(v[0]);
      ReadPlain(v, 0, t, "", pairs);
    }
  }

  /** Splitting the rendered arguments gives back exactly the arguments, under either rule for paired quotes. */
  lemma {:induction false} SplitJoin(args: seq<string>, pairs: bool)
    ensures Split(Join(args), pairs) == args
    decreases |args|
  {
    if args != [] {
      var t := if |args| == 1 then "" else " " + Join(args[1..]);
      assert Join(args) == Quote(args[0]) + t;
      ReadQuoted(args[0], t, pairs);
      SplitJoin(args[1..], pairs);
      if |args| > 1 { assert t[1..] == Join(args[1..]); }
    }
  }

  /** An argument is left as it is if and only if it is not empty and holds no white space and no quote. */
  lemma QuotesOnlyIfNeeded(v: string)
    ensures Quote(v) == v <==> v != "" && forall i :: 0 <= i < |v| ==> !IsWhitespace(v[i]) && v[i] != '"'
  {
    if AnySpecial(v) { EscapeGrows(v, 0); }
  }

  lemma {:induction false} SlashesCount(n: nat)
    ensures |Slashes(n)| == n
  {
    if n > 0 { SlashesCount(n - 1); }
  }

  lemma {:induction false} EscapeGrows(v: string, n: nat)
    ensures |Escape(v, n)| >= |v| + n
    decreases |v|
  {
    SlashesCount(n);
    SlashesCount(2 * n);
    SlashesCount(2 * n + 1);
    if v != "" { EscapeGrows(v[1..], if v[0] == '\\' then n + 1 else 0); }
  }
}
