/** Lines of a text as Rust's `str::lines` gives them, and the text of a list of lines. */
module TextLines {
  import opened Sequences

  function LineEnd(c: string): (i: nat)
    ensures i <= |c| && '\n' !in c[..i] && (i < |c| ==> c[i] == '\n')
  {
    if c == "" || c[0] == '\n' then 0 else 1 + LineEnd(c[1..])
  }

  /** The text cut after each line feed. */
  function Pieces(c: string): (ps: seq<string>) {
    var i := LineEnd(c);
    if c == "" then [] else if i == |c| then [c] else [c[..i + 1]] + Pieces(c[i + 1..])
  }

  predicate EndsWith(l: string, x: char) { l != "" && l[|l| - 1] == x }

  function Chomp(l: string): string { if EndsWith(l, '\r') then l[..|l| - 1] else l }

  /** A carriage return is taken off only where a line feed followed it. */
  function LineOf(p: string): string { if EndsWith(p, '\n') then Chomp(p[..|p| - 1]) else p }

  function LinesOf(ps: seq<string>): seq<string> { seq(|ps|, i requires 0 <= i < |ps| => LineOf(ps[i])) }

  function Lines(c: string): (ls: seq<string>) { LinesOf(Pieces(c)) }

  /** Rust's `join("\n")`. */
  function Join(ls: seq<string>): string {
    if ls == [] then ""
    else if |ls| == 1 then ls[0]
    else Join(ls[..|ls| - 1]) + "\n" + ls[|ls| - 1]
  }

  function TrimNewlines(s: string): string {
    if EndsWith(s, '\n') then TrimNewlines(s[..|s| - 1]) else s
  }

  /** The lines, each ended by a line feed. */
  function Unlines(ls: seq<string>): string {
    if ls == [] then "" else Unlines(ls[..|ls| - 1]) + (ls[|ls| - 1] + "\n")
  }

  predicate Unbroken(ls: seq<string>) { forall i :: 0 <= i < |ls| ==> '\n' !in ls[i] }

  function Chomped(ls: seq<string>): seq<string> { seq(|ls|, i requires 0 <= i < |ls| => Chomp(ls[i])) }

  function Terminated(ls: seq<string>): seq<string> { seq(|ls|, i requires 0 <= i < |ls| => ls[i] + "\n") }

  /** The lines without the empty ones at the end. */
  function DropBlank(ls: seq<string>): seq<string> {
    if ls != [] && ls[|ls| - 1] == "" then DropBlank(ls[..|ls| - 1]) else ls
  }

  lemma {:induction false} LineEndAt(l: string, rest: string)
    requires '\n' !in l
    ensures LineEnd(l + "\n" + rest) == |l|
  {
    var c := l + "\n" + rest;
    if l == "" {
      assert c[0] == '\n';
    } else {
      LineEndAt(l[1..], rest);
      assert c[1..] == l[1..] + "\n" + rest;
      assert c[0] == l[0] && l[0] in l;
    }
  }

  lemma FirstPiece(l: string, rest: string)
    requires '\n' !in l
    ensures Pieces(l + "\n" + rest) == [l + "\n"] + Pieces(rest)
  {
    var c := l + "\n" + rest;
    LineEndAt(l, rest);
    assert c[..|l| + 1] == l + "\n" && c[|l| + 1..] == rest;
  }

  lemma {:induction false} UnlinesPieces(ls: seq<string>, rest: string)
    requires Unbroken(ls)
    ensures Pieces(Unlines(ls) + rest) == Terminated(ls) + Pieces(rest)
  {
    if ls == [] {
      assert Unlines(ls) + rest == rest;
    } else {
      var init, last := ls[..|ls| - 1], ls[|ls| - 1];
      Associate(Unlines(init), last + "\n", rest);
      UnlinesPieces(init, last + "\n" + rest);
      FirstPiece(last, rest);
      Associate(Terminated(init), [last + "\n"], Pieces(rest));
      assert Terminated(ls) == Terminated(init) + [last + "\n"];
    }
  }

  lemma LinesOfConcat(a: seq<string>, b: seq<string>)
    ensures LinesOf(a + b) == LinesOf(a) + LinesOf(b)
  {
  }

  lemma LinesOfTerminated(ls: seq<string>)
    ensures LinesOf(Terminated(ls)) == Chomped(ls)
  {
    forall i | 0 <= i < |ls|
      ensures LineOf(ls[i] + "\n") == Chomp(ls[i])
    {
      assert (ls[i] + "\n")[..|ls[i]|] == ls[i];
    }
  }

  /** Reading back the lines of a text loses only one carriage return at the end of each. */
  lemma UnlinesLines(ls: seq<string>, rest: string)
    requires Unbroken(ls)
    ensures Lines(Unlines(ls) + rest) == Chomped(ls) + Lines(rest)
  {
    UnlinesPieces(ls, rest);
    LinesOfConcat(Terminated(ls), Pieces(rest));
    LinesOfTerminated(ls);
  }

  lemma UnlinesInjective(a: seq<string>, b: seq<string>)
    requires Unbroken(a) && Unbroken(b) && Unlines(a) == Unlines(b)
    ensures a == b
  {
    UnlinesPieces(a, "");
    UnlinesPieces(b, "");
    assert Unlines(a) + "" == Unlines(a) && Unlines(b) + "" == Unlines(b);
    assert Terminated(a) == Terminated(a) + Pieces("") == Terminated(b) + Pieces("") == Terminated(b);
    forall i | 0 <= i < |a|
      ensures a[i] == b[i]
    {
      assert Terminated(a)[i][..|a[i]|] == a[i] && Terminated(b)[i][..|b[i]|] == b[i];
    }
  }

  lemma {:induction false} LinesUnbroken(c: string)
    ensures Unbroken(Lines(c))
  {
    if c != "" {
      var i := LineEnd(c);
      if i < |c| {
        LinesUnbroken(c[i + 1..]);
        assert Lines(c) == [LineOf(c[..i + 1])] + Lines(c[i + 1..]);
        assert c[..i + 1][..i] == c[..i];
      } else {
        assert c[..i] == c && Lines(c) == [c];
      }
    }
  }

  lemma {:induction false} JoinUnlines(ls: seq<string>)
    requires ls != []
    ensures Join(ls) + "\n" == Unlines(ls)
  {
    var init, last := ls[..|ls| - 1], ls[|ls| - 1];
    if init == [] {
      assert Unlines(init) + (last + "\n") == last + "\n";
    } else {
      JoinUnlines(init);
      assert Join(init) + "\n" + last + "\n" == Join(init) + "\n" + (last + "\n");
    }
  }

  lemma {:induction false} TrimJoin(ls: seq<string>)
    requires Unbroken(ls)
    ensures TrimNewlines(Join(ls)) == Join(DropBlank(ls))
    ensures DropBlank(ls) != [] ==> Join(DropBlank(ls)) != "" && !EndsWith(Join(DropBlank(ls)), '\n')
  {
    if ls != [] {
      var init, last := ls[..|ls| - 1], ls[|ls| - 1];
      if last == "" {
        TrimJoin(init);
        assert init != [] ==> Join(ls)[..|Join(ls)| - 1] == Join(init);
      } else {
        assert last[|last| - 1] in last;
        assert Join(ls)[|Join(ls)| - 1] == last[|last| - 1];
      }
    }
  }

  lemma {:induction false} DropBlankPrefix(ls: seq<string>)
    ensures DropBlank(ls) <= ls
  {
    if ls != [] && ls[|ls| - 1] == "" { DropBlankPrefix(ls[..|ls| - 1]); }
  }

  predicate AllBlank(ls: seq<string>) { forall i :: 0 <= i < |ls| ==> ls[i] == "" }

  predicate NoReturns(ls: seq<string>) { forall i :: 0 <= i < |ls| ==> !EndsWith(ls[i], '\r') }

  lemma {:induction false} DropBlankConcat(a: seq<string>, x: seq<string>)
    ensures if AllBlank(x) then DropBlank(a + x) == DropBlank(a) else |DropBlank(a + x)| > |a|
  {
    if x == [] {
      assert a + x == a;
    } else {
      var init, last := x[..|x| - 1], x[|x| - 1];
      assert (a + x)[|a + x| - 1] == last && (a + x)[..|a + x| - 1] == a + init;
      if last == "" {
        DropBlankConcat(a, init);
        assert AllBlank(init) ==> AllBlank(x);
      }
    }
  }

  lemma {:induction false} DropBlankFacts(ls: seq<string>)
    ensures DropBlank(DropBlank(ls)) == DropBlank(ls)
    ensures NoReturns(DropBlank(ls)) <==> NoReturns(ls)
  {
    if ls != [] && ls[|ls| - 1] == "" {
      DropBlankFacts(ls[..|ls| - 1]);
      assert NoReturns(ls[..|ls| - 1]) ==> NoReturns(ls);
    }
  }

  lemma StableIff(a: seq<string>, x: seq<string>)
    requires DropBlank(a) == a
    ensures DropBlank(Chomped(a) + x) == a <==> NoReturns(a) && AllBlank(x)
  {
    DropBlankConcat(Chomped(a), x);
    DropBlankPrefix(Chomped(a));
    if NoReturns(a) {
      assert Chomped(a) == a;
    } else {
      var i :| 0 <= i < |a| && EndsWith(a[i], '\r');
      assert Chomped(a)[i] != a[i];
    }
  }

  lemma {:induction false} UnlinesConcat(a: seq<string>, b: seq<string>)
    ensures Unlines(a + b) == Unlines(a) + Unlines(b)
  {
    if b == [] {
      assert a + b == a;
    } else {
      var init, last := b[..|b| - 1], b[|b| - 1];
      UnlinesConcat(a, init);
      assert (a + b)[..|a + b| - 1] == a + init;
      Associate(Unlines(a), Unlines(init), last + "\n");
    }
  }

  lemma ChompedSame(ls: seq<string>)
    requires NoReturns(ls)
    ensures Chomped(ls) == ls
  {
  }

  lemma {:induction false} LinesWithoutReturns(c: string)
    requires '\r' !in c
    ensures NoReturns(Lines(c))
  {
    var i := LineEnd(c);
    if c != "" && i < |c| {
      LinesWithoutReturns(c[i + 1..]);
      assert Lines(c) == [LineOf(c[..i + 1])] + Lines(c[i + 1..]);
      assert c[..i + 1][..i] == c[..i];
    }
  }

  lemma UnlinesThree(a: string, b: string, c: string)
    ensures Unlines([a, b, c]) == a + "\n" + (b + "\n") + (c + "\n")
  {
    assert [a, b, c][..2] == [a, b] && [a, b][..1] == [a] && [a][..0] == [];
    assert Unlines([a]) == "" + (a + "\n") == a + "\n";
  }
}
