/**
 The managed block in the server's environment file
 (`crates/ssh-proxy-deploy/src/remote_setup_scripts.rs`): stripping an old block,
 appending a new one, and quoting the values for the shell.
 */
module ServerEnv {
  import opened Characters
  import opened Sequences
  import opened TextLines
  import opened ManagedBlocks

  const BEGIN := "# >>> vscode-remote-proxy >>>"
  const END := "# <<< vscode-remote-proxy <<<"

  function TrimEnd(s: string): string {
    if s != "" && IsWhitespace(s[|s| - 1]) then TrimEnd(s[..|s| - 1]) else s
  }

  function TrimStart(s: string): string {
    if s != "" && IsWhitespace(s[0]) then TrimStart(s[1..]) else s
  }

  function MarkOf(l: string): Mark {
    var t := TrimStart(TrimEnd(l));
    if t == BEGIN then Begin else if t == END then End else Plain
  }

  // Stripping

  function Strip(c: string): string { TrimNewlines(Join(Kept(MarkOf, Lines(c), false))) }

  /** `strip_managed_server_env_block`. */
  method StripManagedServerEnvBlock(current: string) returns (r: string)
    ensures r == Strip(current)
  {
    var lines := Lines(current);
    var cleaned: seq<string> := [];
    var skip := false;
    for i := 0 to |lines|
      invariant cleaned + Kept(MarkOf, lines[i..], skip) == Kept(MarkOf, lines, false)
    {
      var line := lines[i];
      assert lines[i..][0] == line && lines[i..][1..] == lines[i + 1..];
      match MarkOf(line)
      case Begin => skip := true;
      case End => skip := false;
      case Plain => if !skip { cleaned := cleaned + [line]; }
    }
    assert cleaned + [] == cleaned;
    r := TrimNewlines(Join(cleaned));
  }

  // Building

  datatype Entry = Entry(key: string, value: string)

  function ReplaceQuotes(v: string): string {
    if v == "" then "" else (if v[0] == '\'' then "'\\''" else [v[0]]) + ReplaceQuotes(v[1..])
  }

  function ShellQuote(v: string): string { "'" + ReplaceQuotes(v) + "'" }

  function Export(e: Entry): string { "export " + e.key + "=" + ShellQuote(e.value) }

  /** The entries of the map, in key order. */
  function Exports(env: seq<Entry>): seq<string> { seq(|env|, i requires 0 <= i < |env| => Export(env[i])) }

  function Block(env: seq<Entry>): string { Join([BEGIN, Join(Exports(env)), END]) }

  function Build(c: string, env: seq<Entry>): string {
    var cleaned := Strip(c);
    cleaned + (if cleaned != "" && !EndsWith(cleaned, '\n') then "\n" else "") + Block(env) + "\n"
  }

  /** `build_server_env_setup_content`. */
  method BuildServerEnvSetupContent(current: string, env: seq<Entry>) returns (cleaned: string)
    ensures cleaned == Build(current, env)
  {
    cleaned := StripManagedServerEnvBlock(current);
    if cleaned != "" && !EndsWith(cleaned, '\n') { cleaned := cleaned + "\n"; }
    cleaned := cleaned + Block(env);
    cleaned := cleaned + "\n";
  }

  // The text of a file as its lines

  function Body(c: string): seq<string> { DropBlank(Kept(MarkOf, Lines(c), false)) }

  function BlockText(env: seq<Entry>): string { Block(env) + "\n" }

  lemma BodyFacts(c: string)
    ensures Unbroken(Body(c)) && NoMarkers(MarkOf, Body(c))
  {
    LinesUnbroken(c);
    KeptUnbroken(MarkOf, Lines(c), false);
    KeptNoMarkers(MarkOf, Lines(c), false);
    DropBlankPrefix(Kept(MarkOf, Lines(c), false));
  }

  /** The file that is built: the lines kept, then the block. */
  lemma BuildText(c: string, env: seq<Entry>)
    ensures Build(c, env) == Unlines(Body(c)) + BlockText(env)
  {
    var kept := Kept(MarkOf, Lines(c), false);
    LinesUnbroken(c);
    KeptUnbroken(MarkOf, Lines(c), false);
    TrimJoin(kept);
    if Body(c) != [] { JoinUnlines(Body(c)); }
    assert Build(c, env) == Unlines(Body(c)) + Block(env) + "\n";
  }

  /** Every line outside the old blocks survives in order, but for the empty ones at the end. */
  lemma LinesSurvive(c: string, env: seq<Entry>)
    ensures Lines(Build(c, env)) == Chomped(DropBlank(Survivors(MarkOf, Lines(c), |Lines(c)|))) + Lines(BlockText(env))
  {
    BuildText(c, env);
    BodyFacts(c);
    KeptAreOutside(MarkOf, Lines(c));
    UnlinesLines(Body(c), BlockText(env));
  }

  // Building twice

  /** What stripping would leave of the block itself. */
  function Leak(env: seq<Entry>): seq<string> { Kept(MarkOf, Lines(BlockText(env)), false) }

  lemma BodyOfBuild(c: string, env: seq<Entry>)
    ensures Body(Build(c, env)) == DropBlank(Chomped(Body(c)) + Leak(env))
  {
    BuildText(c, env);
    BodyFacts(c);
    UnlinesLines(Body(c), BlockText(env));
    assert NoMarkers(MarkOf, Chomped(Body(c)));
    KeptPlain(MarkOf, Chomped(Body(c)), Lines(BlockText(env)));
  }

  lemma BuildsAgree(c: string, d: string, env: seq<Entry>)
    ensures Build(c, env) == Build(d, env) <==> Body(c) == Body(d)
  {
    BuildText(c, env);
    BuildText(d, env);
    if Build(c, env) == Build(d, env) {
      var n := |Unlines(Body(c))|;
      assert Build(c, env)[..n] == Unlines(Body(c)) && Build(d, env)[..n] == Unlines(Body(d));
      BodyFacts(c);
      BodyFacts(d);
      UnlinesInjective(Body(c), Body(d));
    }
  }

  /** No line of the text outside a managed block ends in a carriage return. */
  ghost predicate NoReturnOutside(c: string) {
    var ls := Lines(c);
    forall i :: 0 <= i < |ls| && Outside(MarkOf, ls, i) ==> !EndsWith(ls[i], '\r')
  }

  /** The block that is written for the entries has no text outside a managed block. */
  ghost predicate SelfContained(env: seq<Entry>) {
    var ls := Lines(BlockText(env));
    forall i :: 0 <= i < |ls| && Outside(MarkOf, ls, i) ==> ls[i] == ""
  }

  lemma ConditionsAre(c: string, env: seq<Entry>)
    ensures NoReturns(Kept(MarkOf, Lines(c), false)) <==> NoReturnOutside(c)
    ensures AllBlank(Leak(env)) <==> SelfContained(env)
  {
    KeptAreOutside(MarkOf, Lines(c));
    SurvivorsAll(MarkOf, Lines(c), |Lines(c)|, l => !EndsWith(l, '\r'));
    KeptAreOutside(MarkOf, Lines(BlockText(env)));
    SurvivorsAll(MarkOf, Lines(BlockText(env)), |Lines(BlockText(env))|, l => l == "");
  }

  /**
   Building with `e2` over a file built with `e1` is building with `e2` alone if and only if no line
   outside the old blocks ends in a carriage return and no text of the block of `e1` lies outside it.
   */
  lemma RebuildReplaces(c: string, e1: seq<Entry>, e2: seq<Entry>)
    ensures Build(Build(c, e1), e2) == Build(c, e2) <==> NoReturnOutside(c) && SelfContained(e1)
  {
    DropBlankFacts(Kept(MarkOf, Lines(c), false));
    ConditionsAre(c, e1);
    BodyOfBuild(c, e1);
    StableIff(Body(c), Leak(e1));
    BuildsAgree(Build(c, e1), c, e2);
  }

  // The block of entries without line breaks

  predicate NoBreaks(env: seq<Entry>) {
    forall i :: 0 <= i < |env| ==> '\n' !in env[i].key && '\n' !in env[i].value
  }

  function Middle(env: seq<Entry>): seq<string> { if env == [] then [""] else Exports(env) }

  function BlockLines(env: seq<Entry>): seq<string> { [BEGIN] + Middle(env) + [END] }

  lemma {:induction false} QuotesUnbroken(v: string)
    requires '\n' !in v
    ensures '\n' !in ReplaceQuotes(v)
  {
    if v != "" { QuotesUnbroken(v[1..]); }
  }

  lemma BlockTextIs(env: seq<Entry>)
    ensures BlockText(env) == Unlines(BlockLines(env))
  {
    var mid := Middle(env);
    assert Join(mid) == Join(Exports(env));
    JoinUnlines(mid);
    JoinUnlines([BEGIN, Join(mid), END]);
    UnlinesConcat([BEGIN], mid);
    UnlinesConcat([BEGIN] + mid, [END]);
    UnlinesConcat([BEGIN], [Join(mid)]);
    UnlinesConcat([BEGIN] + [Join(mid)], [END]);
    assert [BEGIN] + [Join(mid)] + [END] == [BEGIN, Join(mid), END];
    assert Unlines([Join(mid)]) == Unlines([]) + (Join(mid) + "\n") == Join(mid) + "\n";
  }

  lemma {:induction false} TrimEndKeepsFirst(l: string)
    requires l != "" && !IsWhitespace(l[0])
    ensures TrimEnd(l) != "" && TrimEnd(l)[0] == l[0]
  {
    if IsWhitespace(l[|l| - 1]) { TrimEndKeepsFirst(l[..|l| - 1]); }
  }

  lemma ExportFacts(e: Entry)
    requires '\n' !in e.key && '\n' !in e.value
    ensures '\n' !in Export(e) && !EndsWith(Export(e), '\r') && !MarkOf(Export(e)).End?
  {
    QuotesUnbroken(e.value);
    assert Export(e)[0] == 'e' && END[0] == '#';
    TrimEndKeepsFirst(Export(e));
    assert Export(e)[|Export(e)| - 1] == '\'';
  }

  lemma MiddleFacts(env: seq<Entry>)
    requires NoBreaks(env)
    ensures Unbroken(Middle(env)) && NoReturns(Middle(env))
    ensures forall i :: 0 <= i < |Middle(env)| ==> !MarkOf(Middle(env)[i]).End?
  {
    forall i | 0 <= i < |env|
      ensures '\n' !in Export(env[i]) && !EndsWith(Export(env[i]), '\r') && !MarkOf(Export(env[i])).End?
    {
      ExportFacts(env[i]);
    }
  }

  lemma MarkersAre()
    ensures MarkOf(BEGIN).Begin? && MarkOf(END).End?
  {
    assert BEGIN[0] == '#' && BEGIN[|BEGIN| - 1] == '>';
    assert END[0] == '#' && END[|END| - 1] == '<';
  }

  lemma MarkersArePlain()
    ensures Unbroken([BEGIN, END]) && NoReturns([BEGIN, END])
  {
    assert '\n' !in BEGIN && '\n' !in END;
    assert BEGIN[|BEGIN| - 1] == '>' && END[|END| - 1] == '<';
  }

  /** Without line breaks in the entries, the block is its marker lines around one line for each entry. */
  lemma BlockIsLines(env: seq<Entry>)
    requires NoBreaks(env)
    ensures Lines(BlockText(env)) == BlockLines(env)
  {
    var ls := BlockLines(env);
    MarkersArePlain();
    MiddleFacts(env);
    assert forall i :: 0 <= i < |ls| ==> ls[i] in [BEGIN, END] || ls[i] in Middle(env);
    ChompedSame(ls);
    BlockTextIs(env);
    UnlinesLines(ls, "");
    assert Unlines(ls) + "" == Unlines(ls) && ls + Lines("") == ls;
  }

  /** Such a block strips away whole. */
  lemma BlockStrips(env: seq<Entry>)
    requires NoBreaks(env)
    ensures Leak(env) == []
  {
    BlockIsLines(env);
    MiddleFacts(env);
    MarkersAre();
    DropFirst(BEGIN, Middle(env), [END]);
    KeptWholeBlock(MarkOf, BlockLines(env), Middle(env), END);
  }

  /** On text without carriage returns, and entries without line breaks, a new block replaces the old one. */
  lemma RebuildReplacesPlain(c: string, e1: seq<Entry>, e2: seq<Entry>)
    requires '\r' !in c && NoBreaks(e1)
    ensures Build(Build(c, e1), e2) == Build(c, e2)
  {
    LinesWithoutReturns(c);
    BlockStrips(e1);
    ConditionsAre(c, e1);
    RebuildReplaces(c, e1, e2);
  }

  lemma NotMarker(l: string)
    requires l != "" && l[0] != '#' && !IsWhitespace(l[0])
    ensures MarkOf(l).Plain?
  {
    TrimEndKeepsFirst(l);
    assert BEGIN[0] == '#' && END[0] == '#';
  }

  /** An unterminated last line that ends in a carriage return loses it on the second build. */
  lemma ReturnIsLost(e1: seq<Entry>, e2: seq<Entry>)
    ensures Build(Build("a\r", e1), e2) != Build("a\r", e2)
  {
    var c := "a\r";
    assert c[1..] == "\r" && c[1..][1..] == "";
    assert LineEnd(c) == 2 && Lines(c) == [c];
    NotMarker(c);
    assert Outside(MarkOf, Lines(c), 0);
    RebuildReplaces(c, e1, e2);
  }

  lemma {:induction false} NoQuotes(v: string)
    requires '\'' !in v
    ensures ReplaceQuotes(v) == v
  {
    if v != "" { NoQuotes(v[1..]); }
  }

  /** A text with an end marker among its lines, between the markers of a block. */
  lemma MarkerInside(head: string, tail: string)
    ensures Join([BEGIN, head + "\n" + END + "\n" + tail, END]) + "\n" == Unlines([BEGIN, head, END, tail, END])
  {
    JoinUnlines([BEGIN, head + "\n" + END + "\n" + tail, END]);
    var text := head + "\n" + END + "\n" + tail;
    UnlinesThree(BEGIN, text, END);
    UnlinesThree(head, END, tail);
    UnlinesConcat([BEGIN], [head, END, tail]);
    UnlinesConcat([BEGIN] + [head, END, tail], [END]);
    assert [BEGIN] + [head, END, tail] + [END] == [BEGIN, head, END, tail, END];
    assert Unlines([BEGIN]) == Unlines([]) + (BEGIN + "\n") == BEGIN + "\n";
    assert Unlines([END]) == Unlines([]) + (END + "\n") == END + "\n";
    assert text + "\n" == head + "\n" + (END + "\n") + (tail + "\n");
  }

  lemma EscapeText(e: Entry, head: string, tail: string)
    requires Export(e) == head + "\n" + END + "\n" + tail
    ensures BlockText([e]) == Unlines([BEGIN, head, END, tail, END])
  {
    assert Exports([e]) == [Export(e)];
    MarkerInside(head, tail);
  }

  lemma EscapeIsOutside(e: Entry, head: string, tail: string)
    requires Export(e) == head + "\n" + END + "\n" + tail
    requires Unbroken([head, tail]) && NoReturns([head, tail]) && NoMarkers(MarkOf, [head, tail]) && tail != ""
    ensures !SelfContained([e])
  {
    var ls := [BEGIN, head, END, tail, END];
    EscapeText(e, head, tail);
    MarkersAre();
    MarkersArePlain();
    assert forall i :: 0 <= i < |ls| ==> ls[i] in [BEGIN, END] || ls[i] in [head, tail];
    ChompedSame(ls);
    UnlinesLines(ls, "");
    assert Unlines(ls) + "" == Unlines(ls) && ls + Lines("") == ls;
    assert MarkOf([head, tail][0]).Plain? && MarkOf([head, tail][1]).Plain?;
    TailOutside(MarkOf, BEGIN, head, END, tail, END);
  }

  function BreakingEntry(marker: string): Entry { Entry("A", "x\n" + marker + "\ny") }

  lemma BreakingExport(marker: string)
    requires '\'' !in marker
    ensures Export(BreakingEntry(marker)) == "export A='x" + "\n" + marker + "\n" + "y'"
  {
    NoQuotes("x\n" + marker + "\ny");
  }

  lemma PlainLine(l: string)
    requires |l| > 1 && l[0] != '#' && !IsWhitespace(l[0])
    requires '\n' !in l && l[|l| - 1] != '\r'
    ensures Unbroken([l]) && NoReturns([l]) && NoMarkers(MarkOf, [l])
  {
    NotMarker(l);
  }

  lemma BreakingLines(head: string, tail: string)
    requires head == "export A='x" && tail == "y'"
    ensures Unbroken([head, tail]) && NoReturns([head, tail]) && NoMarkers(MarkOf, [head, tail])
  {
    PlainLine(head);
    PlainLine(tail);
    assert [head][0] == head && [tail][0] == tail;
  }

  /** An entry that holds an end marker on a line of its own leaves the text after it behind. */
  lemma BreakEscapes(c: string, e2: seq<Entry>)
    ensures var e1 := [BreakingEntry(END)]; Build(Build(c, e1), e2) != Build(c, e2)
  {
    var head, tail := "export A='x", "y'";
    BreakingExport(END);
    BreakingLines(head, tail);
    EscapeIsOutside(BreakingEntry(END), head, tail);
    RebuildReplaces(c, [BreakingEntry(END)], e2);
  }

  // Shell quoting, read back by the POSIX rules (Shell Command Language, section 2.2)

  datatype Word = Word(text: string) | Unfinished | Expands

  /**
   The text of a word made of quoted parts: inside single quotes every character stands
   for itself, outside them a backslash keeps the next character. A word with any other
   character outside quotes may be expanded or split by the shell.
   */
  function ReadWord(s: string, quoted: bool): Word {
    if s == "" then if quoted then Unfinished else Word("")
    else if s[0] == '\'' then ReadWord(s[1..], !quoted)
    else if quoted then Prepend(s[0], ReadWord(s[1..], true))
    else if s[0] == '\\' then
      if |s| == 1 then Unfinished
      else if s[1] == '\n' then ReadWord(s[2..], false)
      else Prepend(s[1], ReadWord(s[2..], false))
    else Expands
  }

  function Prepend(c: char, w: Word): Word { if w.Word? then Word([c] + w.text) else w }

  lemma ReadEscape(rest: string)
    ensures ReadWord("'\\''" + rest, true) == Prepend('\'', ReadWord(rest, true))
  {
    var s0, s1, s2 := "'\\''" + rest, "\\''" + rest, "'" + rest;
    assert s0[1..] == s1 && s1[2..] == s2 && s2[1..] == rest;
    assert ReadWord(s2, false) == ReadWord(rest, true);
    assert ReadWord(s1, false) == Prepend('\'', ReadWord(s2, false));
  }

  lemma {:induction false} ReadQuoted(v: string)
    ensures ReadWord(ReplaceQuotes(v) + "'", true) == Word(v)
  {
    var s := ReplaceQuotes(v) + "'";
    if v == "" {
      assert s == "'" && s[1..] == "";
    } else {
      ReadQuoted(v[1..]);
      var rest := ReplaceQuotes(v[1..]) + "'";
      if v[0] == '\'' {
        assert s == "'\\''" + rest;
        ReadEscape(rest);
      } else {
        assert s == [v[0]] + rest && s[1..] == rest;
      }
    }
  }

  /** The shell reads a quoted value as one word, the value itself, with nothing expanded. */
  lemma ShellQuoteRoundTrip(v: string)
    ensures ReadWord(ShellQuote(v), false) == Word(v)
  {
    ReadQuoted(v);
    assert ShellQuote(v)[1..] == ReplaceQuotes(v) + "'";
  }

  /** The line exports the entry: the key as it is, and a word that the shell reads as the value. */
  ghost predicate ExportsEntry(line: string, e: Entry) {
    exists w :: line == "export " + e.key + "=" + w && ReadWord(w, false) == Word(e.value)
  }

  /** Without line breaks in the entries, the block's lines are its markers around an export of each entry, in order. */
  lemma BlockExports(env: seq<Entry>)
    requires NoBreaks(env) && env != []
    ensures var ls := Lines(BlockText(env));
            && |ls| == |env| + 2
            && ls[0] == "# >>> vscode-remote-proxy >>>" && ls[|env| + 1] == "# <<< vscode-remote-proxy <<<"
            && forall i :: 0 <= i < |env| ==> ExportsEntry(ls[i + 1], env[i])
  {
    BlockIsLines(env);
    var ls := BlockLines(env);
    forall i | 0 <= i < |env| ensures ExportsEntry(ls[i + 1], env[i]) {
      assert ls[i + 1] == "export " + env[i].key + "=" + ShellQuote(env[i].value);
      ShellQuoteRoundTrip(env[i].value);
    }
  }

  // Which lines are markers

  predicate Blank(s: string) { forall i :: 0 <= i < |s| ==> IsWhitespace(s[i]) }

  lemma {:induction false} TrimStartIs(s: string) returns (before: string)
    ensures Blank(before) && s == before + TrimStart(s) && (TrimStart(s) == "" || !IsWhitespace(TrimStart(s)[0]))
  {
    if s != "" && IsWhitespace(s[0]) {
      var rest := TrimStartIs(s[1..]);
      before := [s[0]] + rest;
      Associate([s[0]], rest, TrimStart(s[1..]));
      SplitAt(s, 1);
    } else {
      before := "";
    }
  }

  lemma {:induction false} TrimEndIs(s: string) returns (after: string)
    ensures Blank(after) && s == TrimEnd(s) + after && (TrimEnd(s) == "" || !IsWhitespace(TrimEnd(s)[|TrimEnd(s)| - 1]))
  {
    if s != "" && IsWhitespace(s[|s| - 1]) {
      var rest := TrimEndIs(s[..|s| - 1]);
      after := rest + [s[|s| - 1]];
      Associate(TrimEnd(s[..|s| - 1]), rest, [s[|s| - 1]]);
      SplitAt(s, |s| - 1);
    } else {
      after := "";
    }
  }

  lemma {:induction false} TrimEndOf(text: string, after: string)
    requires Blank(after) && text != "" && !IsWhitespace(text[|text| - 1])
    ensures TrimEnd(text + after) == text
  {
    if after == "" {
      assert text + after == text;
    } else {
      var n := |after| - 1;
      TrimEndOf(text, after[..n]);
      TakeInto(text, after, n);
    }
  }

  lemma {:induction false} TrimStartOf(before: string, text: string)
    requires Blank(before) && text != "" && !IsWhitespace(text[0])
    ensures TrimStart(before + text) == text
  {
    if before == "" {
      assert before + text == text;
    } else {
      TrimStartOf(before[1..], text);
      assert (before + text)[1..] == before[1..] + text;
    }
  }

  /** Trimming a line gives `text`, itself trimmed, exactly when the line is that text among white space. */
  lemma TrimsTo(l: string, text: string)
    requires text != "" && !IsWhitespace(text[0]) && !IsWhitespace(text[|text| - 1])
    ensures TrimStart(TrimEnd(l)) == text <==>
            exists before, after :: Blank(before) && Blank(after) && l == before + text + after
  {
    if TrimStart(TrimEnd(l)) == text {
      var after := TrimEndIs(l);
      var before := TrimStartIs(TrimEnd(l));
      assert l == before + text + after;
    }
    if before, after :| Blank(before) && Blank(after) && l == before + text + after {
      TrimEndOf(before + text, after);
      TrimStartOf(before, text);
    }
  }

  /** A line is a marker if and only if it is the marker's text, with or without white space around it. */
  lemma MarkIs(l: string)
    ensures MarkOf(l).Begin? <==> exists a, b :: Blank(a) && Blank(b) && l == a + "# >>> vscode-remote-proxy >>>" + b
    ensures MarkOf(l).End? <==> exists a, b :: Blank(a) && Blank(b) && l == a + "# <<< vscode-remote-proxy <<<" + b
  {
    MarkerEnds();
    TrimsTo(l, BEGIN);
    TrimsTo(l, END);
  }

  lemma MarkerEnds()
    ensures !IsWhitespace(BEGIN[0]) && !IsWhitespace(BEGIN[|BEGIN| - 1]) && BEGIN != END
    ensures !IsWhitespace(END[0]) && !IsWhitespace(END[|END| - 1])
  {
    assert BEGIN[0] == '#' && BEGIN[|BEGIN| - 1] == '>' && END[0] == '#' && END[|END| - 1] == '<';
  }
}
