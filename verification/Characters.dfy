/** Character classes of Rust's standard library. */
module Characters {

  /** `char::is_whitespace`: Unicode's `White_Space` property. */
  predicate IsWhitespace(c: char) {
    var n := c as int;
    || 0x9 <= n <= 0xD || n == 0x20 || n == 0x85 || n == 0xA0 || n == 0x1680 || 0x2000 <= n <= 0x200A
    || n == 0x2028 || n == 0x2029 || n == 0x202F || n == 0x205F || n == 0x3000
  }

  function Lower(c: char): char { if 'A' <= c <= 'Z' then (c as int + 32) as char else c }

  /** `to_ascii_lowercase`. */
  function AsciiLower(s: string): string { seq(|s|, i requires 0 <= i < |s| => Lower(s[i])) }

  predicate EqIgnoreAsciiCase(a: string, b: string) { AsciiLower(a) == AsciiLower(b) }

  /** The characters are equal, or are one ASCII letter in its two cases. */
  predicate SameLetter(a: char, b: char) {
    || a == b
    || ('A' <= a <= 'Z' && b as int - a as int == 'a' as int - 'A' as int)
    || ('A' <= b <= 'Z' && a as int - b as int == 'a' as int - 'A' as int)
  }

  predicate SameText(a: string, b: string) { |a| == |b| && forall i :: 0 <= i < |a| ==> SameLetter(a[i], b[i]) }

  lemma LowerIs(a: char, b: char)
    ensures Lower(a) == Lower(b) <==> SameLetter(a, b)
  {
  }

  /** Comparing in lower case is comparing letter by letter, but for the case of ASCII letters. */
  lemma IgnoreCaseIs(a: string, b: string)
    ensures EqIgnoreAsciiCase(a, b) <==> SameText(a, b)
  {
    if |a| == |b| {
      forall i | 0 <= i < |a| ensures Lower(a[i]) == Lower(b[i]) <==> SameLetter(a[i], b[i]) { LowerIs(a[i], b[i]); }
      assert forall i :: 0 <= i < |a| ==> AsciiLower(a)[i] == Lower(a[i]) && AsciiLower(b)[i] == Lower(b[i]);
    }
  }

  predicate NoCapitals(s: string) { forall i :: 0 <= i < |s| ==> !('A' <= s[i] <= 'Z') }

  /** A text in lower case is `word`, itself without capitals, exactly when it is the same text but for case. */
  lemma LowersTo(s: string, word: string)
    requires NoCapitals(word)
    ensures AsciiLower(s) == word <==> SameText(s, word)
  {
    assert AsciiLower(word) == word;
    IgnoreCaseIs(s, word);
  }
}
