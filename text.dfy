/**
 * The two Python string operations the translator's decisions depend on:
 * `str.strip()` (whitespace as `str.isspace` defines it) and `str.lower()`.
 */
module Text {

  /** Python's `str.isspace()` for one character. */
  predicate IsSpace(c: char) {
    c == ' ' || ('\t' <= c <= '\r') || ('\U{1C}' <= c <= '\U{1F}')
    || c == '\U{85}' || c == '\U{A0}' || c == '\U{1680}'
    || ('\U{2000}' <= c <= '\U{200A}')
    || c == '\U{2028}' || c == '\U{2029}' || c == '\U{202F}' || c == '\U{205F}' || c == '\U{3000}'
  }

  predicate AllSpace(s: string) {
    forall i :: 0 <= i < |s| ==> IsSpace(s[i])
  }

  /** Neither end of `s` is whitespace. */
  predicate IsStripped(s: string) {
    s == [] || (!IsSpace(s[0]) && !IsSpace(s[|s| - 1]))
  }

  /** `str.lstrip()`: `s` without its leading whitespace. */
  function StripStart(s: string): (r: string)
    ensures |r| <= |s|
  {
    if s == [] || !IsSpace(s[0]) then s else StripStart(s[1..])
  }

  /** What `lstrip` removes is whitespace, and what it keeps starts with none. */
  lemma {:induction false} StripStartSpec(s: string)
    ensures var r := StripStart(s);
            r == s[|s| - |r|..] && AllSpace(s[..|s| - |r|]) && (r == [] || !IsSpace(r[0]))
  {
    if s != [] && IsSpace(s[0]) {
      var r := StripStart(s[1..]);
      StripStartSpec(s[1..]);
      assert r == s[1..][|s| - 1 - |r|..] == s[|s| - |r|..];
      assert s[..|s| - |r|] == [s[0]] + s[1..][..|s| - 1 - |r|];
    }
  }

  /** `str.rstrip()`: `s` without its trailing whitespace. */
  function StripEnd(s: string): (r: string)
    ensures |r| <= |s|
  {
    if s == [] || !IsSpace(s[|s| - 1]) then s else StripEnd(s[..|s| - 1])
  }

  /** What `rstrip` removes is whitespace, and what it keeps ends with none. */
  lemma {:induction false} StripEndSpec(s: string)
    ensures var r := StripEnd(s);
            r == s[..|r|] && AllSpace(s[|r|..]) && (r == [] || !IsSpace(r[|r| - 1]))
  {
    if s != [] && IsSpace(s[|s| - 1]) {
      var r := StripEnd(s[..|s| - 1]);
      StripEndSpec(s[..|s| - 1]);
      assert r == s[..|s| - 1][..|r|] == s[..|r|];
      assert s[|r|..] == s[..|s| - 1][|r|..] + [s[|s| - 1]];
    }
  }

  /**
   * `str.strip()`: the result has no whitespace at either end, and it is
   * empty exactly when `s` is nothing but whitespace.
   */
  function Strip(s: string): (r: string)
    ensures |r| <= |s|
    ensures IsStripped(r)
    ensures r == [] <==> AllSpace(s)
  {
    StripProperties(s);
    StripEnd(StripStart(s))
  }

  lemma StripProperties(s: string)
    ensures var r := StripEnd(StripStart(s));
            IsStripped(r) && (r == [] <==> AllSpace(s))
  {
    var t := StripStart(s);
    var r := StripEnd(t);
    StripStartSpec(s);
    StripEndSpec(t);
    assert r != [] ==> r[0] == t[0];
    assert r == [] ==> AllSpace(s) by {
      if r == [] {
        assert AllSpace(t[0..]) && t[0..] == t;
        assert t == [];
        assert s[..|s|] == s;
      }
    }
  }

  /** Python's `str.lower()` on one character, for the ASCII letters. */
  function LowerChar(c: char): char {
    if 'A' <= c <= 'Z' then (c as int + 32) as char else c
  }

  function UpperChar(c: char): char {
    if 'a' <= c <= 'z' then (c as int - 32) as char else c
  }

  /**
   * Python's `str.lower()`, character by character: no ASCII capital is
   * left, and only the case of each character changes.
   */
  function Lower(s: string): (r: string)
    ensures |r| == |s|
    ensures forall i :: 0 <= i < |r| ==> !('A' <= r[i] <= 'Z')
    ensures forall i :: 0 <= i < |s| ==> UpperChar(r[i]) == UpperChar(s[i])
  {
    seq(|s|, i requires 0 <= i < |s| => LowerChar(s[i]))
  }

  /** `w` is a word of lower-case ASCII letters. */
  predicate IsLowerWord(w: string) {
    forall i :: 0 <= i < |w| ==> 'a' <= w[i] <= 'z'
  }

  /** `s` spells `w` letter by letter, each letter in either case. */
  predicate SpellsIgnoringCase(s: string, w: string) {
    |s| == |w| && forall i :: 0 <= i < |s| ==> s[i] == w[i] || s[i] == UpperChar(w[i])
  }

  /** Lower-casing yields a lower-case word exactly when the text spells it in any case. */
  lemma LowerIsWordIff(s: string, w: string)
    requires IsLowerWord(w)
    ensures Lower(s) == w <==> SpellsIgnoringCase(s, w)
  {
  }
}
