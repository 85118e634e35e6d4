/**
 * The two JavaScript string operations the components rely on:
 * `String.prototype.trim` (the chat and bug-report guards) and
 * `String.prototype.startsWith` (the navbar's route test).
 * Strings are sequences of code points; every trimmed character lies in
 * the Basic Multilingual Plane, so UTF-16 and code points agree here.
 */
module JsString {

  /** ECMAScript WhiteSpace and LineTerminator code points: what `trim` removes. */
  predicate IsWhiteSpace(c: char)
  {
    var n := c as int;
    n == 0x09 || n == 0x0A || n == 0x0B || n == 0x0C || n == 0x0D || n == 0x20 ||
    n == 0xA0 || n == 0x1680 || (0x2000 <= n <= 0x200A) || n == 0x2028 || n == 0x2029 ||
    n == 0x202F || n == 0x205F || n == 0x3000 || n == 0xFEFF
  }

  predicate AllWhiteSpace(s: string)
  {
    forall i :: 0 <= i < |s| ==> IsWhiteSpace(s[i])
  }

  /** Some character of `s` is visible, i.e. not white space. */
  ghost predicate HasVisibleChar(s: string)
  {
    exists i :: 0 <= i < |s| && !IsWhiteSpace(s[i])
  }

  /** `s` without its leading white space. */
  function TrimStart(s: string): (r: string)
    ensures |r| <= |s|
  {
    if s == [] || !IsWhiteSpace(s[0]) then s else TrimStart(s[1..])
  }

  /** `s` without its trailing white space. */
  function TrimEnd(s: string): (r: string)
    ensures |r| <= |s|
  {
    if s == [] || !IsWhiteSpace(s[|s| - 1]) then s else TrimEnd(s[..|s| - 1])
  }

  /** `s.trim()`: no longer than `s`, and neither starting nor ending with white space. */
  function Trim(s: string): (r: string)
    ensures |r| <= |s|
    ensures r == [] || (!IsWhiteSpace(r[0]) && !IsWhiteSpace(r[|r| - 1]))
  {
    TrimStartDropsPrefix(s);
    TrimEndDropsSuffix(TrimStart(s));
    var r := TrimEnd(TrimStart(s));
    assert r != [] ==> r[0] == TrimStart(s)[0];
    r
  }

  /**
   * `!s.trim()` in JavaScript: the trimmed string is the empty string,
   * the only falsy string. That happens exactly for all-white-space text.
   */
  predicate IsBlank(s: string)
    ensures IsBlank(s) <==> AllWhiteSpace(s)
  {
    TrimEmptyIffAllWhiteSpace(s);
    Trim(s) == ""
  }

  /** `TrimStart` drops a white-space prefix and stops at the first visible character. */
  lemma {:induction false} TrimStartDropsPrefix(s: string)
    ensures TrimStart(s) == s[|s| - |TrimStart(s)|..]
    ensures AllWhiteSpace(s[..|s| - |TrimStart(s)|])
    ensures TrimStart(s) == [] || !IsWhiteSpace(TrimStart(s)[0])
  {
    if s != [] && IsWhiteSpace(s[0]) {
      TrimStartDropsPrefix(s[1..]);
      var r := TrimStart(s[1..]);
      assert s[..|s| - |r|] == [s[0]] + s[1..][..|s[1..]| - |r|];
    }
  }

  /** `TrimEnd` drops a white-space suffix and stops at the last visible character. */
  lemma {:induction false} TrimEndDropsSuffix(s: string)
    ensures TrimEnd(s) == s[..|TrimEnd(s)|]
    ensures AllWhiteSpace(s[|TrimEnd(s)|..])
    ensures TrimEnd(s) == [] || !IsWhiteSpace(TrimEnd(s)[|TrimEnd(s)| - 1])
  {
    if s != [] && IsWhiteSpace(s[|s| - 1]) {
      TrimEndDropsSuffix(s[..|s| - 1]);
      var r := TrimEnd(s[..|s| - 1]);
      assert s[|r|..] == s[..|s| - 1][|r|..] + [s[|s| - 1]];
    }
  }

  /**
   * `s.trim()` is a slice `s[i..j]` with only white space outside it, and
   * it neither starts nor ends with white space.
   */
  lemma TrimIsSlice(s: string) returns (i: nat, j: nat)
    ensures i <= j <= |s| && Trim(s) == s[i..j]
    ensures AllWhiteSpace(s[..i]) && AllWhiteSpace(s[j..])
    ensures Trim(s) == [] || (!IsWhiteSpace(Trim(s)[0]) && !IsWhiteSpace(Trim(s)[|Trim(s)| - 1]))
  {
    var t := TrimStart(s);
    TrimStartDropsPrefix(s);
    TrimEndDropsSuffix(t);
    var r := TrimEnd(t);
    i := |s| - |t|;
    j := i + |r|;
    assert t[|r|..] == s[j..];
    assert r == s[i..j];
    if r != [] {
      assert r[0] == t[0];
    }
  }

  /** Trimming leaves nothing exactly when every character is white space. */
  lemma TrimEmptyIffAllWhiteSpace(s: string)
    ensures TrimEnd(TrimStart(s)) == "" <==> AllWhiteSpace(s)
  {
    var t := TrimStart(s);
    TrimStartDropsPrefix(s);
    TrimEndDropsSuffix(t);
    if t != [] {
      assert !IsWhiteSpace(s[|s| - |t|]);
      assert t[0..] == t;
      assert !AllWhiteSpace(t[0..]);
    } else {
      assert s[..|s| - |t|] == s;
    }
  }

  /** A string is non-blank exactly when it has a visible character. */
  lemma NotBlankIffVisible(s: string)
    ensures !IsBlank(s) <==> HasVisibleChar(s)
  {
  }

  /** `s.startsWith(prefix)`, compared character by character. */
  function StartsWith(s: string, prefix: string): (r: bool)
    ensures r <==> |prefix| <= |s| && s[..|prefix|] == prefix
  {
    if prefix == [] then true
    else if s == [] || s[0] != prefix[0] then false
    else
      var r := StartsWith(s[1..], prefix[1..]);
      assert r ==> s[..|prefix|] == [s[0]] + s[1..][..|prefix[1..]|];
      assert |prefix| <= |s| && s[..|prefix|] == prefix ==> s[1..][..|prefix[1..]|] == prefix[1..];
      r
  }
}
