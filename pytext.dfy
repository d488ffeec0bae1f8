/**
 * The few Python `str` built-ins the downloader relies on, restricted to ASCII:
 * `isspace`, `isdigit`, `strip`, `replace(c, '')`, `split()[0]` and `str(int)`.
 */
module PyText {
  import opened Wrappers

  /** The ASCII characters for which Python's `str.isspace()` holds. */
  predicate IsSpace(c: char) {
    c == ' ' || c == '\t' || c == '\n' || c == '\r' || c == '\U{0b}' || c == '\U{0c}'
    || c == '\U{1c}' || c == '\U{1d}' || c == '\U{1e}' || c == '\U{1f}'
  }

  /** The ASCII characters for which Python's `str.isdigit()` holds. */
  predicate IsDigit(c: char) {
    '0' <= c <= '9'
  }

  predicate AllDigits(s: string) {
    forall i :: 0 <= i < |s| ==> IsDigit(s[i])
  }

  predicate AllSpace(s: string) {
    forall i :: 0 <= i < |s| ==> IsSpace(s[i])
  }

  /** `s.lstrip()`: the suffix left after dropping the leading whitespace. */
  function StripStart(s: string): (r: string)
    ensures |r| <= |s| && r == s[|s| - |r|..]
    ensures AllSpace(s[..|s| - |r|])
    ensures r == [] || !IsSpace(r[0])
  {
    if s == [] || !IsSpace(s[0]) then s else StripStart(s[1..])
  }

  /** `s.rstrip()`: the prefix left after dropping the trailing whitespace. */
  function StripEnd(s: string): (r: string)
    ensures |r| <= |s| && r == s[..|r|]
    ensures AllSpace(s[|r|..])
    ensures r == [] || !IsSpace(r[|r| - 1])
  {
    if s == [] || !IsSpace(s[|s| - 1]) then s else StripEnd(s[..|s| - 1])
  }

  /**
   * `s.strip()`: the middle of `s` left once whitespace is dropped from both ends; what
   * remains neither starts nor ends with whitespace.
   */
  function Strip(s: string): (r: string)
    ensures exists i, j :: 0 <= i <= j <= |s| && r == s[i..j] && AllSpace(s[..i]) && AllSpace(s[j..])
    ensures r == [] <==> AllSpace(s)
    ensures r != [] ==> !IsSpace(r[0]) && !IsSpace(r[|r| - 1])
  {
    var t := StripStart(s);
    assert t != [] ==> t[0] == s[|s| - |t|];
    assert t == [] ==> s[..|s|] == s;
    var r := StripEnd(t);
    StripMiddle(s, t, r);
    r
  }

  /** Where the stripped text sits in `s`: after the leading whitespace, before the trailing. */
  lemma StripMiddle(s: string, t: string, r: string)
    requires |t| <= |s| && t == s[|s| - |t|..] && |r| <= |t| && r == t[..|r|]
    ensures r == s[|s| - |t|..|s| - |t| + |r|] && s[|s| - |t| + |r|..] == t[|r|..]
  {
  }

  /** `s.replace(c, '')`: the other characters of `s`, in their order (see `RemoveAllAppend`). */
  function RemoveAll(s: string, c: char): (r: string)
    ensures c !in r
    ensures c !in s ==> r == s
    ensures forall x :: x != c ==> multiset(r)[x] == multiset(s)[x]
  {
    if s == [] then []
    else
      assert s == [s[0]] + s[1..];
      if s[0] == c then RemoveAll(s[1..], c) else [s[0]] + RemoveAll(s[1..], c)
  }

  /** Removing a character from a concatenation removes it from each part, keeping their order. */
  lemma {:induction false} RemoveAllAppend(a: string, b: string, c: char)
    ensures RemoveAll(a + b, c) == RemoveAll(a, c) + RemoveAll(b, c)
  {
    if a != [] {
      assert (a + b)[0] == a[0] && (a + b)[1..] == a[1..] + b;
      RemoveAllAppend(a[1..], b, c);
    } else {
      assert a + b == b;
    }
  }

  function DigitValue(c: char): (d: nat)
    requires IsDigit(c)
    ensures d < 10
  {
    c as int - '0' as int
  }

  function DigitChar(d: nat): (c: char)
    requires d < 10
    ensures IsDigit(c) && DigitValue(c) == d
  {
    ('0' as int + d) as char
  }

  /** The value of a string of decimal digits; the empty string counts as 0. */
  function DigitsValue(s: string): nat
    requires AllDigits(s)
  {
    if s == [] then 0 else DigitsValue(s[..|s| - 1]) * 10 + DigitValue(s[|s| - 1])
  }

  /** `str(n)` for a non-negative integer: its decimal digits, without leading zeros. */
  function NatToString(n: nat): (r: string)
    ensures |r| > 0 && AllDigits(r) && DigitsValue(r) == n
    ensures |r| == 1 || r[0] != '0'
  {
    if n < 10 then [DigitChar(n)]
    else
      var r := NatToString(n / 10) + [DigitChar(n % 10)];
      assert r[..|r| - 1] == NatToString(n / 10);
      r
  }

  /**
   * `str(i)` for any integer: the digits of its absolute value without leading zeros, after a
   * minus sign when it is negative.
   */
  function IntToString(i: int): (r: string)
    ensures i >= 0 ==> |r| > 0 && AllDigits(r) && DigitsValue(r) == i && (|r| == 1 || r[0] != '0')
    ensures i < 0 ==> |r| > 1 && r[0] == '-' && AllDigits(r[1..]) && DigitsValue(r[1..]) == -i && r[1] != '0'
  {
    if i < 0 then
      var r := "-" + NatToString(-i);
      assert r[1..] == NatToString(-i);
      r
    else NatToString(i)
  }

  /** The longest prefix of `t` holding no whitespace. */
  function TakeToken(t: string): (r: string)
    ensures |r| <= |t| && r == t[..|r|]
    ensures forall i :: 0 <= i < |r| ==> !IsSpace(r[i])
    ensures |r| == |t| || IsSpace(t[|r|])
  {
    if t == [] || IsSpace(t[0]) then [] else [t[0]] + TakeToken(t[1..])
  }

  /**
   * `s.split()[0]`, or `None` where Python raises `IndexError` (no token at all): the word that
   * follows the leading whitespace and runs up to the next whitespace or the end.
   */
  function FirstToken(s: string): (r: Option<string>)
    ensures r.None? <==> AllSpace(s)
    ensures r.Some? ==> |r.value| > 0 && forall i :: 0 <= i < |r.value| ==> !IsSpace(r.value[i])
    ensures r.Some? ==> exists i :: 0 <= i <= |s| - |r.value| && AllSpace(s[..i]) && s[i..i + |r.value|] == r.value
                                    && (i + |r.value| == |s| || IsSpace(s[i + |r.value|]))
  {
    var t := StripStart(s);
    if t == [] then
      assert s[..|s|] == s;
      None
    else
      assert !AllSpace(s) by { assert s[|s| - |t|] == t[0]; }
      var w := TakeToken(t);
      StripMiddle(s, t, w);
      assert |s| - |t| + |w| < |s| ==> s[|s| - |t| + |w|] == t[|w|];
      Some(w)
  }

  /** A string that starts with a space-free word and then a space splits to that word first. */
  lemma {:induction false} FirstTokenOfWord(k: string, rest: string)
    requires |k| > 0 && forall i :: 0 <= i < |k| ==> !IsSpace(k[i])
    ensures FirstToken(k + " " + rest) == Some(k)
  {
    TakeTokenOfWord(k, rest);
  }

  lemma {:induction false} TakeTokenOfWord(k: string, rest: string)
    requires forall i :: 0 <= i < |k| ==> !IsSpace(k[i])
    ensures TakeToken(k + " " + rest) == k
  {
    if k != [] {
      assert (k + " " + rest)[1..] == k[1..] + " " + rest;
      TakeTokenOfWord(k[1..], rest);
    }
  }
}
