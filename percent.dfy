/**
 * The text handling inside the progress hook: the engine's percentage text is stripped of
 * '%' and surrounding whitespace, every character other than a digit or '.' is dropped, and
 * what is left is read as a decimal number and truncated to an integer (`int(float(s))`).
 * Digits that belong to terminal colour escapes are kept, and nothing is clamped.
 */
module Percent {
  import opened Wrappers
  import opened PyText

  predicate IsNumeric(c: char) {
    IsDigit(c) || c == '.'
  }

  predicate AllNumeric(s: string) {
    forall i :: 0 <= i < |s| ==> IsNumeric(s[i])
  }

  /** `''.join(c for c in s if c.isdigit() or c == '.')`. */
  function KeepNumeric(s: string): string {
    if s == [] then [] else (if IsNumeric(s[0]) then [s[0]] else []) + KeepNumeric(s[1..])
  }

  lemma {:induction false} KeepNumericIsNumeric(s: string)
    ensures AllNumeric(KeepNumeric(s))
  {
    if s != [] { KeepNumericIsNumeric(s[1..]); }
  }

  // A reference reading of a string of digits and points, independent of how it is parsed.

  /** The digits of `s`, in order. */
  ghost function DigitsOf(s: string): (r: string)
    ensures AllDigits(r)
  {
    if s == [] then [] else (if IsDigit(s[0]) then [s[0]] else []) + DigitsOf(s[1..])
  }

  ghost function DotCount(s: string): nat {
    if s == [] then 0 else (if s[0] == '.' then 1 else 0) + DotCount(s[1..])
  }

  /** The number of digits after the first '.' (none when there is no '.'). */
  ghost function FractionDigits(s: string): nat {
    if s == [] then 0 else if s[0] == '.' then |DigitsOf(s[1..])| else FractionDigits(s[1..])
  }

  /** What `float` accepts once only digits and points are left: some digit, at most one point. */
  ghost predicate ValidDecimal(s: string) {
    |DigitsOf(s)| > 0 && DotCount(s) <= 1
  }

  function Pow10(n: nat): (p: nat)
    ensures p >= 1
  {
    if n == 0 then 1 else 10 * Pow10(n - 1)
  }

  /** The integer part of the decimal number `s` spells: its digits as one integer, divided down. */
  ghost function TruncatedValue(s: string): nat {
    DigitsValue(DigitsOf(s)) / Pow10(FractionDigits(s))
  }

  /** The index of the first `c` in `s`, or `|s|` (`str.find`, with "absent" as the length). */
  function Find(s: string, c: char): (i: nat)
    ensures i <= |s| && (i < |s| ==> s[i] == c)
    ensures forall j :: 0 <= j < i ==> s[j] != c
  {
    if s == [] || s[0] == c then 0 else 1 + Find(s[1..], c)
  }

  /**
   * `int(float(s))` for a string of digits and points: `None` where `float` raises
   * `ValueError`, otherwise the digits before the point read as an integer.
   */
  function ParseFiltered(s: string): (r: Option<nat>)
    requires AllNumeric(s)
    ensures r.Some? <==> ValidDecimal(s)
    ensures r.Some? ==> r.value == TruncatedValue(s)
  {
    var d := Find(s, '.');
    var whole := s[..d];
    var frac := if d < |s| then s[d + 1..] else [];
    ParseFilteredCorrect(s, d, whole, frac);
    if '.' in frac || (whole == [] && frac == []) then None else Some(DigitsValue(whole))
  }

  /** The whole pipeline of the hook: `int(float(filter(s.replace('%', '').strip())))`. */
  function ParsePercent(raw: string): (r: Option<nat>)
    ensures r.Some? <==> ValidDecimal(KeepNumeric(raw))
    ensures r.Some? ==> r.value == TruncatedValue(KeepNumeric(raw))
  {
    CleanupIsRedundant(raw);
    KeepNumericIsNumeric(raw);
    ParseFiltered(KeepNumeric(Strip(RemoveAll(raw, '%'))))
  }

  // Proofs.

  lemma ParseFilteredCorrect(s: string, d: nat, whole: string, frac: string)
    requires AllNumeric(s) && d == Find(s, '.') && whole == s[..d]
    requires frac == if d < |s| then s[d + 1..] else []
    ensures ('.' in frac || (whole == [] && frac == [])) <==> !ValidDecimal(s)
    ensures ValidDecimal(s) ==> AllDigits(whole) && DigitsValue(whole) == TruncatedValue(s)
  {
    assert AllDigits(whole) by {
      forall j | 0 <= j < |whole| ensures IsDigit(whole[j]) { assert whole[j] == s[j]; }
    }
    if d < |s| {
      assert s == whole + ['.'] + frac;
      assert AllNumeric(frac) by {
        forall j | 0 <= j < |frac| ensures IsNumeric(frac[j]) { assert frac[j] == s[d + 1 + j]; }
      }
      WithPoint(whole, frac);
    } else {
      assert s == whole;
      WithoutPoint(s);
    }
  }

  lemma WithoutPoint(s: string)
    requires AllDigits(s)
    ensures ValidDecimal(s) <==> s != []
    ensures DigitsValue(s) == TruncatedValue(s)
  {
    OnlyDigits(s);
    NoPointFraction(s);
  }

  lemma WithPoint(whole: string, frac: string)
    requires AllDigits(whole) && AllNumeric(frac)
    ensures ValidDecimal(whole + ['.'] + frac) <==> '.' !in frac && (whole != [] || frac != [])
    ensures ValidDecimal(whole + ['.'] + frac) ==> DigitsValue(whole) == TruncatedValue(whole + ['.'] + frac)
  {
    SplitAtPoint(whole, frac);
    DotFree(frac);
    if '.' !in frac {
      OnlyDigits(frac);
      DigitsValueAppend(whole, frac);
      DigitsValueBound(frac);
      DivideOut(DigitsValue(whole), Pow10(|frac|), DigitsValue(frac));
    }
  }

  /** A string of digits keeps all its characters, has no point and no fraction. */
  lemma {:induction false} OnlyDigits(s: string)
    requires AllDigits(s)
    ensures DigitsOf(s) == s && DotCount(s) == 0
  {
    if s != [] { OnlyDigits(s[1..]); }
  }

  lemma {:induction false} NoPointFraction(s: string)
    requires DotCount(s) == 0
    ensures FractionDigits(s) == 0
  {
    if s != [] { NoPointFraction(s[1..]); }
  }

  /** In a string of digits and points, having no point means having only digits. */
  lemma {:induction false} DotFree(s: string)
    requires AllNumeric(s)
    ensures '.' !in s <==> DotCount(s) == 0
    ensures '.' !in s ==> AllDigits(s)
  {
    if s != [] {
      DotFree(s[1..]);
      assert s == [s[0]] + s[1..];
    }
  }

  /** Reading `whole . frac`, where `whole` is all digits. */
  lemma {:induction false} SplitAtPoint(whole: string, frac: string)
    requires AllDigits(whole)
    ensures DigitsOf(whole + ['.'] + frac) == whole + DigitsOf(frac)
    ensures DotCount(whole + ['.'] + frac) == 1 + DotCount(frac)
    ensures FractionDigits(whole + ['.'] + frac) == |DigitsOf(frac)|
  {
    if whole == [] {
      assert ([] + ['.'] + frac)[1..] == frac;
    } else {
      assert (whole + ['.'] + frac)[1..] == whole[1..] + ['.'] + frac;
      SplitAtPoint(whole[1..], frac);
    }
  }

  lemma {:induction false} DigitsValueAppend(a: string, b: string)
    requires AllDigits(a) && AllDigits(b)
    ensures DigitsValue(a + b) == DigitsValue(a) * Pow10(|b|) + DigitsValue(b)
  {
    if b != [] {
      var b' := b[..|b| - 1];
      assert (a + b)[..|a + b| - 1] == a + b';
      DigitsValueAppend(a, b');
      var x, y, p, d := DigitsValue(a), DigitsValue(b'), Pow10(|b'|), DigitValue(b[|b| - 1]);
      var front := DigitsValue(a + b');
      assert (a + b)[|a + b| - 1] == b[|b| - 1];
      assert DigitsValue(a + b) == front * 10 + d;
      assert b[..|b| - 1] == b';
      assert DigitsValue(b) == y * 10 + d;
      assert Pow10(|b|) == 10 * p;
      ShiftDigit(x, p, y, d);
    } else {
      assert a + b == a;
    }
  }

  lemma ShiftDigit(x: int, p: int, y: int, d: int)
    ensures (x * p + y) * 10 + d == x * (p * 10) + (y * 10 + d)
  {
  }

  lemma {:induction false} DigitsValueBound(s: string)
    requires AllDigits(s)
    ensures DigitsValue(s) < Pow10(|s|)
  {
    if s != [] { DigitsValueBound(s[..|s| - 1]); }
  }

  lemma DivideOut(w: nat, p: nat, f: nat)
    requires 0 <= f < p
    ensures (w * p + f) / p == w
  {
    var n := w * p + f;
    var q, m := n / p, n % p;
    assert n == q * p + m && 0 <= m < p;
    if q > w {
      MulLe(w + 1, q, p);
      assert false;
    } else if q < w {
      MulLe(q + 1, w, p);
      assert false;
    }
  }

  lemma MulLe(a: int, b: int, p: nat)
    requires a <= b
    ensures a * p <= b * p
  {
  }

  /** Dropping '%' and the surrounding whitespace never changes which digits and points remain. */
  lemma CleanupIsRedundant(raw: string)
    ensures KeepNumeric(Strip(RemoveAll(raw, '%'))) == KeepNumeric(raw)
  {
    var t := RemoveAll(raw, '%');
    KeepNumericRemove(raw, '%');
    KeepNumericStripStart(t);
    KeepNumericStripEnd(StripStart(t));
  }

  lemma KeepNumericStripStart(t: string)
    ensures KeepNumeric(StripStart(t)) == KeepNumeric(t)
  {
    var u := StripStart(t);
    var lead := t[..|t| - |u|];
    assert t == lead + u;
    KeepNumericAppend(lead, u);
    KeepNumericSpace(lead);
  }

  lemma KeepNumericStripEnd(u: string)
    ensures KeepNumeric(StripEnd(u)) == KeepNumeric(u)
  {
    var v := StripEnd(u);
    var trail := u[|v|..];
    assert u == v + trail;
    KeepNumericAppend(v, trail);
    KeepNumericSpace(trail);
  }

  lemma {:induction false} KeepNumericAppend(a: string, b: string)
    ensures KeepNumeric(a + b) == KeepNumeric(a) + KeepNumeric(b)
  {
    if a == [] {
      assert a + b == b;
    } else {
      assert (a + b)[1..] == a[1..] + b;
      KeepNumericAppend(a[1..], b);
    }
  }

  lemma {:induction false} KeepNumericSpace(s: string)
    requires AllSpace(s)
    ensures KeepNumeric(s) == []
  {
    if s != [] { KeepNumericSpace(s[1..]); }
  }

  lemma {:induction false} KeepNumericRemove(s: string, c: char)
    requires !IsNumeric(c)
    ensures KeepNumeric(RemoveAll(s, c)) == KeepNumeric(s)
  {
    if s != [] {
      KeepNumericRemove(s[1..], c);
      if s[0] != c {
        KeepNumericAppend([s[0]], RemoveAll(s[1..], c));
      }
    }
  }

  // The worked examples.

  /**
   * A percentage wrapped in terminal colour codes (`ESC[0;94m 42.7%ESC[0m`, for any escape
   * character that is not a digit or '.', such as ESC itself) keeps the digits of the codes:
   * the value read is 9442, not 42.
   */
  lemma ColouredPercent(esc: char)
    requires !IsNumeric(esc)
    ensures KeepNumeric([esc] + "[0;94m 42.7%" + [esc] + "[0m") == "09442.70"
    ensures ParsePercent([esc] + "[0;94m 42.7%" + [esc] + "[0m") == Some(9442)
  {
    ColouredDigitsKept(esc);
    ColouredValue();
    var raw := [esc] + "[0;94m 42.7%" + [esc] + "[0m";
    assert ParsePercent(raw).Some? && ParsePercent(raw).value == 9442;
  }

  lemma ColouredValue()
    ensures ValidDecimal("09442.70") && TruncatedValue("09442.70") == 9442
  {
    assert AllDigits("09442") && AllNumeric("70");
    assert "09442" + ['.'] + "70" == "09442.70";
    WithPoint("09442", "70");
    assert DigitsValue("09442") == 9442 by {
      assert "09442"[..4] == "0944";
      assert "0944"[..3] == "094";
      assert "094"[..2] == "09";
      assert "09"[..1] == "0";
    }
  }

  lemma ColouredDigitsKept(esc: char)
    requires !IsNumeric(esc)
    ensures KeepNumeric([esc] + "[0;94m 42.7%" + [esc] + "[0m") == "09442.70"
  {
    var a, b, c := "[0;94m ", "42.7%", "[0m";
    assert [esc] + "[0;94m 42.7%" + [esc] + "[0m" == [esc] + a + b + [esc] + c;
    ColouredPieces(esc);
    KeepNumericAppend([esc], a);
    var x := [esc] + a;
    assert KeepNumeric(x) == "094";
    KeepNumericAppend(x, b);
    var y := x + b;
    assert KeepNumeric(y) == "09442.7";
    KeepNumericAppend(y, [esc]);
    var z := y + [esc];
    assert KeepNumeric(z) == "09442.7";
    KeepNumericAppend(z, c);
  }

  /** What survives of each piece of a coloured percentage. */
  lemma ColouredPieces(esc: char)
    requires !IsNumeric(esc)
    ensures KeepNumeric([esc]) == [] && KeepNumeric("[0;94m ") == "094"
    ensures KeepNumeric("42.7%") == "42.7" && KeepNumeric("[0m") == "0"
  {
  }

  /** A percentage above 100 is passed on as it is. */
  lemma NotClamped()
    ensures ParsePercent("150%") == Some(150)
  {
    assert KeepNumeric("150%") == "150";
    WithoutPoint("150");
    assert DigitsValue("150") == 150 by {
      assert "150"[..2] == "15";
      assert "15"[..1] == "1";
    }
  }

  /** Text without a digit yields no value at all (not 0). */
  lemma {:induction false} NoDigitNoValue(raw: string)
    requires forall i :: 0 <= i < |raw| ==> !IsDigit(raw[i])
    ensures ParsePercent(raw) == None
  {
    NoDigitsKept(raw);
  }

  lemma {:induction false} NoDigitsKept(s: string)
    requires forall i :: 0 <= i < |s| ==> !IsDigit(s[i])
    ensures DigitsOf(KeepNumeric(s)) == []
  {
    if s != [] {
      NoDigitsKept(s[1..]);
      var head := if IsNumeric(s[0]) then [s[0]] else [];
      assert KeepNumeric(s) == head + KeepNumeric(s[1..]);
      DigitsOfAppend(head, KeepNumeric(s[1..]));
    }
  }

  lemma {:induction false} DigitsOfAppend(a: string, b: string)
    ensures DigitsOf(a + b) == DigitsOf(a) + DigitsOf(b)
  {
    if a == [] {
      assert a + b == b;
    } else {
      var head := if IsDigit(a[0]) then [a[0]] else [];
      assert (a + b)[0] == a[0] && (a + b)[1..] == a[1..] + b;
      DigitsOfAppend(a[1..], b);
      assert DigitsOf(a + b) == head + (DigitsOf(a[1..]) + DigitsOf(b));
      assert DigitsOf(a) == head + DigitsOf(a[1..]);
      assert head + (DigitsOf(a[1..]) + DigitsOf(b)) == head + DigitsOf(a[1..]) + DigitsOf(b);
    }
  }
}
