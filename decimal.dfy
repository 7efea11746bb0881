/** Decimal numerals as JavaScript prints and reads them: `Number.prototype.toString`
    on integers, `String.prototype.padStart(2, "0")`, and the digit-string part of
    `Number(...)` and `parseInt(...)`. */
module Decimal {
  import opened Wrappers

  predicate IsDigit(c: char) { '0' <= c <= '9' }

  predicate AllDigits(s: string) { forall i :: 0 <= i < |s| ==> IsDigit(s[i]) }

  function DigitChar(d: nat): (c: char)
    requires d < 10
    ensures IsDigit(c) && c as int - '0' as int == d
  {
    (d + '0' as int) as char
  }

  function DigitValue(c: char): (d: nat)
    requires IsDigit(c)
    ensures d < 10 && DigitChar(d) == c
  {
    c as int - '0' as int
  }

  /** The decimal numeral of `n`, without leading zeros. */
  function ShowNat(n: nat): (s: string)
    ensures 1 <= |s| && AllDigits(s)
    ensures s[0] == '0' ==> n == 0 && |s| == 1
    ensures n < 10 <==> |s| == 1
    decreases n
  {
    if n < 10 then [DigitChar(n)] else ShowNat(n / 10) + [DigitChar(n % 10)]
  }

  /** `toString()` of an integer: a minus sign before the numeral of a negative value. */
  function ShowInt(i: int): (s: string)
    ensures 1 <= |s| && (s[0] == '-' <==> i < 0)
  {
    if i < 0 then "-" + ShowNat(-i) else ShowNat(i)
  }

  /** The value of a string of decimal digits; the empty string reads as 0. */
  function ParseDigits(s: string): nat
    requires AllDigits(s)
  {
    if s == [] then 0 else ParseDigits(s[..|s| - 1]) * 10 + DigitValue(s[|s| - 1])
  }

  /** `padStart(2, "0")`: strings shorter than two characters get leading zeros. */
  function PadStart2(s: string): (r: string)
    ensures |r| == if |s| < 2 then 2 else |s|
    ensures r[|r| - |s|..] == s
    ensures forall i :: 0 <= i < |r| - |s| ==> r[i] == '0'
  {
    if |s| == 0 then "00" else if |s| == 1 then "0" + s else s
  }

  lemma {:induction false} ParseShowNat(n: nat)
    ensures ParseDigits(ShowNat(n)) == n
    decreases n
  {
    if n >= 10 {
      var s := ShowNat(n);
      ParseShowNat(n / 10);
      assert s[..|s| - 1] == ShowNat(n / 10);
    }
  }

  lemma {:induction false} ParseLeadingZero(s: string)
    requires AllDigits(s)
    ensures AllDigits("0" + s) && ParseDigits("0" + s) == ParseDigits(s)
    decreases |s|
  {
    var z := "0" + s;
    assert AllDigits(z) by {
      forall i | 0 <= i < |z| ensures IsDigit(z[i]) {
        if i > 0 { assert z[i] == s[i - 1]; }
      }
    }
    if s != [] {
      ParseLeadingZero(s[..|s| - 1]);
      assert z[..|z| - 1] == "0" + s[..|s| - 1];
    }
  }

  /** A one- or two-digit number printed with `padStart(2, "0")` is two digits
      that read back as the number. */
  lemma TwoDigitRoundTrip(k: nat)
    requires k < 100
    ensures var p := PadStart2(ShowNat(k)); |p| == 2 && AllDigits(p) && ParseDigits(p) == k
  {
    ParseShowNat(k);
    if k < 10 {
      ParseLeadingZero(ShowNat(k));
    } else {
      assert |ShowNat(k / 10)| == 1;
    }
  }

  /** The length of the run of digits `s` starts with. */
  function DigitRun(s: string): (k: nat)
    ensures k <= |s| && AllDigits(s[..k])
    ensures k < |s| ==> !IsDigit(s[k])
    decreases |s|
  {
    if s == [] || !IsDigit(s[0]) then 0
    else
      var k := DigitRun(s[1..]);
      assert s[..k + 1] == [s[0]] + s[1..][..k];
      1 + k
  }

  /** The white space `parseInt` skips: ECMAScript's WhiteSpace (tab,
      vertical tab, form feed, the byte-order mark and every space separator
      of category Zs) and LineTerminator (LF, CR, LS, PS). */
  const SpaceChars: set<char> := {
    '\t', '\n', '\U{B}', '\U{C}', '\r', ' ', '\U{A0}', '\U{1680}', '\U{2028}', '\U{2029}',
    '\U{202F}', '\U{205F}', '\U{3000}', '\U{FEFF}'}

  predicate IsSpace(c: char) {
    c in SpaceChars || '\U{2000}' <= c <= '\U{200A}'
  }

  /** `s` without its leading white space. */
  function TrimStart(s: string): (t: string)
    ensures |t| <= |s| && t == s[|s| - |t|..]
    ensures forall i :: 0 <= i < |s| - |t| ==> IsSpace(s[i])
    ensures t != [] ==> !IsSpace(t[0])
    decreases |s|
  {
    if s != [] && IsSpace(s[0]) then
      var t := TrimStart(s[1..]);
      assert s[1..][|s| - 1 - |t|..] == s[|s| - |t|..];
      forall i | 0 <= i < |s| - |t| ensures IsSpace(s[i]) {
        if i > 0 { assert s[i] == s[1..][i - 1]; }
      }
      t
    else s
  }

  /** `t` without one leading sign character. */
  function Unsigned(t: string): (u: string)
    ensures |u| <= |t| && u == t[|t| - |u|..]
    ensures |t| - |u| <= 1
    ensures |u| < |t| <==> t != [] && (t[0] == '-' || t[0] == '+')
  {
    if t != [] && (t[0] == '-' || t[0] == '+') then t[1..] else t
  }

  /** What `parseInt` reads once white space is skipped: an optional sign,
      then the longest run of digits; no digits at all gives `NaN`. */
  function ParseNumeral(t: string): (r: Option<int>)
    ensures r.Some? <==> Unsigned(t) != [] && IsDigit(Unsigned(t)[0])
    ensures r.Some? && r.value < 0 ==> t[0] == '-'
  {
    var u := Unsigned(t);
    var k := DigitRun(u);
    if k == 0 then None
    else
      var n: int := ParseDigits(u[..k]);
      Some(if t[0] == '-' then -n else n)
  }

  /** `parseInt(s)` in base ten: leading white space, an optional sign, then the
      longest run of digits; no digits at all gives `NaN`. */
  function ParseInt(s: string): (r: Option<int>)
    ensures r.Some? <==> Unsigned(TrimStart(s)) != [] && IsDigit(Unsigned(TrimStart(s))[0])
    ensures r.Some? && r.value < 0 ==> TrimStart(s)[0] == '-'
  {
    ParseNumeral(TrimStart(s))
  }

  /** White space before a string that does not start with white space is
      exactly what `TrimStart` drops. */
  lemma {:induction false} TrimSpaces(before: string, x: string)
    requires forall i :: 0 <= i < |before| ==> IsSpace(before[i])
    requires x != [] && !IsSpace(x[0])
    ensures TrimStart(before + x) == x
    decreases |before|
  {
    if before != [] {
      assert (before + x)[1..] == before[1..] + x;
      TrimSpaces(before[1..], x);
    } else {
      assert before + x == x;
    }
  }

  /** The digit run stops where the digits do. */
  lemma {:induction false} DigitRunPrefix(digits: string, after: string)
    requires AllDigits(digits)
    requires after == [] || !IsDigit(after[0])
    ensures DigitRun(digits + after) == |digits|
    decreases |digits|
  {
    if digits != [] {
      assert (digits + after)[1..] == digits[1..] + after;
      DigitRunPrefix(digits[1..], after);
    } else {
      assert digits + after == after;
    }
  }

  /** A non-empty run of digits, with any non-digit text after it, reads as
      the value of the digits. */
  lemma {:induction false} ParseNumeralPrefix(digits: string, after: string)
    requires digits != [] && AllDigits(digits)
    requires after == [] || !IsDigit(after[0])
    ensures ParseNumeral(digits + after) == Some(ParseDigits(digits) as int)
  {
    var x := digits + after;
    assert x[0] == digits[0] && IsDigit(x[0]);
    assert Unsigned(x) == x;
    DigitRunPrefix(digits, after);
    assert x[..|digits|] == digits;
  }

  /** The same after a minus sign: the value is negated. */
  lemma {:induction false} ParseNumeralNegatedPrefix(digits: string, after: string)
    requires digits != [] && AllDigits(digits)
    requires after == [] || !IsDigit(after[0])
    ensures ParseNumeral("-" + digits + after) == Some(0 - ParseDigits(digits))
  {
    var x := digits + after;
    var y := "-" + digits + after;
    assert y == "-" + x && y[1..] == x;
    assert Unsigned(y) == x;
    DigitRunPrefix(digits, after);
    assert x[..|digits|] == digits;
  }

  /** A printed integer, with any non-digit text after it, reads back. */
  lemma {:induction false} ParseNumeralShowInt(i: int, after: string)
    requires after == [] || !IsDigit(after[0])
    ensures ParseNumeral(ShowInt(i) + after) == Some(i)
  {
    if i < 0 {
      var digits := ShowNat(-i);
      calc {
        ParseNumeral(ShowInt(i) + after);
        { assert ShowInt(i) + after == "-" + digits + after; }
        ParseNumeral("-" + digits + after);
        { ParseNumeralNegatedPrefix(digits, after); }
        Some(0 - ParseDigits(digits));
        { ParseShowNat(-i); }
        Some(i);
      }
    } else {
      var digits := ShowNat(i);
      calc {
        ParseNumeral(ShowInt(i) + after);
        { assert ShowInt(i) == digits; }
        ParseNumeral(digits + after);
        { ParseNumeralPrefix(digits, after); }
        Some(ParseDigits(digits) as int);
        { ParseShowNat(i); }
        Some(i);
      }
    }
  }

  /** `parseInt` reads back what `toString` prints, after any leading white
      space and before any text that does not continue the digits. */
  lemma {:induction false} ParseIntPadded(i: int, before: string, after: string)
    requires forall k :: 0 <= k < |before| ==> IsSpace(before[k])
    requires after == [] || !IsDigit(after[0])
    ensures ParseInt(before + ShowInt(i) + after) == Some(i)
  {
    var x := ShowInt(i) + after;
    assert before + ShowInt(i) + after == before + x;
    assert x[0] == ShowInt(i)[0];
    TrimSpaces(before, x);
    ParseNumeralShowInt(i, after);
  }

  /** `parseInt` reads back every integer `toString` prints. */
  lemma {:induction false} ParseIntShowInt(i: int)
    ensures ParseInt(ShowInt(i)) == Some(i)
  {
    var shown := ShowInt(i);
    assert shown == [] + shown + [];
    ParseIntPadded(i, [], []);
  }
}
