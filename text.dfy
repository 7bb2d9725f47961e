/**
 * The string operations the source applies to free-text labels: Python's `sub in s`, ASCII `lower()`,
 * single-character `replace`, slicing, `split()[0]`, `f"{n:0Wd}"` and `float(s)`.
 */
module Text {
  import opened Wrappers

  predicate IsPrefix(p: string, s: string) {
    |p| <= |s| && s[..|p|] == p
  }

  /** Python's `sub in s`. */
  predicate Contains(s: string, sub: string)
    decreases |s|
  {
    IsPrefix(sub, s) || (|s| > 0 && Contains(s[1..], sub))
  }

  /** Python's `any(k in s for k in keys)`. */
  predicate ContainsAny(s: string, keys: seq<string>) {
    exists i :: 0 <= i < |keys| && Contains(s, keys[i])
  }

  /** `sub` occurs in `s` starting at position `i`. */
  predicate OccursAt(s: string, sub: string, i: nat) {
    i + |sub| <= |s| && s[i..i + |sub|] == sub
  }

  /** A position at which an occurrence found by `Contains` starts. */
  function OccurrenceIndex(s: string, sub: string): (i: nat)
    requires Contains(s, sub)
    ensures OccursAt(s, sub, i)
    decreases |s|
  {
    if IsPrefix(sub, s) then 0
    else
      var j := OccurrenceIndex(s[1..], sub);
      assert s[j + 1..j + 1 + |sub|] == s[1..][j..j + |sub|];
      j + 1
  }

  /** A substring occurring at position `i` is found by `Contains`. */
  lemma {:induction false} ContainsFromAt(s: string, sub: string, i: nat)
    requires OccursAt(s, sub, i)
    ensures Contains(s, sub)
    decreases i
  {
    if i > 0 {
      assert s[1..][i - 1..i - 1 + |sub|] == s[i..i + |sub|];
      ContainsFromAt(s[1..], sub, i - 1);
    }
  }

  /** A substring that occurs at no position is not found by `Contains`. */
  lemma {:induction false} NoOccurrence(s: string, sub: string)
    requires forall i :: 0 <= i <= |s| - |sub| ==> !OccursAt(s, sub, i)
    ensures !Contains(s, sub)
    decreases |s|
  {
    if |sub| <= |s| {
      assert !OccursAt(s, sub, 0);
      assert s[..|sub|] == s[0..0 + |sub|];
    }
    if |s| > 0 {
      forall i | 0 <= i <= |s[1..]| - |sub| ensures !OccursAt(s[1..], sub, i) {
        assert s[1..][i..i + |sub|] == s[i + 1..i + 1 + |sub|];
        assert !OccursAt(s, sub, i + 1);
      }
      NoOccurrence(s[1..], sub);
    }
  }

  /** A text lacking some character of `sub` does not contain `sub`. */
  lemma NotContainsMissingChar(s: string, sub: string, c: char)
    requires c in sub && c !in s
    ensures !Contains(s, sub)
  {
    forall i | 0 <= i <= |s| - |sub| ensures !OccursAt(s, sub, i) {
      var k :| 0 <= k < |sub| && sub[k] == c;
      assert s[i..i + |sub|][k] == s[i + k];
    }
    NoOccurrence(s, sub);
  }

  /** The first character of a non-empty needle found in `s` is a character of `s`. */
  lemma ContainsFirstChar(s: string, sub: string)
    requires Contains(s, sub) && |sub| > 0
    ensures sub[0] in s
  {
    var i := OccurrenceIndex(s, sub);
    assert s[i] == s[i..i + |sub|][0];
  }

  function LowerChar(c: char): char {
    if 'A' <= c <= 'Z' then (c as int + 32) as char else c
  }

  /** Python's `s.lower()`, restricted to the ASCII letters. */
  function Lower(s: string): (r: string)
    ensures |r| == |s|
    ensures forall i :: 0 <= i < |s| ==> r[i] == LowerChar(s[i])
  {
    seq(|s|, i requires 0 <= i < |s| => LowerChar(s[i]))
  }

  /** A lower-cased string never contains an upper-case letter, so in particular never "pH". */
  lemma LowerNeverContainsUpperH(s: string)
    ensures !Contains(Lower(s), "pH")
  {
    var t := Lower(s);
    forall i | 0 <= i <= |t| - 2 ensures !OccursAt(t, "pH", i) {
      assert t[i + 1] != 'H';
      assert t[i..i + 2][1] == t[i + 1];
    }
    NoOccurrence(t, "pH");
  }

  /** Python's `s.replace(c, d)` for single characters. */
  function ReplaceChar(s: string, c: char, d: char): (r: string)
    ensures |r| == |s|
    ensures forall i :: 0 <= i < |s| ==> r[i] == if s[i] == c then d else s[i]
  {
    seq(|s|, i requires 0 <= i < |s| => if s[i] == c then d else s[i])
  }

  /** Python's `s.replace(c, "")`. */
  function RemoveChar(s: string, c: char): (r: string)
    ensures c !in r
    ensures |r| <= |s|
    ensures forall x :: x in r ==> x in s
    decreases |s|
  {
    if |s| == 0 then ""
    else (if s[0] == c then "" else [s[0]]) + RemoveChar(s[1..], c)
  }

  lemma {:induction false} RemoveAbsentChar(s: string, c: char)
    requires c !in s
    ensures RemoveChar(s, c) == s
    decreases |s|
  {
    if |s| > 0 {
      assert c !in s[1..];
      RemoveAbsentChar(s[1..], c);
    }
  }

  /** Removing a character distributes over concatenation. */
  lemma {:induction false} RemoveCharConcat(a: string, b: string, c: char)
    ensures RemoveChar(a + b, c) == RemoveChar(a, c) + RemoveChar(b, c)
    decreases |a|
  {
    if |a| > 0 {
      assert (a + b)[1..] == a[1..] + b;
      RemoveCharConcat(a[1..], b, c);
    } else {
      assert a + b == b;
    }
  }

  /**
   * Python's `s.replace(sub, "")` for a non-empty `sub`: occurrences are found left to right and
   * do not overlap.
   */
  function RemoveAll(s: string, sub: string): (r: string)
    requires |sub| > 0
    ensures |r| <= |s|
    decreases |s|
  {
    if |s| == 0 then ""
    else if IsPrefix(sub, s) then RemoveAll(s[|sub|..], sub)
    else [s[0]] + RemoveAll(s[1..], sub)
  }

  /** Nothing to remove leaves the string as it is. */
  lemma {:induction false} RemoveAllAbsent(s: string, sub: string)
    requires |sub| > 0 && !Contains(s, sub)
    ensures RemoveAll(s, sub) == s
    decreases |s|
  {
    if |s| > 0 {
      RemoveAllAbsent(s[1..], sub);
    }
  }

  predicate IsAsciiLetter(c: char) { 'a' <= c <= 'z' || 'A' <= c <= 'Z' }

  function UpperChar(c: char): char {
    if 'a' <= c <= 'z' then (c as int - 32) as char else c
  }

  /**
   * Python's `s.title()` restricted to ASCII: a letter is upper-cased when the character before it
   * is not a letter and lower-cased otherwise; everything else is kept.
   */
  function Title(s: string): (r: string)
    ensures |r| == |s|
  {
    TitleAfter(s, false)
  }

  function TitleAfter(s: string, afterLetter: bool): (r: string)
    ensures |r| == |s|
    ensures forall i :: 0 <= i < |s| ==> !IsAsciiLetter(s[i]) ==> r[i] == s[i]
    ensures forall i :: 0 <= i < |s| ==> LowerChar(r[i]) == LowerChar(s[i])
    decreases |s|
  {
    if |s| == 0 then ""
    else
      var c := s[0];
      var d := if !IsAsciiLetter(c) then c else if afterLetter then LowerChar(c) else UpperChar(c);
      var rest := TitleAfter(s[1..], IsAsciiLetter(c));
      assert forall i :: 1 <= i < |s| ==> s[i] == s[1..][i - 1];
      [d] + rest
  }

  /** Title-casing changes letter case only: it keeps the lower-cased text. */
  lemma TitleKeepsLower(s: string)
    ensures Lower(Title(s)) == Lower(s)
  {
  }

  /** Python's `sep.join(items)`. */
  function Join(sep: string, items: seq<string>): string
    decreases |items|
  {
    if |items| == 0 then ""
    else if |items| == 1 then items[0]
    else Join(sep, items[..|items| - 1]) + sep + items[|items| - 1]
  }

  /** Text found in `a` is found in `a` followed by anything. */
  lemma ContainsExtend(a: string, b: string, sub: string)
    requires Contains(a, sub)
    ensures Contains(a + b, sub)
  {
    var i := OccurrenceIndex(a, sub);
    assert (a + b)[i..i + |sub|] == a[i..i + |sub|];
    ContainsFromAt(a + b, sub, i);
  }

  /** Every joined item occurs in the joined text. */
  lemma {:induction false} JoinHasItems(sep: string, items: seq<string>, k: nat)
    requires k < |items|
    ensures Contains(Join(sep, items), items[k])
    decreases |items|
  {
    var n := |items|;
    if n == 1 {
      assert OccursAt(items[0], items[0], 0);
      ContainsFromAt(items[0], items[0], 0);
    } else {
      var front := Join(sep, items[..n - 1]);
      assert Join(sep, items) == front + sep + items[n - 1];
      if k == n - 1 {
        var at := |front| + |sep|;
        assert (front + sep + items[n - 1])[at..at + |items[k]|] == items[k];
        ContainsFromAt(Join(sep, items), items[k], at);
      } else {
        JoinHasItems(sep, items[..n - 1], k);
        assert items[..n - 1][k] == items[k];
        ContainsExtend(front, sep + items[n - 1], items[k]);
        assert front + (sep + items[n - 1]) == front + sep + items[n - 1];
      }
    }
  }

  /** Python's `s[:n]`. */
  function Take(s: string, n: nat): (r: string)
    ensures |r| == if |s| <= n then |s| else n
    ensures IsPrefix(r, s)
  {
    if |s| <= n then s else s[..n]
  }

  /** Python's `str.isspace()` for one character. */
  predicate IsSpace(c: char) {
    '\t' <= c <= '\r' || '\U{1c}' <= c <= ' ' || c == '\U{85}' || c == '\U{a0}' || c == '\U{1680}'
    || '\U{2000}' <= c <= '\U{200a}' || c == '\U{2028}' || c == '\U{2029}' || c == '\U{202f}'
    || c == '\U{205f}' || c == '\U{3000}'
  }

  function DropSpaces(s: string): (r: string)
    ensures |r| <= |s|
    ensures |r| > 0 ==> !IsSpace(r[0])
    decreases |s|
  {
    if |s| > 0 && IsSpace(s[0]) then DropSpaces(s[1..]) else s
  }

  function TakeWord(s: string): (r: string)
    ensures IsPrefix(r, s)
    ensures forall i :: 0 <= i < |r| ==> !IsSpace(r[i])
    decreases |s|
  {
    if |s| == 0 || IsSpace(s[0]) then "" else [s[0]] + TakeWord(s[1..])
  }

  /**
   * Python's `s.split()[0]`: the first maximal run of non-space characters, or None where Python
   * raises IndexError because the string holds nothing but white space.
   */
  function FirstWord(s: string): (r: Option<string>)
    ensures r.None? <==> forall i :: 0 <= i < |s| ==> IsSpace(s[i])
    ensures r.Some? ==> |r.value| > 0 && forall i :: 0 <= i < |r.value| ==> !IsSpace(r.value[i])
  {
    AllSpaceDropsToEmpty(s);
    var t := DropSpaces(s);
    if |t| == 0 then None else Some(TakeWord(t))
  }

  lemma {:induction false} AllSpaceDropsToEmpty(s: string)
    ensures |DropSpaces(s)| == 0 <==> forall i :: 0 <= i < |s| ==> IsSpace(s[i])
    decreases |s|
  {
    if |s| > 0 && IsSpace(s[0]) {
      AllSpaceDropsToEmpty(s[1..]);
      assert forall i :: 1 <= i < |s| ==> s[i] == s[1..][i - 1];
    }
  }

  // ---------------------------------------------------------------- decimal text

  predicate IsDigit(c: char) { '0' <= c <= '9' }

  predicate AllDigits(s: string) { forall i :: 0 <= i < |s| ==> IsDigit(s[i]) }

  function DigitChar(d: nat): (c: char)
    requires d < 10
    ensures IsDigit(c)
  {
    ('0' as int + d) as char
  }

  function DigitValue(c: char): (d: nat)
    requires IsDigit(c)
    ensures d < 10
  {
    c as int - '0' as int
  }

  /** The value of a string of decimal digits, read most significant first. */
  function DigitsValue(s: string): nat
    requires AllDigits(s)
    decreases |s|
  {
    if |s| == 0 then 0 else DigitsValue(s[..|s| - 1]) * 10 + DigitValue(s[|s| - 1])
  }

  /** Python's `str(n)` for a natural number. */
  function NatToString(n: nat): (r: string)
    ensures |r| > 0 && AllDigits(r)
    decreases n
  {
    if n < 10 then [DigitChar(n)] else NatToString(n / 10) + [DigitChar(n % 10)]
  }

  function Repeat(c: char, k: nat): (r: string)
    ensures |r| == k && forall i :: 0 <= i < k ==> r[i] == c
  {
    seq(k, i => c)
  }

  /** Python's `f"{n:0{width}d}"` for a natural number. */
  function ZeroPad(n: nat, width: nat): (r: string)
    ensures AllDigits(r)
    ensures |r| >= width
  {
    var s := NatToString(n);
    if |s| >= width then s else Repeat('0', width - |s|) + s
  }

  /** Reading back the decimal text of `n` gives `n`. */
  lemma {:induction false} NatToStringValue(n: nat)
    ensures DigitsValue(NatToString(n)) == n
    decreases n
  {
    if n >= 10 {
      var s := NatToString(n);
      assert s[..|s| - 1] == NatToString(n / 10);
      NatToStringValue(n / 10);
    }
  }

  /** Leading zeros do not change the value of a digit string. */
  lemma {:induction false} LeadingZerosValue(k: nat, s: string)
    requires AllDigits(s)
    ensures AllDigits(Repeat('0', k) + s)
    ensures DigitsValue(Repeat('0', k) + s) == DigitsValue(s)
    decreases |s|
  {
    var t := Repeat('0', k) + s;
    if |s| == 0 {
      assert t == Repeat('0', k);
      ZerosValue(k);
    } else {
      assert t[..|t| - 1] == Repeat('0', k) + s[..|s| - 1];
      LeadingZerosValue(k, s[..|s| - 1]);
    }
  }

  lemma {:induction false} ZerosValue(k: nat)
    ensures DigitsValue(Repeat('0', k)) == 0
    decreases k
  {
    if k > 0 {
      assert Repeat('0', k)[..k - 1] == Repeat('0', k - 1);
      ZerosValue(k - 1);
    }
  }

  /** Zero-padding is invertible: the padded text still reads back as `n`. */
  lemma ZeroPadValue(n: nat, width: nat)
    ensures DigitsValue(ZeroPad(n, width)) == n
  {
    NatToStringValue(n);
    var s := NatToString(n);
    if |s| < width {
      LeadingZerosValue(width - |s|, s);
      assert ZeroPad(n, width) == Repeat('0', width - |s|) + s;
    } else {
      assert ZeroPad(n, width) == s;
    }
  }

  /** Distinct numbers give distinct padded texts. */
  lemma ZeroPadInjective(a: nat, b: nat, width: nat)
    requires ZeroPad(a, width) == ZeroPad(b, width)
    ensures a == b
  {
    ZeroPadValue(a, width);
    ZeroPadValue(b, width);
  }

  function Pow10(k: nat): (p: nat)
    ensures p >= 1
  {
    if k == 0 then 1 else 10 * Pow10(k - 1)
  }

  /** A number below 10^k has at most k digits. */
  lemma {:induction false} NatToStringLength(n: nat, k: nat)
    requires 1 <= k && n < Pow10(k)
    ensures |NatToString(n)| <= k
    decreases k
  {
    if n >= 10 {
      assert k > 1;
      NatToStringLength(n / 10, k - 1);
    }
  }

  /** A number below 10^width is padded to exactly `width` characters. */
  lemma ZeroPadExactWidth(n: nat, width: nat)
    requires 1 <= width && n < Pow10(width)
    ensures |ZeroPad(n, width)| == width
  {
    NatToStringLength(n, width);
  }

  // ---------------------------------------------------------------- float()

  function Strip(s: string): (r: string)
    decreases |s|
  {
    var t := DropSpaces(s);
    if |t| > 0 && IsSpace(t[|t| - 1]) then Strip(t[..|t| - 1]) else t
  }

  function IndexOfChar(s: string, c: char): (i: nat)
    ensures i <= |s|
    ensures i < |s| ==> s[i] == c
    ensures forall j :: 0 <= j < i ==> s[j] != c
    decreases |s|
  {
    if |s| == 0 then 0 else if s[0] == c then 0 else 1 + IndexOfChar(s[1..], c)
  }

  /** The value of the digits after a decimal point. */
  function FractionValue(frac: string): real
    requires AllDigits(frac)
  {
    if |frac| == 0 then 0.0 else DigitsValue(frac) as real / Pow10(|frac|) as real
  }

  /** Digits with an optional decimal point: "12", "12.5", ".5", "5."; at least one digit. */
  function ParseUnsigned(t: string): Option<real> {
    var dot := IndexOfChar(t, '.');
    var whole := t[..dot];
    var frac := if dot < |t| then t[dot + 1..] else "";
    if AllDigits(whole) && AllDigits(frac) && |whole| + |frac| > 0 then
      Some(DigitsValue(whole) as real + FractionValue(frac))
    else None
  }

  /**
   * Python's `float(s)` for decimal text: surrounding white space, an optional sign, then
   * digits with an optional decimal point. None where Python raises ValueError.
   */
  function ParseFloat(s: string): Option<real> {
    var t := Strip(s);
    if |t| > 0 && t[0] == '-' then
      match ParseUnsigned(t[1..]) case Some(v) => Some(-v) case None => None
    else if |t| > 0 && t[0] == '+' then ParseUnsigned(t[1..])
    else ParseUnsigned(t)
  }

  /** `float(str(n))` gives back `n` for every natural number. */
  lemma ParseFloatOfNat(n: nat)
    ensures ParseFloat(NatToString(n)) == Some(n as real)
  {
    var s := NatToString(n);
    StripDigits(s);
    ParseUnsignedDigits(s);
    NatToStringValue(n);
  }

  /** White-space stripping leaves a non-empty digit string alone. */
  lemma StripDigits(s: string)
    requires |s| > 0 && AllDigits(s)
    ensures Strip(s) == s && s[0] != '-' && s[0] != '+'
  {
    assert IsDigit(s[0]) && IsDigit(s[|s| - 1]);
    assert DropSpaces(s) == s;
  }

  /** A non-empty digit string without a point reads as its value. */
  lemma ParseUnsignedDigits(s: string)
    requires |s| > 0 && AllDigits(s)
    ensures ParseUnsigned(s) == Some(DigitsValue(s) as real)
  {
    NoPointInDigits(s);
    assert s[..|s|] == s;
  }

  lemma NoPointInDigits(s: string)
    requires AllDigits(s)
    ensures IndexOfChar(s, '.') == |s|
  {
  }
}
