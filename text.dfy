/**
 * The string operations the app relies on, with the JVM/Kotlin meaning:
 * decimal rendering of integers (string templates, `String.format("%0Nd")`),
 * and `replace`, `trim`, `take` and `isBlank` from the Kotlin standard library.
 */
module Text {

  predicate IsDigit(c: char) { '0' <= c <= '9' }

  predicate AllDigits(s: string) { forall i :: 0 <= i < |s| ==> IsDigit(s[i]) }

  function DigitChar(d: nat): (c: char)
    requires d < 10
    ensures IsDigit(c) && c as int - '0' as int == d
  {
    ('0' as int + d) as char
  }

  function DigitValue(c: char): nat
    requires IsDigit(c)
  {
    c as int - '0' as int
  }

  function Pow10(k: nat): (p: nat)
    ensures p >= 1
  {
    if k == 0 then 1 else 10 * Pow10(k - 1)
  }

  /** Decimal digits of `n` without leading zeros, as `Long.toString` prints them. */
  function NatToString(n: nat): (s: string)
    ensures 1 <= |s| && AllDigits(s)
    decreases n
  {
    if n < 10 then [DigitChar(n)] else NatToString(n / 10) + [DigitChar(n % 10)]
  }

  /** `Long.toString`/`Int.toString`: a minus sign, then the digits of the magnitude. */
  function IntToString(n: int): string {
    if n < 0 then "-" + NatToString(-n) else NatToString(n)
  }

  /** The value of a string of decimal digits (leading zeros allowed). */
  function ParseDigits(s: string): nat
    requires AllDigits(s)
  {
    if s == [] then 0 else 10 * ParseDigits(s[..|s| - 1]) + DigitValue(s[|s| - 1])
  }

  lemma {:induction false} ParseNatToString(n: nat)
    ensures ParseDigits(NatToString(n)) == n
    decreases n
  {
    if n >= 10 {
      var s := NatToString(n);
      assert s[..|s| - 1] == NatToString(n / 10);
      ParseNatToString(n / 10);
    }
  }

  lemma NatToStringInjective(a: nat, b: nat)
    requires NatToString(a) == NatToString(b)
    ensures a == b
  {
    ParseNatToString(a);
    ParseNatToString(b);
  }

  lemma {:induction false} NatToStringLength(n: nat, k: nat)
    requires 1 <= k && n < Pow10(k)
    ensures |NatToString(n)| <= k
    decreases k
  {
    if n >= 10 {
      assert k > 1;
      NatToStringLength(n / 10, k - 1);
    }
  }

  function Zeros(k: nat): (z: string)
    ensures |z| == k && forall i :: 0 <= i < k ==> z[i] == '0'
  {
    if k == 0 then [] else Zeros(k - 1) + ['0']
  }

  /** Left-pads a digit string with zeros up to `width` characters. */
  function PadZeros(s: string, width: nat): (r: string)
    ensures |r| == if |s| >= width then |s| else width
  {
    if |s| >= width then s else Zeros(width - |s|) + s
  }

  /**
   * `String.format("%0<width>d", n)`: the sign counts towards the width and the
   * zeros go between the sign and the digits.
   */
  function FormatPadded(n: int, width: nat): string {
    if n < 0 then "-" + PadZeros(NatToString(-n), if width > 0 then width - 1 else 0)
    else PadZeros(NatToString(n), width)
  }

  lemma {:induction false} ParseLeadingZeros(k: nat, s: string)
    requires AllDigits(s)
    ensures AllDigits(Zeros(k) + s) && ParseDigits(Zeros(k) + s) == ParseDigits(s)
    decreases |s|
  {
    var z := Zeros(k) + s;
    if s == [] {
      ParseZeros(k);
      assert z == Zeros(k);
    } else {
      assert z[..|z| - 1] == Zeros(k) + s[..|s| - 1];
      ParseLeadingZeros(k, s[..|s| - 1]);
    }
  }

  lemma {:induction false} ParseZeros(k: nat)
    ensures AllDigits(Zeros(k)) && ParseDigits(Zeros(k)) == 0
    decreases k
  {
    if k > 0 {
      assert Zeros(k)[..k - 1] == Zeros(k - 1);
      ParseZeros(k - 1);
    }
  }

  /** A zero-padded non-negative number reads back as itself and has exactly `width` characters when it fits. */
  lemma FormatPaddedRoundTrip(n: nat, width: nat)
    requires 1 <= width && n < Pow10(width)
    ensures AllDigits(FormatPadded(n, width))
    ensures |FormatPadded(n, width)| == width
    ensures ParseDigits(FormatPadded(n, width)) == n
  {
    NatToStringLength(n, width);
    ParseNatToString(n);
    var s := NatToString(n);
    assert FormatPadded(n, width) == PadZeros(s, width);
    if |s| < width {
      ParseLeadingZeros(width - |s|, s);
      assert PadZeros(s, width) == Zeros(width - |s|) + s;
    } else {
      assert PadZeros(s, width) == s;
    }
  }

  lemma ShiftDigit(a: int, p: int, q: int, d: int)
    ensures 10 * (a * p + q) + d == a * (10 * p) + (10 * q + d)
  {
  }

  /** Reading a digit string from the front: the first digit weighs 10 to the number of digits after it. */
  lemma {:induction false} ParseDigitsCons(c: char, s: string)
    requires IsDigit(c) && AllDigits(s)
    ensures AllDigits([c] + s)
    ensures ParseDigits([c] + s) == DigitValue(c) * Pow10(|s|) + ParseDigits(s)
    decreases |s|
  {
    var t := [c] + s;
    if s != [] {
      var init := s[..|s| - 1];
      var d := DigitValue(s[|s| - 1]);
      assert t[..|t| - 1] == [c] + init && t[|t| - 1] == s[|s| - 1];
      ParseDigitsCons(c, init);
      assert ParseDigits(t) == 10 * (DigitValue(c) * Pow10(|init|) + ParseDigits(init)) + d;
      assert Pow10(|s|) == 10 * Pow10(|init|);
      ShiftDigit(DigitValue(c), Pow10(|init|), ParseDigits(init), d);
      assert ParseDigits(s) == 10 * ParseDigits(init) + d;
    } else {
      assert t[..|t| - 1] == [];
    }
  }

  /** A string of k digits reads as less than 10^k. */
  lemma {:induction false} ParseDigitsBound(s: string)
    requires AllDigits(s)
    ensures ParseDigits(s) < Pow10(|s|)
    decreases |s|
  {
    if s != [] {
      ParseDigitsBound(s[..|s| - 1]);
    }
  }

  /** Kotlin's `/` on integers: the quotient truncated toward zero. */
  function TDiv(a: int, b: int): (q: int)
    requires b > 0
    ensures a >= 0 ==> q == a / b
    ensures a < 0 ==> q == -((-a) / b)
  {
    if a >= 0 then a / b else -((-a) / b)
  }

  /** Kotlin's `%` on integers: the remainder takes the sign of the dividend. */
  function TRem(a: int, b: int): (r: int)
    requires b > 0
    ensures a == b * TDiv(a, b) + r
    ensures a >= 0 ==> 0 <= r < b
    ensures a < 0 ==> -b < r <= 0
  {
    a - b * TDiv(a, b)
  }

  /** `Char.isWhitespace()` on the JVM: a Java whitespace character or a Unicode space separator. */
  predicate IsWhitespace(c: char) {
    || ('\t' <= c <= '\r')
    || ('\U{1C}' <= c <= ' ')
    || c == '\U{A0}' || c == '\U{1680}'
    || ('\U{2000}' <= c <= '\U{200A}')
    || c == '\U{2028}' || c == '\U{2029}' || c == '\U{202F}' || c == '\U{205F}' || c == '\U{3000}'
  }

  /** `CharSequence.isBlank()`: empty or whitespace only. */
  predicate IsBlank(s: string) {
    forall i :: 0 <= i < |s| ==> IsWhitespace(s[i])
  }

  /**
   * `String.replace(old, new)`: every non-overlapping occurrence of `pat`, scanning
   * from the left, is replaced by `rep`.
   */
  function ReplaceAll(s: string, pat: string, rep: string): (r: string)
    requires |pat| > 0
    ensures forall c :: c in r ==> c in s || c in rep
    decreases |s|
  {
    if |s| < |pat| then s
    else if s[..|pat|] == pat then rep + ReplaceAll(s[|pat|..], pat, rep)
    else [s[0]] + ReplaceAll(s[1..], pat, rep)
  }

  /** Deleting every occurrence of a single character leaves none of it. */
  lemma {:induction false} ReplaceCharRemovesIt(s: string, c: char)
    ensures c !in ReplaceAll(s, [c], [])
    decreases |s|
  {
    if |s| >= 1 {
      ReplaceCharRemovesIt(s[1..], c);
    }
  }

  /**
   * Text that does not contain the first character of the pattern, followed by
   * a tail shorter than the pattern, is left as it is.
   */
  lemma {:induction false} ReplaceAbsent(x: string, tail: string, pat: string, rep: string)
    requires |pat| > 0 && pat[0] !in x && |tail| < |pat|
    ensures ReplaceAll(x + tail, pat, rep) == x + tail
    decreases |x|
  {
    var s := x + tail;
    if |s| >= |pat| {
      assert x != [];
      assert s[..|pat|][0] == x[0];
      assert s[1..] == x[1..] + tail;
      ReplaceAbsent(x[1..], tail, pat, rep);
    }
  }

  /** Text free of the pattern's first character, followed by the pattern, gets the pattern replaced. */
  lemma {:induction false} ReplaceTrailing(x: string, pat: string, rep: string)
    requires |pat| > 0 && pat[0] !in x
    ensures ReplaceAll(x + pat, pat, rep) == x + rep
    decreases |x|
  {
    var s := x + pat;
    if x == [] {
      assert s == pat && s[|pat|..] == [];
    } else {
      assert x[0] in x;
      assert s[..|pat|][0] == x[0];
      assert s[..|pat|] != pat;
      assert s[1..] == x[1..] + pat;
      ReplaceTrailing(x[1..], pat, rep);
      assert ReplaceAll(s, pat, rep) == [x[0]] + (x[1..] + rep);
      assert [x[0]] + (x[1..] + rep) == x + rep;
    }
  }

  /** Replacing a single character distributes over concatenation. */
  lemma {:induction false} ReplaceCharConcat(a: string, b: string, c: char, rep: string)
    ensures ReplaceAll(a + b, [c], rep) == ReplaceAll(a, [c], rep) + ReplaceAll(b, [c], rep)
    decreases |a|
  {
    if a != [] {
      assert (a + b)[1..] == a[1..] + b;
      assert (a + b)[..1] == a[..1] == [a[0]];
      ReplaceCharConcat(a[1..], b, c, rep);
    } else {
      assert a + b == b;
    }
  }

  lemma BlankCons(c: char, t: string)
    requires IsWhitespace(c) && IsBlank(t)
    ensures IsBlank([c] + t)
  {
    forall i | 0 <= i < |t| + 1 ensures IsWhitespace(([c] + t)[i]) {
      if i > 0 { assert ([c] + t)[i] == t[i - 1]; }
    }
  }

  lemma BlankSnoc(t: string, c: char)
    requires IsWhitespace(c) && IsBlank(t)
    ensures IsBlank(t + [c])
  {
    forall i | 0 <= i < |t| + 1 ensures IsWhitespace((t + [c])[i]) {
      if i < |t| { assert (t + [c])[i] == t[i]; }
    }
  }

  /** Leading whitespace dropped; the result is a suffix of `s`. */
  function TrimStart(s: string): (r: string)
    ensures |r| <= |s| && r == s[|s| - |r|..]
    ensures r != [] ==> !IsWhitespace(r[0])
    ensures IsBlank(s[..|s| - |r|])
    decreases |s|
  {
    if |s| > 0 && IsWhitespace(s[0]) then
      var r := TrimStart(s[1..]);
      assert s[..|s| - |r|] == [s[0]] + s[1..][..|s| - 1 - |r|];
      BlankCons(s[0], s[1..][..|s| - 1 - |r|]);
      r
    else s
  }

  /** Trailing whitespace dropped; the result is a prefix of `s`. */
  function TrimEnd(s: string): (r: string)
    ensures |r| <= |s| && r == s[..|r|]
    ensures r != [] ==> !IsWhitespace(r[|r| - 1])
    ensures IsBlank(s[|r|..])
    decreases |s|
  {
    if |s| > 0 && IsWhitespace(s[|s| - 1]) then
      var r := TrimEnd(s[..|s| - 1]);
      assert s[|r|..] == s[..|s| - 1][|r|..] + [s[|s| - 1]];
      BlankSnoc(s[..|s| - 1][|r|..], s[|s| - 1]);
      r
    else s
  }

  /** `String.trim()` */
  function Trim(s: string): string {
    TrimEnd(TrimStart(s))
  }

  /** `String.take(n)` */
  function Take(s: string, n: nat): (r: string)
    ensures |r| == if n < |s| then n else |s|
    ensures r == s[..|r|]
  {
    if n < |s| then s[..n] else s
  }

  /** Blank text in front of a word that starts and ends with a non-blank character is exactly what trimming removes. */
  lemma {:induction false} TrimLeadingBlank(pre: string, core: string)
    requires IsBlank(pre) && core != []
    requires !IsWhitespace(core[0]) && !IsWhitespace(core[|core| - 1])
    ensures Trim(pre + core) == core
    decreases |pre|
  {
    if pre == [] {
      assert pre + core == core;
    } else {
      assert (pre + core)[1..] == pre[1..] + core;
      TrimLeadingBlank(pre[1..], core);
    }
  }

  /** Trimming keeps only characters of the input, and leaves no whitespace at either end. */
  lemma TrimProperties(s: string)
    ensures forall c :: c in Trim(s) ==> c in s
    ensures Trim(s) != [] ==> !IsWhitespace(Trim(s)[0]) && !IsWhitespace(Trim(s)[|Trim(s)| - 1])
  {
    var a := TrimStart(s);
    var b := TrimEnd(a);
    var off := |s| - |a|;
    forall c | c in b ensures c in s {
      var i :| 0 <= i < |b| && b[i] == c;
      assert s[off + i] == a[i] == c;
    }
    if b != [] {
      assert b[0] == a[0];
    }
  }

  /** A string is blank exactly when trimming it leaves nothing. */
  lemma BlankIffTrimEmpty(s: string)
    ensures IsBlank(s) <==> Trim(s) == []
  {
    var a := TrimStart(s);
    if Trim(s) == [] {
      assert IsBlank(a[0..]);
      assert a == [];
      assert s[..|s|] == s;
    }
  }
}

/**
 * Text ordering as SQLite's default BINARY collation applies it to the
 * folder names: lexicographic by character code.
 */
module Collation {
  import Text

  predicate Less(a: string, b: string)
    decreases |a|
  {
    if a == [] then b != []
    else if b == [] then false
    else if a[0] != b[0] then a[0] < b[0]
    else Less(a[1..], b[1..])
  }

  /** After equally long heads, the heads decide, and equal heads leave it to the tails. */
  lemma {:induction false} LessConcat(p: string, q: string, x: string, y: string)
    requires |p| == |q|
    ensures Less(p + x, q + y) <==> Less(p, q) || (p == q && Less(x, y))
    decreases |p|
  {
    if p == [] {
      assert p + x == x && q + y == y;
    } else {
      assert (p + x)[0] == p[0] && (q + y)[0] == q[0];
      assert (p + x)[1..] == p[1..] + x && (q + y)[1..] == q[1..] + y;
      LessConcat(p[1..], q[1..], x, y);
      if p[0] == q[0] && p[1..] == q[1..] {
        assert p == [p[0]] + p[1..] && q == [q[0]] + q[1..];
      }
    }
  }

  /** Equally long digit strings compare as the numbers they spell. */
  lemma {:induction false} DigitsLess(a: string, b: string)
    requires |a| == |b| && Text.AllDigits(a) && Text.AllDigits(b)
    ensures Less(a, b) <==> Text.ParseDigits(a) < Text.ParseDigits(b)
    decreases |a|
  {
    if a != [] {
      var n := |a| - 1;
      assert a == [a[0]] + a[1..] && b == [b[0]] + b[1..];
      Text.ParseDigitsCons(a[0], a[1..]);
      Text.ParseDigitsCons(b[0], b[1..]);
      Text.ParseDigitsBound(a[1..]);
      Text.ParseDigitsBound(b[1..]);
      if a[0] == b[0] {
        DigitsLess(a[1..], b[1..]);
      } else if a[0] < b[0] {
        LeadingDigitDecides(Text.DigitValue(a[0]), Text.DigitValue(b[0]), Text.Pow10(n),
                            Text.ParseDigits(a[1..]), Text.ParseDigits(b[1..]));
        assert Less(a, b);
      } else {
        LeadingDigitDecides(Text.DigitValue(b[0]), Text.DigitValue(a[0]), Text.Pow10(n),
                            Text.ParseDigits(b[1..]), Text.ParseDigits(a[1..]));
        assert !Less(a, b);
      }
    }
  }

  lemma {:induction false} LeadingDigitDecides(da: nat, db: nat, p: nat, ra: nat, rb: nat)
    requires da < db && ra < p
    ensures da * p + ra < db * p + rb
    decreases db
  {
    assert db * p == (db - 1) * p + p;
    if da < db - 1 {
      LeadingDigitDecides(da, db - 1, p, ra, rb);
    }
  }

  lemma {:induction false} LessIrreflexive(a: string)
    ensures !Less(a, a)
    decreases |a|
  {
    if a != [] {
      LessIrreflexive(a[1..]);
    }
  }

  lemma {:induction false} LessTransitive(a: string, b: string, c: string)
    requires Less(a, b) && Less(b, c)
    ensures Less(a, c)
    decreases |a|
  {
    if a != [] && b != [] && c != [] && a[0] == b[0] && b[0] == c[0] {
      LessTransitive(a[1..], b[1..], c[1..]);
    }
  }

  lemma {:induction false} LessTotal(a: string, b: string)
    requires a != b
    ensures Less(a, b) || Less(b, a)
    decreases |a|
  {
    if a != [] && b != [] && a[0] == b[0] {
      assert a == [a[0]] + a[1..] && b == [b[0]] + b[1..];
      LessTotal(a[1..], b[1..]);
    }
  }

  lemma {:induction false} LessAsymmetric(a: string, b: string)
    requires Less(a, b)
    ensures !Less(b, a)
    decreases |a|
  {
    if a != [] && b != [] && a[0] == b[0] {
      LessAsymmetric(a[1..], b[1..]);
    }
  }
}
