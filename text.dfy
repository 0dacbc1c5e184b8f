/** Text helpers shared by the drivers: decimal rendering as the `fmt` library
    prints integers (`{}` and the zero-padded `{:0Nd}` / `{:#0Nd}` forms, where
    `#` changes nothing for decimals), the value of a run of digits, and the C
    library's `atoi`/`atof` prefix conversions. */
module Text {

  predicate IsDigit(c: char) { '0' <= c <= '9' }

  predicate AllDigits(s: string) { forall i :: 0 <= i < |s| ==> IsDigit(s[i]) }

  function DigitValue(c: char): (d: nat)
    requires IsDigit(c)
    ensures d < 10
  {
    c as int - '0' as int
  }

  function DigitChar(d: nat): (c: char)
    requires d < 10
    ensures IsDigit(c) && DigitValue(c) == d
  {
    ('0' as int + d) as char
  }

  function Pow10(k: nat): (p: nat)
    ensures p >= 1
  {
    if k == 0 then 1 else 10 * Pow10(k - 1)
  }

  /** `fmt::format("{}", n)` for a non-negative integer: no leading zeros. */
  function Decimal(n: nat): (s: string)
    ensures 1 <= |s| && AllDigits(s)
  {
    if n < 10 then [DigitChar(n)] else Decimal(n / 10) + [DigitChar(n % 10)]
  }

  /** The number a run of decimal digits denotes. */
  function ValueOf(s: string): (n: nat)
    requires AllDigits(s)
    ensures n < Pow10(|s|)
  {
    if s == [] then 0 else ValueOf(s[..|s| - 1]) * 10 + DigitValue(s[|s| - 1])
  }

  function Zeros(k: nat): (s: string)
    ensures |s| == k && AllDigits(s)
    ensures forall i :: 0 <= i < k ==> s[i] == '0'
  {
    if k == 0 then [] else Zeros(k - 1) + ['0']
  }

  /** `{:0wd}` of a non-negative integer: at least `w` characters, padded on the
      left with zeros, never truncated. */
  function PadNat(n: nat, w: nat): (s: string)
    ensures AllDigits(s) && |s| >= w
  {
    var d := Decimal(n);
    if |d| < w then Zeros(w - |d|) + d else d
  }

  /** `{:0wd}` of any integer: the sign counts towards the width and the zeros
      go between the sign and the digits. */
  function Pad(n: int, w: nat): (s: string)
    ensures n >= 0 ==> AllDigits(s)
    ensures n < 0 ==> |s| >= 2 && s[0] == '-'
  {
    if n < 0 then "-" + PadNat(-n, if w > 0 then w - 1 else 0) else PadNat(n, w)
  }

  /** `fmt::format("{}", n)` of any integer. */
  function Signed(n: int): (s: string)
    ensures |s| >= 1
  {
    if n < 0 then "-" + Decimal(-n) else Decimal(n)
  }

  lemma {:induction false} ValueOfDecimal(n: nat)
    ensures ValueOf(Decimal(n)) == n
  {
    if n >= 10 {
      var d := Decimal(n);
      assert d[..|d| - 1] == Decimal(n / 10);
      ValueOfDecimal(n / 10);
    }
  }

  lemma {:induction false} DecimalLength(n: nat, w: nat)
    requires w >= 1
    ensures |Decimal(n)| <= w <==> n < Pow10(w)
  {
    if n >= 10 && w >= 2 {
      DecimalLength(n / 10, w - 1);
    } else if n >= 10 {
      assert |Decimal(n)| >= 2 by { assert Decimal(n) == Decimal(n / 10) + [DigitChar(n % 10)]; }
    }
  }

  lemma {:induction false} ValueOfAppend(s: string, t: string)
    requires AllDigits(s) && AllDigits(t)
    ensures AllDigits(s + t)
    ensures ValueOf(s + t) == ValueOf(s) * Pow10(|t|) + ValueOf(t)
  {
    if t != [] {
      var u, t' := s + t, t[..|t| - 1];
      assert u[..|u| - 1] == s + t' && u[|u| - 1] == t[|t| - 1];
      ValueOfAppend(s, t');
      var d := DigitValue(t[|t| - 1]);
      ShiftDigit(ValueOf(s), Pow10(|t'|), ValueOf(t'), d);
      assert ValueOf(t) == ValueOf(t') * 10 + d;
    } else {
      assert s + t == s;
    }
  }

  lemma ShiftDigit(a: int, p: int, b: int, d: int)
    ensures (a * p + b) * 10 + d == a * (p * 10) + (b * 10 + d)
  {
  }

  lemma {:induction false} ValueOfZeros(k: nat)
    ensures ValueOf(Zeros(k)) == 0
  {
    if k > 0 {
      assert Zeros(k)[..k - 1] == Zeros(k - 1);
      ValueOfZeros(k - 1);
    }
  }

  lemma ValueOfZerosPrefix(k: nat, d: string)
    requires AllDigits(d)
    ensures AllDigits(Zeros(k) + d) && ValueOf(Zeros(k) + d) == ValueOf(d)
  {
    ValueOfAppend(Zeros(k), d);
    ValueOfZeros(k);
  }

  /** Zero padding to width `w` of a value below 10^w gives exactly `w` digits
      whose value is the padded number. */
  lemma PadNatFacts(n: nat, w: nat)
    requires w >= 1 && n < Pow10(w)
    ensures |PadNat(n, w)| == w && AllDigits(PadNat(n, w))
    ensures ValueOf(PadNat(n, w)) == n
  {
    DecimalLength(n, w);
    ValueOfDecimal(n);
    var d := Decimal(n);
    if |d| < w {
      ValueOfZerosPrefix(w - |d|, d);
    }
  }

  // ---------------------------------------------------------------------------
  // C library prefix conversions

  predicate IsSpace(c: char) {
    c == ' ' || c == '\t' || c == '\n' || c == '\r' || c == '\U{000C}' || c == '\U{000B}'
  }

  function SkipSpace(s: string): (t: string)
    ensures |t| <= |s| && t == s[|s| - |t|..]
    ensures |t| > 0 ==> !IsSpace(t[0])
  {
    if |s| > 0 && IsSpace(s[0]) then SkipSpace(s[1..]) else s
  }

  /** The longest run of digits at the start of `s`. */
  function LeadingDigits(s: string): (r: string)
    ensures |r| <= |s| && r == s[..|r|] && AllDigits(r)
    ensures |r| < |s| ==> !IsDigit(s[|r|])
  {
    if |s| > 0 && IsDigit(s[0]) then [s[0]] + LeadingDigits(s[1..]) else []
  }

  lemma {:induction false} LeadingDigitsOfDigits(s: string, rest: string)
    requires AllDigits(s)
    requires rest == [] || !IsDigit(rest[0])
    ensures LeadingDigits(s + rest) == s
  {
    if s != [] {
      assert (s + rest)[1..] == s[1..] + rest;
      LeadingDigitsOfDigits(s[1..], rest);
    } else {
      assert s + rest == rest;
    }
  }

  function SignedPrefixValue(t: string): int
  {
    if |t| > 0 && t[0] == '-' then -(ValueOf(LeadingDigits(t[1..])) as int)
    else if |t| > 0 && t[0] == '+' then ValueOf(LeadingDigits(t[1..]))
    else ValueOf(LeadingDigits(t))
  }

  /** `atoi`: leading white space, an optional sign and the longest run of
      digits; 0 when there is none. */
  function Atoi(s: string): (n: int)
  {
    SignedPrefixValue(SkipSpace(s))
  }

  /** `atoi` of text that starts with a digit reads the digits there. */
  lemma AtoiOfLeadingDigit(t: string)
    requires |t| > 0 && IsDigit(t[0])
    ensures Atoi(t) == ValueOf(LeadingDigits(t))
  {
    SkipSpaceOfDigit(t);
    assert t[0] != '-' && t[0] != '+';
  }

  /** `atoi` of text that starts with '-' reads the digits after it,
      negated. */
  lemma AtoiOfLeadingMinus(t: string)
    requires |t| > 0 && t[0] == '-'
    ensures Atoi(t) == -(ValueOf(LeadingDigits(t[1..])) as int)
  {
    assert SkipSpace(t) == t;
  }

  /** `atoi` stops at the first character after a run of digits. */
  lemma AtoiOfDigitsThen(s: string, rest: string)
    requires |s| >= 1 && AllDigits(s)
    requires rest == [] || !IsDigit(rest[0])
    ensures Atoi(s + rest) == ValueOf(s)
  {
    var t := s + rest;
    assert t[0] == s[0];
    AtoiOfLeadingDigit(t);
    LeadingDigitsOfDigits(s, rest);
  }

  /** `atoi` of a string made only of digits is the value of those digits. */
  lemma AtoiOfDigits(s: string)
    requires AllDigits(s)
    ensures Atoi(s) == ValueOf(s)
  {
    if s != [] {
      AtoiOfDigitsThen(s, []);
      assert s + [] == s;
    }
  }

  /** `atoi` of a single digit is that digit. */
  lemma AtoiOfDigit(d: nat)
    requires d < 10
    ensures Atoi([DigitChar(d)]) == d
  {
    var s := [DigitChar(d)];
    AtoiOfDigits(s);
    assert s[..0] == [];
  }

  /** `atoi` stops at the first character after the digits of `Signed(n)`. */
  lemma AtoiOfSignedThen(n: int, rest: string)
    requires rest == [] || !IsDigit(rest[0])
    ensures Atoi(Signed(n) + rest) == n
  {
    var s := Signed(n);
    if n < 0 {
      AtoiOfNegativeThen(-n, rest);
      assert s == "-" + Decimal(-n);
    } else {
      AtoiOfDecimalThen(n, rest);
      assert s == Decimal(n);
    }
  }

  lemma AtoiOfDecimalThen(n: nat, rest: string)
    requires rest == [] || !IsDigit(rest[0])
    ensures Atoi(Decimal(n) + rest) == n
  {
    AtoiOfDigitsThen(Decimal(n), rest);
    ValueOfDecimal(n);
  }

  lemma AtoiOfNegativeThen(m: nat, rest: string)
    requires m > 0
    requires rest == [] || !IsDigit(rest[0])
    ensures Atoi("-" + Decimal(m) + rest) == -(m as int)
  {
    var d := Decimal(m);
    var t := "-" + d + rest;
    assert t[0] == '-' && t[1..] == d + rest;
    AtoiOfLeadingMinus(t);
    LeadingDigitsOfDigits(d, rest);
    ValueOfDecimal(m);
  }

  /** `atoi` of `Decimal(n)` and of `Signed(n)` gives `n` back. */
  lemma AtoiOfSigned(n: int)
    ensures Atoi(Signed(n)) == n
  {
    AtoiOfSignedThen(n, []);
    assert Signed(n) + [] == Signed(n);
  }

  function UnsignedAtof(t: string): real
  {
    var whole := LeadingDigits(t);
    var rest := t[|whole|..];
    var frac := if |rest| > 0 && rest[0] == '.' then LeadingDigits(rest[1..]) else [];
    PointValue(ValueOf(whole), ValueOf(frac), |frac|)
  }

  /** `whole.frac` where `frac` has `k` digits. */
  function PointValue(whole: nat, frac: nat, k: nat): real
  {
    whole as real + Shifted(frac as real, k)
  }

  /** `x / 10^k`. */
  function Shifted(x: real, k: nat): real
  {
    if k == 0 then x else Shifted(x, k - 1) / 10.0
  }

  lemma {:induction false} ShiftedSum(x: real, y: real, k: nat)
    ensures Shifted(x + y, k) == Shifted(x, k) + Shifted(y, k)
  {
    if k > 0 {
      ShiftedSum(x, y, k - 1);
    }
  }

  lemma {:induction false} ShiftedPow10(q: int, k: nat)
    ensures Shifted((q * Pow10(k)) as real, k) == q as real
    decreases k
  {
    if k > 0 {
      assert q * Pow10(k) == (q * 10) * Pow10(k - 1);
      ShiftedPow10(q * 10, k - 1);
    }
  }

  /** `atof` restricted to plain decimal notation: white space, an optional
      sign, digits and an optional fraction; 0 when nothing matches. */
  function Atof(s: string): real
  {
    var t := SkipSpace(s);
    if |t| > 0 && t[0] == '-' then -UnsignedAtof(t[1..])
    else if |t| > 0 && t[0] == '+' then UnsignedAtof(t[1..])
    else UnsignedAtof(t)
  }

  lemma UnsignedAtofOfDigits(s: string)
    requires AllDigits(s)
    ensures UnsignedAtof(s) == ValueOf(s) as real
  {
    assert s + [] == s;
    LeadingDigitsOfDigits(s, []);
    var frac: string := [];
    assert ValueOf(frac) == 0 && Shifted(0.0, |frac|) == 0.0;
  }

  lemma AtofOfDigits(s: string)
    requires AllDigits(s)
    ensures Atof(s) == ValueOf(s) as real
  {
    assert SkipSpace(s) == s;
    UnsignedAtofOfDigits(s);
  }
  // ---------------------------------------------------------------------------
  // `fmt::format("{}", x)` of a double holding a decimal value

  /** The decimal number `digits / 10^scale`, negated when `negative`, as a
      client writes it. */
  datatype Fixed = Fixed(negative: bool, digits: nat, scale: nat)

  function RealOf(d: Fixed): real
  {
    if d.negative then -Shifted(d.digits as real, d.scale) else Shifted(d.digits as real, d.scale)
  }

  /** No trailing zero after the decimal point. */
  predicate Normal(d: Fixed) { d.scale == 0 || d.digits % 10 != 0 }

  lemma {:induction false} DropTrailingZero(k: nat, s: nat)
    ensures Shifted((10 * k) as real, s + 1) == Shifted(k as real, s)
  {
    if s > 0 {
      DropTrailingZero(k, s - 1);
    }
  }

  /** The same number without trailing zeros after the decimal point. */
  function Normalize(d: Fixed): (n: Fixed)
    ensures Normal(n) && RealOf(n) == RealOf(d) && n.negative == d.negative
    decreases d.scale
  {
    if d.scale > 0 && d.digits % 10 == 0 then
      DropTrailingZero(d.digits / 10, d.scale - 1);
      Normalize(Fixed(d.negative, d.digits / 10, d.scale - 1))
    else d
  }

  lemma DivMod(a: nat, p: nat)
    requires p >= 1
    ensures 0 <= a / p && 0 <= a % p < p
  {
  }

  /** `a / 10^k` written with `k` digits after the point. */
  function PointText(a: nat, k: nat): (s: string)
    ensures |s| >= k + 2
  {
    var p := Pow10(k);
    DivMod(a, p);
    var f := PadNat(a % p, k);
    Decimal(a / p) + ("." + f)
  }

  /** The digits of a number, with a point only when it has a fraction. */
  function UnsignedText(a: nat, k: nat): (s: string)
    ensures |s| >= 1 && IsDigit(s[0])
  {
    if k == 0 then Decimal(a) else PointText(a, k)
  }

  /** `{}` of a double in fixed-point form, as fmt writes zero and every
      magnitude of 1e-4 or more below 1e16: an integral value has no decimal
      point and a fraction no trailing zero. fmt writes smaller nonzero
      magnitudes in exponent form ("1e-05"), which this text does not. */
  function DoubleText(d: Fixed): (s: string)
    ensures |s| >= 1
  {
    var n := Normalize(d);
    var u := UnsignedText(n.digits, n.scale);
    if n.negative then "-" + u else u
  }

  /** `a / 10^k` is its quotient by `10^k` plus the shifted remainder. */
  lemma SplitFraction(a: nat, k: nat)
    ensures (a / Pow10(k)) as real + Shifted((a % Pow10(k)) as real, k) == Shifted(a as real, k)
  {
    var p := Pow10(k);
    var q, r := a / p, a % p;
    var x, y := (q * p) as real, r as real;
    assert a == q * p + r;
    assert x + y == a as real;
    ShiftedSum(x, y, k);
    ShiftedPow10(q, k);
    assert Shifted(x, k) == q as real;
  }

  /** `atof` of digits, a point and more digits. */
  lemma UnsignedAtofOfPoint(w: string, f: string)
    requires |w| >= 1 && AllDigits(w) && AllDigits(f)
    ensures UnsignedAtof(w + ("." + f)) == PointValue(ValueOf(w), ValueOf(f), |f|)
  {
    var t := w + ("." + f);
    LeadingDigitsOfDigits(w, "." + f);
    var rest := t[|w|..];
    assert rest == "." + f;
    assert rest[1..] == f;
    assert f + [] == f;
    LeadingDigitsOfDigits(f, []);
  }

  lemma UnsignedAtofOfPointText(a: nat, k: nat)
    requires k >= 1
    ensures UnsignedAtof(PointText(a, k)) == Shifted(a as real, k)
  {
    var p := Pow10(k);
    DivMod(a, p);
    var w, f := Decimal(a / p), PadNat(a % p, k);
    PadNatFacts(a % p, k);
    UnsignedAtofOfPoint(w, f);
    ValueOfDecimal(a / p);
    SplitFraction(a, k);
  }

  lemma UnsignedAtofOfUnsignedText(a: nat, k: nat)
    ensures UnsignedAtof(UnsignedText(a, k)) == Shifted(a as real, k)
  {
    if k == 0 {
      UnsignedAtofOfDigits(Decimal(a));
      ValueOfDecimal(a);
    } else {
      UnsignedAtofOfPointText(a, k);
    }
  }

  /** Text that starts with a digit is read by `atof` without a sign, and
      with a '-' in front it is read negated. */
  lemma AtofOfUnsigned(u: string)
    requires |u| >= 1 && IsDigit(u[0])
    ensures Atof(u) == UnsignedAtof(u)
    ensures Atof("-" + u) == -UnsignedAtof(u)
  {
    SkipSpaceOfDigit(u);
    SkipSpaceOfMinus(u);
  }

  lemma SkipSpaceOfDigit(u: string)
    requires |u| >= 1 && IsDigit(u[0])
    ensures SkipSpace(u) == u
  {
  }

  lemma SkipSpaceOfMinus(u: string)
    ensures SkipSpace("-" + u) == "-" + u && ("-" + u)[1..] == u
  {
    assert ("-" + u)[0] == '-';
  }

  /** `atof` reads the printed text back as the number. */
  lemma AtofOfDoubleText(d: Fixed)
    ensures Atof(DoubleText(d)) == RealOf(d)
  {
    var n := Normalize(d);
    var u := UnsignedText(n.digits, n.scale);
    UnsignedAtofOfUnsignedText(n.digits, n.scale);
    AtofOfUnsigned(u);
  }

  /** A character of the fixed-point rendering of a double. */
  predicate NumberChar(c: char) { IsDigit(c) || c == '.' || c == '-' }

  /** The fixed-point rendering holds only digits, the point and the minus sign. */
  lemma DoubleTextChars(d: Fixed)
    ensures forall i :: 0 <= i < |DoubleText(d)| ==> NumberChar(DoubleText(d)[i])
  {
    var n := Normalize(d);
    var u := UnsignedText(n.digits, n.scale);
    if n.scale != 0 {
      var p := Pow10(n.scale);
      DivMod(n.digits, p);
      var w, f := Decimal(n.digits / p), PadNat(n.digits % p, n.scale);
      assert u == w + ("." + f);
      forall i | 0 <= i < |u| ensures NumberChar(u[i]) {
        if i < |w| {
          assert u[i] == w[i];
        } else if i > |w| {
          assert u[i] == f[i - |w| - 1];
        }
      }
    }
    assert forall i :: 0 <= i < |u| ==> NumberChar(u[i]);
  }
}
