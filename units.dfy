/**
 * Decimal digit strings and the fixed-point conversion that the trade code
 * delegates to ethers' `parseUnits`: a decimal string with at most `d`
 * significant fractional digits becomes the integer value * 10^d.
 */
module Units {
  import opened Wrappers

  const InvalidDecimalValue := "invalid decimal value"
  const MissingValue := "missing value"
  const TooManyDecimalPoints := "too many decimal points"
  const FractionExceedsDecimals := "fractional component exceeds decimals"

  predicate IsDigit(c: char)
  {
    '0' <= c <= '9'
  }

  predicate AllDigits(s: string)
  {
    forall i :: 0 <= i < |s| ==> IsDigit(s[i])
  }

  function DigitValue(c: char): (v: nat)
    requires IsDigit(c)
    ensures v < 10
  {
    c as int - '0' as int
  }

  function DigitChar(v: nat): (c: char)
    requires v < 10
    ensures IsDigit(c) && DigitValue(c) == v
  {
    ('0' as int + v) as char
  }

  function Pow10(k: nat): (p: nat)
    ensures p >= 1
  {
    if k == 0 then 1 else 10 * Pow10(k - 1)
  }

  /** The value of a string of decimal digits, most significant digit first. */
  function DigitsValue(s: string): nat
    requires AllDigits(s)
  {
    if s == [] then 0 else DigitsValue(s[..|s| - 1]) * 10 + DigitValue(s[|s| - 1])
  }

  lemma DigitsValueAppend(s: string, c: char)
    requires AllDigits(s) && IsDigit(c)
    ensures AllDigits(s + [c]) && DigitsValue(s + [c]) == DigitsValue(s) * 10 + DigitValue(c)
  {
    assert (s + [c])[..|s|] == s;
  }

  lemma {:induction false} DigitsValueConcat(a: string, b: string)
    requires AllDigits(a) && AllDigits(b)
    ensures AllDigits(a + b) && DigitsValue(a + b) == DigitsValue(a) * Pow10(|b|) + DigitsValue(b)
    decreases |b|
  {
    if b == [] {
      assert a + b == a;
    } else {
      var b' := b[..|b| - 1];
      var c := b[|b| - 1];
      assert b == b' + [c];
      assert a + b == (a + b') + [c];
      DigitsValueConcat(a, b');
      DigitsValueAppend(a + b', c);
      DigitsValueAppend(b', c);
      var A, B', P' := DigitsValue(a), DigitsValue(b'), Pow10(|b'|);
      assert Pow10(|b|) == 10 * P';
      calc {
        DigitsValue(a + b);
        DigitsValue(a + b') * 10 + DigitValue(c);
        (A * P' + B') * 10 + DigitValue(c);
        (A * P') * 10 + (B' * 10 + DigitValue(c));
        { MulAssoc(A, P', 10); }
        A * (10 * P') + (B' * 10 + DigitValue(c));
      }
    }
  }

  lemma MulAssoc(a: nat, b: nat, c: nat)
    ensures (a * b) * c == a * (c * b)
  {
  }

  /**
   * The shortest decimal rendering of n, as BigNumber's `toString` gives it:
   * digits only, and no leading zero unless n is zero.
   */
  function NatToString(n: nat): (s: string)
    ensures |s| >= 1 && AllDigits(s) && DigitsValue(s) == n
    ensures |s| > 1 ==> s[0] != '0'
    decreases n
  {
    if n < 10 then [DigitChar(n)]
    else
      var p := NatToString(n / 10);
      DigitsValueAppend(p, DigitChar(n % 10));
      p + [DigitChar(n % 10)]
  }

  /** A positive number's rendering has k + 1 digits exactly when 10^k <= n < 10^(k+1). */
  lemma {:induction false} NatToStringLength(n: nat)
    requires n >= 1
    ensures Pow10(|NatToString(n)| - 1) <= n < Pow10(|NatToString(n)|)
    decreases n
  {
    if n >= 10 {
      NatToStringLength(n / 10);
      var k := |NatToString(n / 10)|;
      assert |NatToString(n)| == k + 1;
      assert Pow10(k) == 10 * Pow10(k - 1);
      assert Pow10(k + 1) == 10 * Pow10(k);
    }
  }

  /** s with zeros in front until it has at least `width` digits. */
  function LeftPad(s: string, width: nat): (t: string)
    requires AllDigits(s)
    ensures |t| >= width && |t| >= |s| && AllDigits(t) && DigitsValue(t) == DigitsValue(s)
    decreases width - |s|
  {
    if |s| >= width then s
    else
      assert DigitsValue("0") == 0 by { assert "0"[..0] == ""; }
      DigitsValueConcat("0", s);
      LeftPad("0" + s, width)
  }

  /** The fraction's digits without its trailing zeros. */
  function TrimTrailingZeros(f: string): (r: string)
    requires AllDigits(f)
    ensures |r| <= |f| && r == f[..|r|] && AllDigits(r)
    ensures r == [] || r[|r| - 1] != '0'
    ensures forall i :: |r| <= i < |f| ==> f[i] == '0'
  {
    if f != [] && f[|f| - 1] == '0' then TrimTrailingZeros(f[..|f| - 1]) else f
  }

  /** Dropping trailing zeros divides a digit string's value by a power of ten. */
  lemma {:induction false} TrimTrailingZerosValue(f: string)
    requires AllDigits(f)
    ensures DigitsValue(f) == DigitsValue(TrimTrailingZeros(f)) * Pow10(|f| - |TrimTrailingZeros(f)|)
    decreases |f|
  {
    if f != [] && f[|f| - 1] == '0' {
      var f' := f[..|f| - 1];
      TrimTrailingZerosValue(f');
      assert f == f' + ['0'];
      DigitsValueAppend(f', '0');
      var r := TrimTrailingZeros(f');
      assert TrimTrailingZeros(f) == r;
      var R, P := DigitsValue(r), Pow10(|f'| - |r|);
      assert Pow10(|f| - |r|) == 10 * P;
      calc {
        DigitsValue(f);
        DigitsValue(f') * 10;
        (R * P) * 10;
        { MulAssoc(R, P, 10); }
        R * (10 * P);
      }
    }
  }

  /** A decimal literal split at its point; either part may be empty. */
  datatype Decimal = Decimal(whole: string, fraction: string)

  predicate DecimalChars(s: string)
  {
    forall i :: 0 <= i < |s| ==> IsDigit(s[i]) || s[i] == '.'
  }

  function DotCount(s: string): nat
  {
    if s == [] then 0 else DotCount(s[..|s| - 1]) + (if s[|s| - 1] == '.' then 1 else 0)
  }

  function IndexOfDot(s: string): (r: Option<nat>)
    ensures r.None? ==> forall i :: 0 <= i < |s| ==> s[i] != '.'
    ensures r.Some? ==> r.value < |s| && s[r.value] == '.' && forall i :: 0 <= i < r.value ==> s[i] != '.'
  {
    if s == [] then None
    else if s[0] == '.' then Some(0)
    else
      match IndexOfDot(s[1..])
      case None => None
      case Some(i) => Some(i + 1)
  }

  lemma {:induction false} DotCountSplit(a: string, b: string)
    ensures DotCount(a + b) == DotCount(a) + DotCount(b)
    decreases |b|
  {
    if b == [] {
      assert a + b == a;
    } else {
      assert (a + b)[..|a + b| - 1] == a + b[..|b| - 1];
      DotCountSplit(a, b[..|b| - 1]);
    }
  }

  lemma {:induction false} NoDotCount(s: string)
    requires forall i :: 0 <= i < |s| ==> s[i] != '.'
    ensures DotCount(s) == 0
    decreases |s|
  {
    if s != [] {
      NoDotCount(s[..|s| - 1]);
    }
  }

  /**
   * The lexical check ethers makes before conversion: only digits and points,
   * at most one point, and not empty or a lone point. Signs are not accepted
   * by this model.
   */
  function ParseDecimal(s: string): (r: Option<Decimal>)
    ensures r.Some? <==> s != "" && s != "." && DecimalChars(s) && DotCount(s) <= 1
    ensures r.Some? ==> AllDigits(r.value.whole) && AllDigits(r.value.fraction)
    ensures r.Some? ==> s == r.value.whole + "." + r.value.fraction
                        || (s == r.value.whole && r.value.fraction == "")
  {
    if s == "" || s == "." || !DecimalChars(s) || DotCount(s) > 1 then None
    else
      match IndexOfDot(s)
      case None =>
        NoDotDigits(s);
        Some(Decimal(s, ""))
      case Some(i) =>
        NoSecondDot(s, i);
        SplitAtFirstDot(s, i);
        Some(Decimal(s[..i], s[i + 1..]))
  }

  /**
   * As in ethers, a missing whole or fraction part is accepted; an empty
   * text, a lone point or a second point is not, each with its own reason.
   */
  lemma ParseDecimalEdges()
    ensures ParseDecimal(".5") == Some(Decimal("", "5"))
    ensures ParseDecimal("5.") == Some(Decimal("5", ""))
    ensures ParseDecimal("").None? && ParseDecimal(".").None? && ParseDecimal("1.2.3").None?
  {
    assert DotCount(".5") == 1 by { assert ".5"[..1] == "."; assert "."[..0] == ""; }
    assert DotCount("5.") == 1 by { assert "5."[..1] == "5"; assert "5"[..0] == ""; }
    assert DotCount("1.2.3") >= 2 by { TwoDots("1.2.3", 1, 3); }
  }

  /** Each refused text fails with the reason ethers gives for it. */
  lemma ParseUnitsLexErrors()
    ensures ParseUnits("", 18) == Failure(InvalidDecimalValue)
    ensures ParseUnits("1e5", 18) == Failure(InvalidDecimalValue)
    ensures ParseUnits(".", 18) == Failure(MissingValue)
    ensures ParseUnits("1.2.3", 18) == Failure(TooManyDecimalPoints)
  {
    assert !IsDigit("1e5"[1]);
    TwoDots("1.2.3", 1, 3);
  }

  /** A prefix holds no more points than the whole. */
  lemma PrefixDots(s: string, k: nat)
    requires k <= |s|
    ensures DotCount(s[..k]) <= DotCount(s)
  {
    assert s == s[..k] + s[k..];
    DotCountSplit(s[..k], s[k..]);
  }

  /** Points at two positions make at least two points. */
  lemma TwoDots(s: string, i: nat, j: nat)
    requires i < j < |s|
    ensures s[i] == '.' && s[j] == '.' ==> DotCount(s) >= 2
  {
    assert s[..i + 1][..i] == s[..i];
    assert s[..j + 1][..j] == s[..j];
    assert s[..j][..i + 1] == s[..i + 1];
    PrefixDots(s[..j], i + 1);
    PrefixDots(s, j + 1);
  }

  lemma NoDotDigits(s: string)
    requires DecimalChars(s) && forall i :: 0 <= i < |s| ==> s[i] != '.'
    ensures AllDigits(s)
  {
  }

  /** Around a decimal literal's only point lie digits. */
  lemma SplitAtFirstDot(s: string, i: nat)
    requires DecimalChars(s) && i < |s| && s[i] == '.'
    requires forall j :: 0 <= j < i ==> s[j] != '.'
    requires forall j :: i < j < |s| ==> s[j] != '.'
    ensures s == s[..i] + "." + s[i + 1..]
    ensures AllDigits(s[..i]) && AllDigits(s[i + 1..])
  {
    assert s == s[..i] + "." + s[i + 1..];
    DotFreePrefix(s, i);
    DotFreeSuffix(s, i + 1);
  }

  lemma NoSecondDot(s: string, i: nat)
    requires DotCount(s) <= 1 && i < |s| && s[i] == '.'
    ensures forall j :: i < j < |s| ==> s[j] != '.'
  {
    forall j | i < j < |s| ensures s[j] != '.' {
      TwoDots(s, i, j);
    }
  }

  /** The part of a decimal literal before its point is all digits. */
  lemma DotFreePrefix(s: string, i: nat)
    requires DecimalChars(s) && i <= |s|
    requires forall j :: 0 <= j < i ==> s[j] != '.'
    ensures AllDigits(s[..i])
  {
    forall k | 0 <= k < i ensures IsDigit(s[..i][k]) {
      assert s[..i][k] == s[k];
    }
  }

  /** The part of a decimal literal after its point is all digits. */
  lemma DotFreeSuffix(s: string, i: nat)
    requires DecimalChars(s) && i <= |s|
    requires forall j :: i <= j < |s| ==> s[j] != '.'
    ensures AllDigits(s[i..])
  {
    forall k | 0 <= k < |s| - i ensures IsDigit(s[i..][k]) {
      assert s[i..][k] == s[i + k];
    }
  }

  /**
   * The reason ethers gives for a text its lexical check refuses, in the
   * order it tests: characters other than digits and points (or nothing),
   * then a lone point, then more than one point.
   */
  function LexError(s: string): string
  {
    if s == "" || !DecimalChars(s) then InvalidDecimalValue
    else if s == "." then MissingValue
    else TooManyDecimalPoints
  }

  /**
   * ethers' `parseUnits(s, d)`: the decimal s as an integer count of 10^-d
   * units. Trailing zeros of the fraction are dropped first; more significant
   * fractional digits than d is an error, never a rounding.
   */
  function ParseUnits(s: string, d: nat): (r: Result<nat>)
    ensures (s == "" || !DecimalChars(s)) ==> r == Failure(InvalidDecimalValue)
    ensures s == "." ==> r == Failure(MissingValue)
    ensures s != "" && DecimalChars(s) && DotCount(s) > 1 ==> r == Failure(TooManyDecimalPoints)
    ensures r.Success? <==> ParseDecimal(s).Some? && |TrimTrailingZeros(ParseDecimal(s).value.fraction)| <= d
    ensures ParseDecimal(s).Some? && r.Failure? ==> r.error == FractionExceedsDecimals
  {
    assert DotCount(".") == 1 by { assert "."[..0] == ""; }
    match ParseDecimal(s)
    case None => Failure(LexError(s))
    case Some(dec) => ToUnits(dec, d)
  }

  /**
   * Text the lexical check refuses fails with its reason; a well-formed one
   * converts as Denotes says.
   */
  lemma ParseUnitsDenotes(s: string, d: nat)
    ensures ParseDecimal(s).None? ==>
              ParseUnits(s, d) == Failure(LexError(s))
              && (s == "" || !DecimalChars(s) ==> LexError(s) == InvalidDecimalValue)
              && (s == "." ==> LexError(s) == MissingValue)
              && (s != "" && DecimalChars(s) && s != "." ==> DotCount(s) > 1 && LexError(s) == TooManyDecimalPoints)
    ensures ParseDecimal(s).Some? ==> Denotes(ParseDecimal(s).value, d, ParseUnits(s, d))
  {
    if ParseDecimal(s).Some? {
      ToUnitsDenotes(ParseDecimal(s).value, d);
    }
  }

  /** The conversion of an already split decimal to 10^-d units. */
  function ToUnits(dec: Decimal, d: nat): Result<nat>
    requires AllDigits(dec.whole) && AllDigits(dec.fraction)
  {
    var frac := TrimTrailingZeros(dec.fraction);
    if |frac| > d then Failure(FractionExceedsDecimals)
    else Success(Shift(DigitsValue(dec.whole), d) + Shift(DigitsValue(frac), d - |frac|))
  }

  lemma ToUnitsDenotes(dec: Decimal, d: nat)
    requires AllDigits(dec.whole) && AllDigits(dec.fraction)
    ensures Denotes(dec, d, ToUnits(dec, d))
  {
    if |TrimTrailingZeros(dec.fraction)| <= d {
      ParseUnitsScale(dec, d);
    }
  }

  /**
   * r is the conversion of dec to 10^-d units: it succeeds exactly when dec
   * has at most d significant fractional digits, and then r * 10^|fraction|
   * equals dec's digits read as one integer, times 10^d; that is, r / 10^d is
   * dec's value.
   */
  predicate Denotes(dec: Decimal, d: nat, r: Result<nat>)
    requires AllDigits(dec.whole) && AllDigits(dec.fraction)
  {
    && (r.Success? <==> |TrimTrailingZeros(dec.fraction)| <= d)
    && (r.Failure? ==> r.error == FractionExceedsDecimals)
    && (r.Success? ==> r.value * Pow10(|dec.fraction|) == DigitsValue(dec.whole + dec.fraction) * Pow10(d))
  }

  /** x followed by k zero digits. */
  function Shift(x: nat, k: nat): nat
  {
    x * Pow10(k)
  }

  lemma Pow10Add(a: nat, b: nat)
    ensures Pow10(a + b) == Pow10(a) * Pow10(b)
  {
    if a > 0 {
      Pow10Add(a - 1, b);
    }
  }

  lemma ParseUnitsScale(dec: Decimal, d: nat)
    requires AllDigits(dec.whole) && AllDigits(dec.fraction)
    requires |TrimTrailingZeros(dec.fraction)| <= d
    ensures var frac := TrimTrailingZeros(dec.fraction);
            (Shift(DigitsValue(dec.whole), d) + Shift(DigitsValue(frac), d - |frac|)) * Pow10(|dec.fraction|)
            == DigitsValue(dec.whole + dec.fraction) * Pow10(d)
  {
    var w, f := dec.whole, dec.fraction;
    var frac := TrimTrailingZeros(f);
    var t := |f| - |frac|;
    TrimTrailingZerosValue(f);
    DigitsValueConcat(w, f);
    Pow10Add(d - |frac|, |f|);
    Pow10Add(d, t);
    assert d - |frac| + |f| == d + t;
    ScaleArith(DigitsValue(w), DigitsValue(frac), Pow10(d), Pow10(d - |frac|), Pow10(t), Pow10(|f|));
  }

  lemma ScaleArith(W: nat, F: nat, P: nat, Q: nat, T: nat, R: nat)
    requires Q * R == P * T
    ensures (W * P + F * Q) * R == (W * R + F * T) * P
  {
    calc {
      (W * P + F * Q) * R;
      W * P * R + F * (Q * R);
      W * P * R + F * (P * T);
      (W * R + F * T) * P;
    }
  }

  /**
   * A fixed-point rendering of n base units with d fractional digits, the
   * inverse direction: n's digits, padded with zeros to at least d + 1 of
   * them, with a point before the last d when d > 0.
   */
  function FormatUnits(n: nat, d: nat): (s: string)
  {
    PointAt(LeftPad(NatToString(n), d + 1), d)
  }

  /** t with a point before its last d digits, or t itself when d is 0. */
  function PointAt(t: string, d: nat): string
    requires |t| > d
  {
    if d == 0 then t else t[..|t| - d] + "." + t[|t| - d..]
  }

  /** Rendering base units and parsing them back with the same decimals is the identity. */
  lemma FormatThenParseUnits(n: nat, d: nat)
    ensures ParseUnits(FormatUnits(n, d), d) == Success(n)
  {
    ParsePointAt(LeftPad(NatToString(n), d + 1), d);
  }

  lemma ParsePointAt(t: string, d: nat)
    requires AllDigits(t) && |t| > d
    ensures ParseUnits(PointAt(t, d), d) == Success(DigitsValue(t))
  {
    if d == 0 {
      ParseWhole(t);
    } else {
      ParseSplitDigits(t, d);
    }
  }

  /** Digits with a point put before the last d of them parse back to their value. */
  lemma ParseSplitDigits(t: string, d: nat)
    requires AllDigits(t) && |t| > d > 0
    ensures ParseUnits(t[..|t| - d] + "." + t[|t| - d..], d) == Success(DigitsValue(t))
  {
    var w, f := SplitTail(t, d);
    ParsePointed(w, f);
  }

  /** The last d digits of t and the rest. */
  lemma SplitTail(t: string, d: nat) returns (w: string, f: string)
    requires AllDigits(t) && |t| > d > 0
    ensures w == t[..|t| - d] && f == t[|t| - d..]
    ensures w + f == t && |f| == d && w != "" && f != ""
    ensures AllDigits(w) && AllDigits(f)
  {
    w, f := t[..|t| - d], t[|t| - d..];
    SliceDigits(t, 0, |t| - d);
    SliceDigits(t, |t| - d, |t|);
    assert w + f == t;
  }

  lemma SliceDigits(t: string, i: nat, j: nat)
    requires AllDigits(t) && i <= j <= |t|
    ensures AllDigits(t[i..j])
  {
    forall k | 0 <= k < j - i ensures IsDigit(t[i..j][k]) {
      assert t[i..j][k] == t[i + k];
    }
  }

  /** A plain digit string parses to its value scaled by 10^d. */
  lemma ParseWhole(w: string)
    requires AllDigits(w) && w != ""
    ensures ParseUnits(w, 0) == Success(DigitsValue(w))
  {
    NoDotCount(w);
    assert ParseDecimal(w) == Some(Decimal(w, ""));
    assert w + "" == w;
    assert TrimTrailingZeros("") == "";
    ToUnitsDenotes(Decimal(w, ""), 0);
  }

  /** Digits, a point and exactly d fractional digits parse to the value of all the digits. */
  lemma ParsePointed(w: string, f: string)
    requires AllDigits(w) && AllDigits(f) && w != "" && f != ""
    ensures AllDigits(w + f) && ParseUnits(w + "." + f, |f|) == Success(DigitsValue(w + f))
  {
    PointedDecimal(w, f);
    ToUnitsExact(w, f);
  }

  lemma ToUnitsExact(w: string, f: string)
    requires AllDigits(w) && AllDigits(f)
    ensures AllDigits(w + f) && ToUnits(Decimal(w, f), |f|) == Success(DigitsValue(w + f))
  {
    ConcatDigits(w, f);
    var r := ToUnits(Decimal(w, f), |f|);
    ToUnitsDenotes(Decimal(w, f), |f|);
    MulCancel(r.value, DigitsValue(w + f), Pow10(|f|));
  }

  lemma ConcatDigits(a: string, b: string)
    requires AllDigits(a) && AllDigits(b)
    ensures AllDigits(a + b)
  {
    forall i | 0 <= i < |a + b| ensures IsDigit((a + b)[i]) {
      if i < |a| { assert (a + b)[i] == a[i]; } else { assert (a + b)[i] == b[i - |a|]; }
    }
  }

  lemma PointedDecimal(w: string, f: string)
    requires AllDigits(w) && AllDigits(f) && w != ""
    ensures ParseDecimal(w + "." + f) == Some(Decimal(w, f))
  {
    var s := w + "." + f;
    assert DecimalChars(s) by {
      forall i | 0 <= i < |s| ensures IsDigit(s[i]) || s[i] == '.' {
        if i < |w| { assert s[i] == w[i]; }
        else if i > |w| { assert s[i] == f[i - |w| - 1]; }
      }
    }
    NoDotCount(w);
    NoDotCount(f);
    DotCountSplit(w + ".", f);
    DotCountSplit(w, ".");
    assert DotCount(".") == 1 by { assert "."[..0] == ""; }
    IndexOfDotAfter(w, f);
    assert s[..|w|] == w && s[|w| + 1..] == f;
  }

  lemma MulCancel(a: nat, b: nat, p: nat)
    requires p >= 1 && a * p == b * p
    ensures a == b
  {
  }

  /** In a string whose prefix w has no point, the first point is the one after w. */
  lemma {:induction false} IndexOfDotAfter(w: string, rest: string)
    requires forall i :: 0 <= i < |w| ==> w[i] != '.'
    ensures IndexOfDot(w + "." + rest) == Some(|w|)
    decreases |w|
  {
    if w != [] {
      assert (w + "." + rest)[1..] == w[1..] + "." + rest;
      IndexOfDotAfter(w[1..], rest);
    }
  }
}
