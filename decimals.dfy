/**
 * Exact decimal numbers and the three JavaScript conversions the screens use
 * on them: `Number.prototype.toFixed`, the number-to-string conversion of
 * template literals, and the decimal literal grammar read by `parseFloat`
 * and `Number`.
 *
 * A number is a finite decimal `m / 10^e`. Every figure the screens display
 * (prices, quantities, dimensions, 18% tax) is such a decimal, so the model
 * computes exactly where the program computes in binary floating point.
 */
module Decimals {
  import opened Common
  import opened Text

  function Pow10(n: nat): (r: nat)
    ensures r >= 1
  {
    if n == 0 then 1 else 10 * Pow10(n - 1)
  }

  lemma {:induction false} Pow10Add(a: nat, b: nat)
    ensures Pow10(a + b) == Pow10(a) * Pow10(b)
  {
    if b > 0 {
      Pow10Add(a, b - 1);
      assert Pow10(a + b) == 10 * Pow10(a + (b - 1));
      assert Pow10(b) == 10 * Pow10(b - 1);
      MulTen(Pow10(a), Pow10(b - 1));
    }
  }

  lemma Pow10Split(e: nat, d: nat)
    requires d <= e
    ensures Pow10(e) == Pow10(e - d) * Pow10(d)
  {
    Pow10Add(e - d, d);
  }

  lemma Pow10Even(k: nat)
    requires k >= 1
    ensures Pow10(k) >= 2 && Pow10(k) % 2 == 0
  {
    assert Pow10(k) == 10 * Pow10(k - 1);
  }

  function Abs(n: int): nat { if n < 0 then -n else n }

  function Signed(neg: bool, n: nat): int { if neg then -(n as int) else n }

  /** The number `m / 10^e`. */
  datatype Dec = Dec(m: int, e: nat)

  ghost function Val(x: Dec): real {
    x.m as real / Pow10(x.e) as real
  }

  function FromInt(n: int): (r: Dec)
    ensures Val(r) == n as real
  {
    Dec(n, 0)
  }

  function IsZero(x: Dec): (b: bool)
    ensures b <==> Val(x) == 0.0
  {
    x.m == 0
  }

  lemma MulVal(am: int, bm: int, pa: int, pb: int)
    requires pa > 0 && pb > 0
    ensures (am * bm) as real / (pa * pb) as real == (am as real / pa as real) * (bm as real / pb as real)
  {
    var x, y, p, q := am as real, bm as real, pa as real, pb as real;
    assert (am * bm) as real == x * y;
    assert (pa * pb) as real == p * q;
    var u, v := x / p, y / q;
    assert x == u * p && y == v * q;
    assert x * y == (u * v) * (p * q);
  }

  lemma AddVal(am: int, bm: int, pa: int, pb: int)
    requires pa > 0 && pb > 0
    ensures (am * pb + bm * pa) as real / (pa * pb) as real == am as real / pa as real + bm as real / pb as real
  {
    var x, y, p, q := am as real, bm as real, pa as real, pb as real;
    assert (am * pb + bm * pa) as real == x * q + y * p;
    assert (pa * pb) as real == p * q;
    var u, v := x / p, y / q;
    assert x == u * p && y == v * q;
    assert x * q + y * p == (u + v) * (p * q);
  }

  lemma CrossVal(am: int, bm: int, pa: int, pb: int)
    requires pa > 0 && pb > 0
    requires am * pb == bm * pa
    ensures am as real / pa as real == bm as real / pb as real
  {
    var x, y, p, q := am as real, bm as real, pa as real, pb as real;
    assert x * q == y * p;
    var u, v := x / p, y / q;
    assert x == u * p && y == v * q;
    assert u * (p * q) == v * (p * q);
  }

  /** Two decimals with equal cross products denote the same number. */
  lemma ValEq(x: Dec, y: Dec)
    requires x.m * Pow10(y.e) == y.m * Pow10(x.e)
    ensures Val(x) == Val(y)
  {
    CrossVal(x.m, y.m, Pow10(x.e), Pow10(y.e));
  }

  /** Two decimals denote the same number exactly when their cross products agree. */
  function SameNumber(x: Dec, y: Dec): (b: bool)
    ensures b <==> Val(x) == Val(y)
  {
    if x.m * Pow10(y.e) == y.m * Pow10(x.e) then
      ValEq(x, y);
      true
    else
      SameValCross(x, y);
      false
  }

  lemma SameValCross(x: Dec, y: Dec)
    ensures Val(x) == Val(y) ==> x.m * Pow10(y.e) == y.m * Pow10(x.e)
  {
    if Val(x) == Val(y) {
      CrossBack(x.m, y.m, Pow10(x.e), Pow10(y.e));
    }
  }

  lemma CrossBack(am: int, bm: int, pa: int, pb: int)
    requires pa > 0 && pb > 0
    requires am as real / pa as real == bm as real / pb as real
    ensures am * pb == bm * pa
  {
    var x, y, p, q := am as real, bm as real, pa as real, pb as real;
    var u := x / p;
    assert x == u * p && y == u * q;
    assert x * q == u * p * q == y * p;
    assert (am * pb) as real == x * q && (bm * pa) as real == y * p;
  }

  function Mul(a: Dec, b: Dec): (r: Dec)
    ensures Val(r) == Val(a) * Val(b)
  {
    Pow10Add(a.e, b.e);
    MulVal(a.m, b.m, Pow10(a.e), Pow10(b.e));
    Dec(a.m * b.m, a.e + b.e)
  }

  function Add(a: Dec, b: Dec): (r: Dec)
    ensures Val(r) == Val(a) + Val(b)
  {
    Pow10Add(a.e, b.e);
    AddVal(a.m, b.m, Pow10(a.e), Pow10(b.e));
    Dec(a.m * Pow10(b.e) + b.m * Pow10(a.e), a.e + b.e)
  }

  // ---------------------------------------------------------------- digits

  predicate IsDigit(c: char) { '0' <= c <= '9' }

  predicate AllDigits(s: string) {
    forall i :: 0 <= i < |s| ==> IsDigit(s[i])
  }

  function DigitChar(d: nat): char
    requires d < 10
  {
    ('0' as int + d) as char
  }

  function DigitVal(c: char): nat
    requires IsDigit(c)
  {
    c as int - '0' as int
  }

  /** The number a string of decimal digits denotes. */
  function DigitsValue(s: string): nat
    requires AllDigits(s)
  {
    if s == [] then 0 else 10 * DigitsValue(s[..|s| - 1]) + DigitVal(s[|s| - 1])
  }

  /** The decimal digits of `n`, without leading zeros ("0" for zero). */
  function DigitsOf(n: nat): (r: string)
    ensures |r| >= 1 && AllDigits(r)
    ensures r[0] == '0' ==> n == 0 && r == "0"
    ensures DigitsValue(r) == n
  {
    if n < 10 then [DigitChar(n)]
    else
      var r := DigitsOf(n / 10) + [DigitChar(n % 10)];
      assert r[..|r| - 1] == DigitsOf(n / 10);
      r
  }

  lemma AllDigitsConcat(a: string, b: string)
    requires AllDigits(a) && AllDigits(b)
    ensures AllDigits(a + b)
  {
  }

  lemma {:induction false} DigitsValueConcat(a: string, b: string)
    requires AllDigits(a) && AllDigits(b)
    ensures AllDigits(a + b)
    ensures DigitsValue(a + b) == DigitsValue(a) * Pow10(|b|) + DigitsValue(b)
  {
    AllDigitsConcat(a, b);
    if b == [] {
      assert a + b == a;
    } else {
      var b', c := b[..|b| - 1], b[|b| - 1];
      assert AllDigits(b');
      DigitsValueConcat(a, b');
      assert (a + b)[..|a + b| - 1] == a + b';
      assert (a + b)[|a + b| - 1] == c;
      var x, y, p := DigitsValue(a), DigitsValue(b'), Pow10(|b'|);
      assert DigitsValue(a + b) == 10 * (x * p + y) + DigitVal(c);
      assert DigitsValue(b) == 10 * y + DigitVal(c);
      assert Pow10(|b|) == 10 * p;
      MulTen(x, p);
    }
  }

  lemma MulTen(x: int, p: int)
    ensures 10 * (x * p) == x * (10 * p)
  {
  }

  function Zeros(k: nat): (r: string)
    ensures |r| == k && AllDigits(r) && DigitsValue(r) == 0
  {
    if k == 0 then "" else
      var r := Zeros(k - 1) + "0";
      assert r[..k - 1] == Zeros(k - 1);
      r
  }

  /** The index of the first character of `s` at or after `i` that is not a decimal digit. */
  function DigitsEnd(s: string, i: nat): (j: nat)
    requires i <= |s|
    ensures i <= j <= |s|
    decreases |s| - i
  {
    if i < |s| && IsDigit(s[i]) then DigitsEnd(s, i + 1) else i
  }

  lemma {:induction false} DigitsEndDigits(s: string, i: nat)
    requires i <= |s|
    ensures forall k :: i <= k < DigitsEnd(s, i) ==> IsDigit(s[k])
    decreases |s| - i
  {
    if i < |s| && IsDigit(s[i]) { DigitsEndDigits(s, i + 1); }
  }

  lemma {:induction false} DigitsEndAt(s: string, i: nat, j: nat)
    requires i <= j <= |s|
    requires forall k :: i <= k < j ==> IsDigit(s[k])
    requires j == |s| || !IsDigit(s[j])
    ensures DigitsEnd(s, i) == j
    decreases j - i
  {
    if i < j {
      DigitsEndAt(s, i + 1, j);
    }
  }

  // ---------------------------------------------------------------- toFixed

  /**
   * The integer `n` that `x.toFixed(d)` prints, read as `n / 10^d`: the one
   * closest to the magnitude of `x`, the larger of two equally close ones.
   */
  function RoundedScaled(x: Dec, d: nat): (n: nat)
    ensures 2 * n * Pow10(x.e) <= 2 * Abs(x.m) * Pow10(d) + Pow10(x.e)
    ensures 2 * Abs(x.m) * Pow10(d) + Pow10(x.e) < 2 * (n + 1) * Pow10(x.e)
    ensures x.e <= d ==> n * Pow10(x.e) == Abs(x.m) * Pow10(d)
  {
    if x.e <= d then
      RoundedExactly(Abs(x.m), x.e, d);
      Abs(x.m) * Pow10(d - x.e)
    else
      RoundedHalfUp(Abs(x.m), x.e, d);
      HalfUpDiv(Abs(x.m), Pow10(x.e - d))
  }

  /** `a / dk` rounded to the nearest integer, halves upwards. */
  function HalfUpDiv(a: nat, dk: nat): nat
    requires dk > 0
  {
    (a + dk / 2) / dk
  }

  /** Scaling up to more decimals is exact. */
  lemma RoundedExactly(a: nat, e: nat, d: nat)
    requires e <= d
    ensures a * Pow10(d - e) * Pow10(e) == a * Pow10(d)
    ensures 2 * (a * Pow10(d - e)) * Pow10(e) <= 2 * a * Pow10(d) + Pow10(e)
    ensures 2 * a * Pow10(d) + Pow10(e) < 2 * (a * Pow10(d - e) + 1) * Pow10(e)
  {
    Pow10Split(d, e);
    ScaleExactInt(a, Pow10(d - e), Pow10(e), Pow10(d));
  }

  lemma ScaleExactInt(a: int, pk: int, pe: int, pd: int)
    requires pe >= 1 && pd == pk * pe
    ensures a * pk * pe == a * pd
    ensures 2 * (a * pk) * pe <= 2 * a * pd + pe
    ensures 2 * a * pd + pe < 2 * (a * pk + 1) * pe
  {
    var n := a * pk;
    assert n * pe == a * (pk * pe);
    assert 2 * n * pe == 2 * a * (pk * pe);
    assert 2 * (n + 1) * pe == 2 * n * pe + 2 * pe;
  }

  /** Scaling down to fewer decimals rounds half up. */
  lemma RoundedHalfUp(a: nat, e: nat, d: nat)
    requires d < e
    ensures 2 * HalfUpDiv(a, Pow10(e - d)) * Pow10(e) <= 2 * a * Pow10(d) + Pow10(e)
    ensures 2 * a * Pow10(d) + Pow10(e) < 2 * (HalfUpDiv(a, Pow10(e - d)) + 1) * Pow10(e)
  {
    Pow10Split(e, d);
    Pow10Even(e - d);
    RoundingInt(a, Pow10(e - d), Pow10(d), Pow10(e));
  }

  lemma RoundingInt(a: nat, dk: nat, pd: nat, pe: nat)
    requires dk >= 2 && dk % 2 == 0 && pd >= 1 && pe == dk * pd
    ensures 2 * HalfUpDiv(a, dk) * pe <= 2 * a * pd + pe
    ensures 2 * a * pd + pe < 2 * (HalfUpDiv(a, dk) + 1) * pe
  {
    RoundHalfUp(a, dk);
    RoundingScaled(HalfUpDiv(a, dk), dk, pd, a);
  }

  lemma RoundHalfUp(a: nat, dk: nat)
    requires dk >= 2 && dk % 2 == 0
    ensures 2 * (HalfUpDiv(a, dk) * dk) <= 2 * a + dk < 2 * ((HalfUpDiv(a, dk) + 1) * dk)
  {
    var n, r := (a + dk / 2) / dk, (a + dk / 2) % dk;
    assert a + dk / 2 == n * dk + r && 0 <= r < dk;
    assert 2 * a + dk == 2 * (n * dk) + 2 * r;
    assert (n + 1) * dk == n * dk + dk;
  }

  lemma RoundingScaled(n: nat, dk: nat, pd: nat, a: nat)
    requires pd >= 1
    requires 2 * (n * dk) <= 2 * a + dk < 2 * ((n + 1) * dk)
    ensures 2 * n * (dk * pd) <= 2 * a * pd + dk * pd < 2 * (n + 1) * (dk * pd)
  {
    assert (2 * (n * dk)) * pd <= (2 * a + dk) * pd;
    assert (2 * a + dk) * pd < (2 * ((n + 1) * dk)) * pd;
  }

  /** The digits of `n` left-padded with zeros to at least `d + 1` digits. */
  function PadDigits(n: nat, d: nat): (r: string)
    ensures |r| >= d + 1 && AllDigits(r) && DigitsValue(r) == n
    ensures |r| == d + 1 || r[0] != '0'
  {
    var m := DigitsOf(n);
    if |m| <= d then
      DigitsValueConcat(Zeros(d + 1 - |m|), m);
      Zeros(d + 1 - |m|) + m
    else m
  }

  /** The digits of a number before and after its decimal point. */
  datatype Fixed = Fixed(whole: string, fraction: string)

  /**
   * The digits of `n / 10^d`: at least one before the point, none of them a
   * leading zero, and exactly `d` after it.
   */
  function FixedParts(n: nat, d: nat): (r: Fixed)
    ensures |r.whole| >= 1 && AllDigits(r.whole) && AllDigits(r.fraction) && |r.fraction| == d
    ensures r.whole[0] == '0' ==> |r.whole| == 1
    ensures AllDigits(r.whole + r.fraction) && DigitsValue(r.whole + r.fraction) == n
  {
    var p := PadDigits(n, d);
    SplitDigits(p, d);
    Fixed(p[..|p| - d], p[|p| - d..])
  }

  lemma SplitDigits(p: string, d: nat)
    requires |p| >= d + 1 && AllDigits(p) && (|p| == d + 1 || p[0] != '0')
    ensures |p[..|p| - d]| >= 1 && |p[|p| - d..]| == d
    ensures AllDigits(p[..|p| - d]) && AllDigits(p[|p| - d..])
    ensures p[..|p| - d][0] == '0' ==> |p[..|p| - d]| == 1
    ensures p[..|p| - d] + p[|p| - d..] == p
  {
  }

  /** `n / 10^d` written with exactly `d` digits after the point, and no point at all when `d` is 0. */
  function FixedDigits(n: nat, d: nat): (r: string)
    ensures |r| >= 1 && IsDigit(r[0])
  {
    var f := FixedParts(n, d);
    if d == 0 then f.whole else f.whole + "." + f.fraction
  }

  /** The minus sign a negative number is written with. */
  function Sign(neg: bool): string {
    if neg then "-" else ""
  }

  /** `x.toFixed(d)`. */
  function ToFixed(x: Dec, d: nat): string {
    Sign(x.m < 0) + FixedDigits(RoundedScaled(x, d), d)
  }

  /** `r` has exactly `d` digits after its point, and no point at all when `d` is 0. */
  predicate HasDecimals(r: string, d: nat) {
    if d == 0 then '.' !in r
    else d < |r| && r[|r| - d - 1] == '.' && AllDigits(r[|r| - d..]) && '.' !in r[..|r| - d - 1]
  }

  /** `x.toFixed(d)` writes exactly `d` decimals. */
  lemma ToFixedShape(x: Dec, d: nat)
    ensures HasDecimals(ToFixed(x, d), d)
  {
    var f := FixedParts(RoundedScaled(x, d), d);
    var s := Sign(x.m < 0);
    NoPointConcat(s, f.whole);
    if d > 0 {
      AppendAssoc(s, f.whole, ".");
      AppendAssoc(s, f.whole + ".", f.fraction);
      PointShape(s + f.whole, f.fraction);
    }
  }

  lemma NoPointConcat(s: string, w: string)
    requires s == "" || s == "-"
    requires AllDigits(w)
    ensures '.' !in s + w
  {
    assert forall i :: 0 <= i < |s + w| ==> (s + w)[i] == '-' || IsDigit((s + w)[i]);
  }

  lemma PointShape(p: string, f: string)
    requires '.' !in p && AllDigits(f) && |f| >= 1
    ensures HasDecimals(p + "." + f, |f|)
  {
    var r := p + "." + f;
    assert r[..|r| - |f| - 1] == p;
    assert r[|r| - |f|..] == f;
  }

  /** Only one natural number satisfies the two bounds `RoundedScaled` promises. */
  lemma RoundedUnique(x: Dec, d: nat, k: nat)
    requires 2 * k * Pow10(x.e) <= 2 * Abs(x.m) * Pow10(d) + Pow10(x.e)
    requires 2 * Abs(x.m) * Pow10(d) + Pow10(x.e) < 2 * (k + 1) * Pow10(x.e)
    ensures k == RoundedScaled(x, d)
  {
    var n := RoundedScaled(x, d);
    BracketUnique(k, n, 2 * Abs(x.m) * Pow10(d) + Pow10(x.e), Pow10(x.e));
  }

  lemma BracketUnique(k: nat, n: nat, v: int, p: int)
    requires p >= 1
    requires 2 * k * p <= v < 2 * (k + 1) * p
    requires 2 * n * p <= v < 2 * (n + 1) * p
    ensures k == n
  {
  }

  ghost function RAbs(r: real): real {
    if r < 0.0 then -r else r
  }

  /** The number `x.toFixed(d)` denotes: `x` rounded to `d` decimals, with the sign of `x`. */
  function Round(x: Dec, d: nat): (r: Dec)
    ensures r.e == d && (r.m < 0 ==> x.m < 0)
  {
    Dec(Signed(x.m < 0, RoundedScaled(x, d)), d)
  }

  /** The rounded number is at most half a unit of the last place away from `x`. */
  lemma RoundIsNearest(x: Dec, d: nat)
    ensures 2.0 * RAbs(Val(Round(x, d)) - Val(x)) * Pow10(d) as real <= 1.0
  {
    RoundGap(x, d);
    NearAsReal(Round(x, d), x, d);
  }

  lemma NearAsReal(r: Dec, x: Dec, d: nat)
    requires r.e == d
    requires -(Pow10(x.e) as int) <= 2 * (r.m * Pow10(x.e) - x.m * Pow10(d)) <= Pow10(x.e)
    ensures 2.0 * RAbs(Val(r) - Val(x)) * Pow10(d) as real <= 1.0
  {
    HalfUlp(r.m, x.m, Pow10(r.e), Pow10(x.e));
  }

  /** The same bound with both numbers brought to the common denominator `10^(d + x.e)`. */
  lemma RoundGap(x: Dec, d: nat)
    ensures -(Pow10(x.e) as int) <= 2 * (Round(x, d).m * Pow10(x.e) - x.m * Pow10(d)) <= Pow10(x.e)
  {
    var n := RoundedScaled(x, d);
    SignedAbs(x.m);
    SignedGap(x.m < 0, n, Abs(x.m), Pow10(d), Pow10(x.e));
  }

  lemma SignedGap(neg: bool, n: nat, a: nat, pd: int, pe: int)
    requires 2 * n * pe <= 2 * a * pd + pe && 2 * a * pd + pe < 2 * (n + 1) * pe
    ensures -pe <= 2 * (Signed(neg, n) * pe - Signed(neg, a) * pd) <= pe
  {
    assert 2 * (n + 1) * pe == 2 * n * pe + 2 * pe;
    if neg {
      assert Signed(neg, n) * pe - Signed(neg, a) * pd == -(n * pe - a * pd);
    }
  }

  lemma HalfUlp(n: int, a: int, pd: int, pe: int)
    requires pd >= 1 && pe >= 1
    requires -pe <= 2 * (n * pe - a * pd) <= pe
    ensures 2.0 * RAbs(n as real / pd as real - a as real / pe as real) * pd as real <= 1.0
  {
    var N, A, P, E := n as real, a as real, pd as real, pe as real;
    var g := (n * pe - a * pd) as real;
    assert g == N * E - A * P;
    var dlt := N / P - A / E;
    assert dlt == g / (P * E) by {
      QuotientDiff(N, A, P, E);
    }
    HalfQuotient(g, P, E);
  }

  lemma QuotientDiff(n: real, a: real, p: real, e: real)
    requires p > 0.0 && e > 0.0
    ensures n / p - a / e == (n * e - a * p) / (p * e)
  {
    var u, v := n / p, a / e;
    assert n == u * p && a == v * e;
    assert n * e - a * p == (u - v) * (p * e);
  }

  lemma HalfQuotient(g: real, p: real, e: real)
    requires p >= 1.0 && e >= 1.0 && -e <= 2.0 * g <= e
    ensures 2.0 * RAbs(g / (p * e)) * p <= 1.0
  {
    var q := g / (p * e);
    assert g == q * (p * e);
    assert 2.0 * RAbs(q) * p * e == RAbs(2.0 * g);
    assert RAbs(2.0 * g) <= e;
  }

  // ------------------------------------------------------ number to string

  /** The same number with trailing zeros of the fraction removed. */
  function Normalize(x: Dec): (r: Dec)
    ensures Val(r) == Val(x)
    ensures r.e <= x.e
    ensures r.e == 0 || r.m % 10 != 0
    ensures (r.m < 0) == (x.m < 0)
    decreases x.e
  {
    if x.e > 0 && x.m % 10 == 0 then
      var y := Dec(x.m / 10, x.e - 1);
      assert x.m == 10 * y.m;
      assert Pow10(x.e) == 10 * Pow10(y.e);
      ValEq(x, y);
      Normalize(y)
    else x
  }

  /** `String(x)`: the shortest decimal writing of `x`. */
  function ToDisplay(x: Dec): string {
    var y := Normalize(x);
    Sign(y.m < 0) + FixedDigits(Abs(y.m), y.e)
  }

  // --------------------------------------------------------------- parsing

  datatype Parsed = Parsed(value: Dec, length: nat)

  /** The digits before and after the point of a literal, and how many characters they take with the point. */
  datatype Literal = Literal(whole: string, fraction: string, length: nat)

  /**
   * The longest prefix of `s` made of digits, optionally followed by a point
   * and more digits, provided it holds at least one digit.
   */
  function ScanLiteral(s: string): (r: Option<Literal>)
    ensures r.Some? ==> AllDigits(r.value.whole) && AllDigits(r.value.fraction)
                        && 1 <= r.value.length <= |s|
  {
    var k := DigitsEnd(s, 0);
    var hasPoint := k < |s| && s[k] == '.';
    var j := if hasPoint then DigitsEnd(s, k + 1) else k;
    if k == 0 && j <= 1 then None
    else
      DigitsEndDigits(s, 0);
      var whole := s[..k];
      var fraction := if hasPoint then DigitsEndDigits(s, k + 1); s[k + 1..j] else "";
      assert forall i :: 0 <= i < |whole| ==> whole[i] == s[i];
      assert forall i :: 0 <= i < |fraction| ==> fraction[i] == s[k + 1 + i];
      Some(Literal(whole, fraction, j))
  }

  /** The power and the length of an exponent `e12`, `E-3`, ... starting at index `i`. */
  datatype Exponent = Exponent(power: int, length: nat)

  /** The exponent of a literal that ends before index `i`; none, of length 0, when `s` holds no exponent there. */
  function ExponentAt(s: string, i: nat): (r: Exponent)
    requires i <= |s|
    ensures r.length <= |s| - i
  {
    if i < |s| && (s[i] == 'e' || s[i] == 'E') then
      var signed := i + 1 < |s| && (s[i + 1] == '+' || s[i + 1] == '-');
      var start := if signed then i + 2 else i + 1;
      var end := DigitsEnd(s, start);
      if end == start then Exponent(0, 0)
      else
        DigitsEndDigits(s, start);
        var digits := s[start..end];
        assert forall k :: 0 <= k < |digits| ==> digits[k] == s[start + k];
        var v := DigitsValue(digits);
        Exponent(if signed && s[i + 1] == '-' then 0 - v else v, end - i)
    else Exponent(0, 0)
  }

  /** `m * 10^k`, by repeated multiplication by ten. */
  function Shift(m: nat, k: nat): nat {
    if k == 0 then m else 10 * Shift(m, k - 1)
  }

  /** `mant / 10^f` multiplied by `10^ex`. */
  function Scale(mant: nat, f: nat, ex: int): Dec {
    if ex <= f then Dec(mant, f - ex) else Dec(Shift(mant, ex - f), 0)
  }

  /**
   * The longest prefix of `s` that is an unsigned decimal literal (digits,
   * optional fraction, optional exponent) with at least one digit, or None.
   */
  function ParseUnsigned(s: string): (r: Option<Parsed>)
    ensures r.Some? ==> 1 <= r.value.length <= |s| && r.value.value.m >= 0
  {
    match ScanLiteral(s)
    case None => None
    case Some(lit) =>
      AllDigitsConcat(lit.whole, lit.fraction);
      var ex := ExponentAt(s, lit.length);
      Some(Parsed(Scale(DigitsValue(lit.whole + lit.fraction), |lit.fraction|, ex.power), lit.length + ex.length))
  }

  /** The literal read after a sign character, with the sign applied. */
  function AfterSign(neg: bool, r: Option<Parsed>): Option<Parsed> {
    match r
    case None => None
    case Some(p) => Some(Parsed(if neg then Dec(-p.value.m, p.value.e) else p.value, p.length + 1))
  }

  /** An optional sign followed by an unsigned literal. */
  function ParseNumberPrefix(s: string): (r: Option<Parsed>)
    ensures r.Some? ==> r.value.length <= |s|
  {
    if s == [] then None
    else if s[0] == '-' then AfterSign(true, ParseUnsigned(s[1..]))
    else if s[0] == '+' then AfterSign(false, ParseUnsigned(s[1..]))
    else ParseUnsigned(s)
  }

  /** A character that ends a number written by `FixedDigits`. */
  predicate EndsNumber(t: string) {
    t == [] || (!IsDigit(t[0]) && t[0] != '.' && t[0] != 'e' && t[0] != 'E')
  }

  /** Where the digits of `w` end in `w + t`. */
  lemma IntegerLayout(s: string, w: string, t: string)
    requires s == w + t && AllDigits(w) && EndsNumber(t)
    ensures |w| <= |s| && forall k :: 0 <= k < |w| ==> IsDigit(s[k])
    ensures |w| == |s| || (!IsDigit(s[|w|]) && s[|w|] != '.' && s[|w|] != 'e' && s[|w|] != 'E')
    ensures s[..|w|] == w
  {
    assert forall k :: 0 <= k < |w| ==> s[k] == w[k];
    assert |w| < |s| ==> s[|w|] == t[0];
  }

  /** Where the digits of `a` and of `b` end in `a + "." + b + t`. */
  lemma FractionLayout(s: string, a: string, b: string, t: string)
    requires s == a + "." + b + t && AllDigits(a) && AllDigits(b) && EndsNumber(t)
    ensures |a| + 1 + |b| <= |s| && s[|a|] == '.'
    ensures forall k :: 0 <= k < |a| ==> IsDigit(s[k])
    ensures forall k :: |a| + 1 <= k < |a| + 1 + |b| ==> IsDigit(s[k])
    ensures |a| + 1 + |b| == |s|
            || (!IsDigit(s[|a| + 1 + |b|]) && s[|a| + 1 + |b|] != 'e' && s[|a| + 1 + |b|] != 'E')
    ensures s[..|a|] == a && s[|a| + 1..|a| + 1 + |b|] == b
  {
    assert forall k :: 0 <= k < |a| ==> s[k] == a[k];
    forall k | |a| + 1 <= k < |a| + 1 + |b|
      ensures IsDigit(s[k])
    {
      assert s[k] == b[k - |a| - 1];
    }
    assert |a| + 1 + |b| < |s| ==> s[|a| + 1 + |b|] == t[0];
    assert s[|a| + 1..|a| + 1 + |b|] == b;
  }

  lemma ScanInteger(w: string, t: string)
    requires |w| >= 1 && AllDigits(w) && EndsNumber(t)
    ensures ScanLiteral(w + t) == Some(Literal(w, "", |w|))
  {
    IntegerLayout(w + t, w, t);
    DigitsEndAt(w + t, 0, |w|);
  }

  lemma NoExponent(s: string, i: nat)
    requires i <= |s|
    requires i == |s| || (s[i] != 'e' && s[i] != 'E')
    ensures ExponentAt(s, i) == Exponent(0, 0)
  {
  }

  /** A literal followed by no exponent is read as its digits scaled by its fraction length. */
  lemma ParseUnsignedLiteral(s: string, lit: Literal)
    requires ScanLiteral(s) == Some(lit)
    requires lit.length == |s| || (s[lit.length] != 'e' && s[lit.length] != 'E')
    ensures AllDigits(lit.whole + lit.fraction)
    ensures ParseUnsigned(s) == Some(Parsed(Dec(DigitsValue(lit.whole + lit.fraction), |lit.fraction|), lit.length))
  {
    AllDigitsConcat(lit.whole, lit.fraction);
    NoExponent(s, lit.length);
  }

  lemma ParseUnsignedInteger(w: string, t: string)
    requires |w| >= 1 && AllDigits(w) && EndsNumber(t)
    ensures ParseUnsigned(w + t) == Some(Parsed(Dec(DigitsValue(w), 0), |w|))
  {
    ScanInteger(w, t);
    IntegerLayout(w + t, w, t);
    EmptyAppend(w);
    ParseUnsignedLiteral(w + t, Literal(w, "", |w|));
  }

  lemma ScanFraction(a: string, b: string, t: string)
    requires |a| >= 1 && AllDigits(a) && AllDigits(b) && EndsNumber(t)
    ensures ScanLiteral(a + "." + b + t) == Some(Literal(a, b, |a| + 1 + |b|))
  {
    var s := a + "." + b + t;
    FractionLayout(s, a, b, t);
    DigitsEndAt(s, 0, |a|);
    DigitsEndAt(s, |a| + 1, |a| + 1 + |b|);
  }

  lemma ParseUnsignedFraction(a: string, b: string, t: string, n: nat)
    requires |a| >= 1 && AllDigits(a) && AllDigits(b) && EndsNumber(t)
    requires AllDigits(a + b) && DigitsValue(a + b) == n
    ensures ParseUnsigned(a + "." + b + t) == Some(Parsed(Dec(n, |b|), |a| + 1 + |b|))
  {
    var s := a + "." + b + t;
    ScanFraction(a, b, t);
    FractionLayout(s, a, b, t);
    ParseUnsignedLiteral(s, Literal(a, b, |a| + 1 + |b|));
  }

  lemma ParseUnsignedFixed(n: nat, d: nat, t: string)
    requires EndsNumber(t)
    ensures ParseUnsigned(FixedDigits(n, d) + t) == Some(Parsed(Dec(n, d), |FixedDigits(n, d)|))
  {
    var f := FixedParts(n, d);
    if d == 0 {
      assert f.whole + f.fraction == f.whole;
      ParseWrittenInteger(FixedDigits(n, d), f, n, t);
    } else {
      ParseWrittenFraction(FixedDigits(n, d), f, n, d, t);
    }
  }

  lemma ParseWrittenInteger(w: string, f: Fixed, n: nat, t: string)
    requires w == f.whole && |w| >= 1 && AllDigits(w) && EndsNumber(t)
    requires DigitsValue(w) == n
    ensures ParseUnsigned(w + t) == Some(Parsed(Dec(n, 0), |w|))
  {
    ParseUnsignedInteger(w, t);
  }

  lemma ParseWrittenFraction(w: string, f: Fixed, n: nat, d: nat, t: string)
    requires w == f.whole + "." + f.fraction && |f.fraction| == d && EndsNumber(t)
    requires |f.whole| >= 1 && AllDigits(f.whole) && AllDigits(f.fraction)
    requires AllDigits(f.whole + f.fraction) && DigitsValue(f.whole + f.fraction) == n
    ensures ParseUnsigned(w + t) == Some(Parsed(Dec(n, d), |w|))
  {
    ParseUnsignedFraction(f.whole, f.fraction, t, n);
  }

  lemma ParseNegative(u: string)
    ensures ParseNumberPrefix("-" + u) == AfterSign(true, ParseUnsigned(u))
  {
    assert ("-" + u)[1..] == u;
  }

  lemma ParseUnsignedDigit(u: string)
    requires u != [] && IsDigit(u[0])
    ensures ParseNumberPrefix(u) == ParseUnsigned(u)
  {
  }

  /**
   * Reading back a number written with `d` decimals, followed by anything
   * that cannot continue a number, gives exactly `n / 10^d` with its sign.
   */
  lemma ParseFixed(neg: bool, n: nat, d: nat, t: string)
    requires EndsNumber(t)
    ensures ParseNumberPrefix(Sign(neg) + FixedDigits(n, d) + t)
            == Some(Parsed(Dec(Signed(neg, n), d), |Sign(neg) + FixedDigits(n, d)|))
  {
    ParseUnsignedFixed(n, d, t);
    ParseSigned(neg, FixedDigits(n, d), t, n, d);
  }

  lemma ParseSigned(neg: bool, u: string, t: string, n: nat, d: nat)
    requires u != [] && IsDigit(u[0])
    requires ParseUnsigned(u + t) == Some(Parsed(Dec(n, d), |u|))
    ensures ParseNumberPrefix(Sign(neg) + u + t) == Some(Parsed(Dec(Signed(neg, n), d), |Sign(neg) + u|))
  {
    if neg {
      ParseNegativeWritten(u, t, n, d);
    } else {
      ParsePositiveWritten(u, t, n, d);
    }
  }

  lemma ParseNegativeWritten(w: string, t: string, n: nat, d: nat)
    requires ParseUnsigned(w + t) == Some(Parsed(Dec(n, d), |w|))
    ensures ParseNumberPrefix("-" + w + t) == Some(Parsed(Dec(-(n as int), d), |w| + 1))
  {
    AppendAssoc("-", w, t);
    ParseNegative(w + t);
  }

  lemma ParsePositiveWritten(w: string, t: string, n: nat, d: nat)
    requires w != [] && IsDigit(w[0])
    requires ParseUnsigned(w + t) == Some(Parsed(Dec(n, d), |w|))
    ensures ParseNumberPrefix("" + w + t) == Some(Parsed(Dec(n, d), |w|))
  {
    EmptyAppend(w);
    ParseUnsignedDigit(w + t);
  }

  /** `parseFloat(s)`: leading white space is skipped, then the longest numeric prefix is read. */
  function ParseFloat(s: string): Option<Dec> {
    match ParseNumberPrefix(TrimStart(s))
    case Some(p) => Some(p.value)
    case None => None
  }

  /**
   * `Number(s)`: white space around is ignored, an empty string is 0, and
   * anything but one decimal literal is NaN. (JavaScript also reads `0x`,
   * `0o` and `0b` literals and `Infinity`; this reads them as NaN.)
   */
  function StringToNumber(s: string): Option<Dec> {
    var t := Trim(s);
    if t == [] then Some(Dec(0, 0))
    else match ParseNumberPrefix(t)
      case Some(p) => if p.length == |t| then Some(p.value) else None
      case None => None
  }

  /** `parseFloat` reads back a number written with `d` decimals, and stops at any text that follows. */
  lemma ParseFloatFixed(neg: bool, n: nat, d: nat, t: string)
    requires EndsNumber(t)
    ensures ParseFloat(Sign(neg) + FixedDigits(n, d) + t) == Some(Dec(Signed(neg, n), d))
  {
    var u := FixedDigits(n, d);
    ParseFixed(neg, n, d, t);
    SignedFirst(neg, u, t);
    ReadWithoutSpace(Sign(neg) + u + t, Parsed(Dec(Signed(neg, n), d), |Sign(neg) + u|));
  }

  lemma SignedFirst(neg: bool, u: string, t: string)
    requires u != [] && IsDigit(u[0])
    ensures Sign(neg) + u + t != [] && !IsSpace((Sign(neg) + u + t)[0])
  {
    assert (Sign(neg) + u + t)[0] == (if neg then '-' else u[0]);
  }

  lemma ReadWithoutSpace(w: string, p: Parsed)
    requires w != [] && !IsSpace(w[0])
    requires ParseNumberPrefix(w) == Some(p)
    ensures ParseFloat(w) == Some(p.value)
  {
    TrimStartKeeps(w);
  }

  /** Text that starts with neither white space, a sign, a digit nor a point is `NaN` to `parseFloat`. */
  lemma NotANumber(s: string)
    requires s != [] && !IsSpace(s[0]) && !IsDigit(s[0]) && s[0] != '.' && s[0] != '+' && s[0] != '-'
    ensures ParseFloat(s) == None
  {
    TrimStartKeeps(s);
    assert DigitsEnd(s, 0) == 0;
  }

  /** `parseFloat` reads back what `toFixed` wrote, and reading stops at any text that follows. */
  lemma ParseFloatToFixed(x: Dec, d: nat, t: string)
    requires EndsNumber(t)
    ensures ParseFloat(ToFixed(x, d) + t) == Some(Round(x, d))
  {
    ParseFloatFixed(x.m < 0, RoundedScaled(x, d), d, t);
  }

  /** Rendering with at least as many decimals as the number has, and parsing back, loses nothing. */
  lemma ToFixedExact(x: Dec, d: nat)
    requires x.e <= d
    ensures ParseFloat(ToFixed(x, d)).Some? && Val(ParseFloat(ToFixed(x, d)).value) == Val(x)
  {
    ParseFloatToFixed(x, d, "");
    EmptyAppend(ToFixed(x, d));
    ExactRounding(x, d);
  }

  /** With at least as many decimals as `x` has, `toFixed` does not round. */
  lemma ExactRounding(x: Dec, d: nat)
    requires x.e <= d
    ensures Val(Round(x, d)) == Val(x)
  {
    var n := RoundedScaled(x, d);
    var y := Dec(Signed(x.m < 0, n), d);
    assert y.m * Pow10(x.e) == x.m * Pow10(d);
    ValEq(y, x);
  }

  /** The string form of a number reads back as the same number. */
  lemma ParseFloatToDisplay(x: Dec)
    ensures ParseFloat(ToDisplay(x)).Some? && Val(ParseFloat(ToDisplay(x)).value) == Val(x)
  {
    var y := Normalize(x);
    ParseFloatFixed(y.m < 0, Abs(y.m), y.e, "");
    EmptyAppend(ToDisplay(x));
    SignedAbs(y.m);
  }

  lemma SignedAbs(m: int)
    ensures Signed(m < 0, Abs(m)) == m
  {
  }
}
