/** JavaScript number syntax on exact decimals: `parseFloat`, `parseInt(s, 10)` and the
    `Number` to string conversion used when a number is spliced into a template string. */
module Numbers {
  import opened Wrappers
  import opened Text

  /** The exact value (-1)^negative * mantissa * 10^exponent of a decimal literal. */
  datatype Decimal = Decimal(negative: bool, mantissa: nat, exponent: int)

  function Pow10(n: nat): (r: nat)
    ensures r >= 1
  {
    if n == 0 then 1 else 10 * Pow10(n - 1)
  }

  /** 10^e as a real number. */
  function Scale(e: int): (r: real)
    ensures r > 0.0
    decreases if e >= 0 then e else -e
  {
    if e == 0 then 1.0 else if e > 0 then 10.0 * Scale(e - 1) else Scale(e + 1) / 10.0
  }

  lemma {:induction false} ScaleWhole(e: nat)
    ensures Scale(e) == Pow10(e) as real
  {
    if e > 0 { ScaleWhole(e - 1); }
  }

  function Value(d: Decimal): real {
    (if d.negative then -1.0 else 1.0) * (d.mantissa as real) * Scale(d.exponent)
  }

  lemma ValueSign(d: Decimal)
    ensures Value(d) > 0.0 <==> !d.negative && d.mantissa > 0
    ensures Value(d) == 0.0 <==> d.mantissa == 0
    ensures !d.negative ==> Value(d) >= 0.0
  {
    var m := d.mantissa as real;
    var sc := Scale(d.exponent);
    if m > 0.0 {
      assert m * sc > 0.0;
    }
  }

  function DigitValue(c: char): nat
    requires IsDigit(c)
  {
    c as int - '0' as int
  }

  function DigitChar(n: nat): (c: char)
    requires n < 10
    ensures IsDigit(c) && DigitValue(c) == n
  {
    ('0' as int + n) as char
  }

  predicate AllDigits(s: string) {
    forall i :: 0 <= i < |s| ==> IsDigit(s[i])
  }

  /** The number a run of decimal digits denotes (most significant first). */
  function DigitsValue(s: string): nat
    requires AllDigits(s)
  {
    if s == [] then 0 else DigitsValue(s[..|s| - 1]) * 10 + DigitValue(s[|s| - 1])
  }

  /** End of the run of digits of `s` that starts at index `i`. */
  function RunEnd(s: string, i: nat): (e: nat)
    requires i <= |s|
    ensures i <= e <= |s|
    ensures forall k :: i <= k < e ==> IsDigit(s[k])
    ensures e == |s| || !IsDigit(s[e])
    decreases |s| - i
  {
    if i < |s| && IsDigit(s[i]) then RunEnd(s, i + 1) else i
  }

  /** `e`/`E`, an optional sign and at least one digit at the start of `s`: the signed
      exponent, or 0 when `s` does not start with an exponent part. */
  function ExponentPart(s: string): int {
    if s == [] || (s[0] != 'e' && s[0] != 'E') then 0
    else
      var signed := |s| > 1 && (s[1] == '+' || s[1] == '-');
      var start := if signed then 2 else 1;
      var e := RunEnd(s, start);
      assert AllDigits(s[start..e]);
      if e == start then 0
      else if signed && s[1] == '-' then -(DigitsValue(s[start..e]) as int)
      else DigitsValue(s[start..e]) as int
  }

  /** `parseFloat`: the longest prefix of `s` (after leading white space) that is an optional
      sign, digits, an optional fraction and an optional exponent; `None` stands for NaN. */
  function ParseFloat(s: string): (r: Option<Decimal>)
  {
    var t := TrimStart(s);
    var signed := t != [] && (t[0] == '-' || t[0] == '+');
    Signed(signed && t[0] == '-', UnsignedFloat(if signed then t[1..] else t))
  }

  function Signed(negative: bool, u: Option<(nat, int)>): Option<Decimal> {
    if u.None? then None else Some(Decimal(negative, u.value.0, u.value.1))
  }

  /** Mantissa and exponent of the unsigned literal at the start of `t`: digits, an optional
      point with more digits, an optional exponent; at least one digit overall. */
  function UnsignedFloat(t: string): Option<(nat, int)> {
    var ip := RunEnd(t, 0);
    var hasDot := ip < |t| && t[ip] == '.';
    var fe := if hasDot then RunEnd(t, ip + 1) else ip;
    assert AllDigits(t[..ip]);
    if ip == 0 && fe <= ip + 1 then None
    else if hasDot then
      assert AllDigits(t[ip + 1..fe]);
      Some((DigitsValue(t[..ip]) * Pow10(fe - ip - 1) + DigitsValue(t[ip + 1..fe]), ExponentPart(t[fe..]) - (fe - ip - 1)))
    else Some((DigitsValue(t[..ip]), ExponentPart(t[ip..])))
  }

  /** Text that starts with a digit is a number, and not a negative one. */
  lemma ParseLeadingDigit(t: string)
    requires t != [] && IsDigit(t[0])
    ensures ParseFloat(t).Some? && !ParseFloat(t).value.negative
  {
    ParseUnsigned(t);
    UnsignedLeadingDigit(t);
  }

  /** Without white space or a sign in front, `parseFloat` reads the unsigned literal. */
  lemma ParseUnsigned(t: string)
    requires t != [] && IsDigit(t[0])
    ensures ParseFloat(t) == Signed(false, UnsignedFloat(t))
  {
    assert TrimStart(t) == t;
  }

  lemma UnsignedLeadingDigit(t: string)
    requires t != [] && IsDigit(t[0])
    ensures UnsignedFloat(t).Some?
  {
    assert RunEnd(t, 0) >= 1;
  }

  lemma {:induction false} AllDigitsRun(t: string, i: nat)
    requires i <= |t| && forall k :: i <= k < |t| ==> IsDigit(t[k])
    ensures RunEnd(t, i) == |t|
    decreases |t| - i
  {
    if i < |t| { AllDigitsRun(t, i + 1); }
  }

  /** A run of digits alone is read as the integer it denotes. */
  lemma ParseDigits(t: string)
    requires t != [] && AllDigits(t)
    ensures ParseFloat(t) == Some(Decimal(false, DigitsValue(t), 0))
  {
    ParseUnsigned(t);
    AllDigitsRun(t, 0);
    assert t[..|t|] == t && t[|t|..] == [];
    assert ExponentPart([]) == 0;
    assert UnsignedFloat(t) == Some((DigitsValue(t), 0));
  }

  /** `parseInt(s, 10)`: optional sign and the longest run of digits after leading white
      space; `None` stands for NaN. */
  function ParseInt(s: string): (r: Option<int>)
  {
    var t0 := TrimStart(s);
    var signed := t0 != [] && (t0[0] == '+' || t0[0] == '-');
    var t := if signed then t0[1..] else t0;
    var n := RunEnd(t, 0);
    assert AllDigits(t[..n]);
    if n == 0 then None
    else if signed && t0[0] == '-' then Some(-(DigitsValue(t[..n]) as int))
    else Some(DigitsValue(t[..n]) as int)
  }

  /** Decimal digits of `n`, without leading zeros. */
  function NatToString(n: nat): (s: string)
    ensures s != [] && AllDigits(s)
    ensures DigitsValue(s) == n
  {
    if n < 10 then [DigitChar(n)]
    else
      var s := NatToString(n / 10) + [DigitChar(n % 10)];
      assert s[..|s| - 1] == NatToString(n / 10);
      s
  }

  function Zeros(k: nat): (s: string)
    ensures |s| == k && AllDigits(s)
  {
    if k == 0 then [] else Zeros(k - 1) + ['0']
  }

  /** Removes trailing zero digits of the mantissa while the exponent is negative;
      the value is unchanged. */
  function Canonical(d: Decimal): (c: Decimal)
    ensures c.negative == d.negative
    ensures c.exponent >= d.exponent
    ensures c.exponent < 0 ==> c.mantissa % 10 != 0
    ensures d.mantissa == 0 ==> c.mantissa == 0
    ensures d.mantissa > 0 ==> c.mantissa > 0
    decreases if d.exponent < 0 then -d.exponent else 0
  {
    if d.exponent < 0 && d.mantissa % 10 == 0 && d.mantissa > 0 then
      Canonical(Decimal(d.negative, d.mantissa / 10, d.exponent + 1))
    else if d.exponent < 0 && d.mantissa == 0 then Decimal(d.negative, 0, 0)
    else d
  }

  /** The text of a non-negative number as JavaScript prints it in a template string:
      integer digits, then a point and the fraction digits without trailing zeros. */
  function Show(d: Decimal): (s: string)
    requires !d.negative
    ensures s != []
  {
    var c := Canonical(d);
    if c.exponent >= 0 then NatToString(Shifted(c.mantissa, c.exponent))
    else PointText(c.mantissa, -c.exponent)
  }

  function Shifted(m: nat, e: nat): nat {
    m * Pow10(e)
  }

  /** `m / 10^k` printed with `k` fraction digits: the digits of `m`, padded with zeros to
      at least one integer digit, with a point before the last `k`. */
  function PointText(m: nat, k: nat): (s: string)
    ensures s != []
  {
    var digits := Pad(NatToString(m), k + 1);
    var n := |digits| - k;
    digits[..n] + ("." + digits[n..])
  }

  /** `f` preceded by zeros up to length `k`. */
  function Pad(f: string, k: nat): (s: string)
    ensures |s| >= |f| && |s| >= k
  {
    if |f| < k then Zeros(k - |f|) + f else f
  }

  // ---------------------------------------------------------------------------------------
  // Printing and reading back

  /** Stripping trailing zeros keeps the value. */
  lemma {:induction false} CanonicalValue(d: Decimal)
    ensures Value(Canonical(d)) == Value(d)
    decreases if d.exponent < 0 then -d.exponent else 0
  {
    if d.exponent < 0 && d.mantissa % 10 == 0 && d.mantissa > 0 {
      var q := d.mantissa / 10;
      var d' := Decimal(d.negative, q, d.exponent + 1);
      CanonicalValue(d');
      assert Canonical(d) == Canonical(d');
      assert d == Decimal(d.negative, 10 * q, d.exponent);
      ShiftValue(d.negative, q, d.exponent);
    } else if d.exponent < 0 && d.mantissa == 0 {
      ZeroValue(d.negative, d.exponent);
      ZeroValue(d.negative, 0);
    }
  }

  lemma ShiftValue(negative: bool, q: nat, e: int)
    requires e < 0
    ensures Value(Decimal(negative, 10 * q, e)) == Value(Decimal(negative, q, e + 1))
  {
    ScaleStep(e);
    var sg := if negative then -1.0 else 1.0;
    RealShift(sg, (10 * q) as real, q as real, Scale(e), Scale(e + 1));
  }

  lemma ZeroValue(negative: bool, e: int)
    ensures Value(Decimal(negative, 0, e)) == 0.0
  {
  }

  lemma RealShift(sg: real, m: real, m': real, sc: real, sc': real)
    requires m == 10.0 * m' && sc' == 10.0 * sc
    ensures sg * m * sc == sg * m' * sc'
  {
  }

  lemma ScaleStep(e: int)
    requires e < 0
    ensures Scale(e + 1) == 10.0 * Scale(e)
  {
  }

  lemma {:induction false} DigitsValueAppend(a: string, b: string)
    requires AllDigits(a) && AllDigits(b)
    ensures AllDigits(a + b) && DigitsValue(a + b) == DigitsValue(a) * Pow10(|b|) + DigitsValue(b)
    decreases |b|
  {
    if b == [] {
      assert a + b == a;
    } else {
      var b' := b[..|b| - 1];
      var ab := a + b;
      assert ab[..|ab| - 1] == a + b';
      assert ab[|ab| - 1] == b[|b| - 1];
      DigitsValueAppend(a, b');
      var x, p, y, l := DigitsValue(a), Pow10(|b'|), DigitsValue(b'), DigitValue(b[|b| - 1]);
      assert DigitsValue(ab) == DigitsValue(a + b') * 10 + l;
      assert DigitsValue(b) == y * 10 + l;
      assert Pow10(|b|) == 10 * p;
      MulShift(x, p, y, l);
    }
  }

  lemma MulShift(x: int, p: int, y: int, l: int)
    ensures (x * p + y) * 10 + l == x * (10 * p) + (y * 10 + l)
  {
  }

  lemma {:induction false} ZerosValue(k: nat)
    ensures DigitsValue(Zeros(k)) == 0
  {
    if k > 0 {
      assert Zeros(k)[..k - 1] == Zeros(k - 1);
      ZerosValue(k - 1);
    }
  }

  /** Padding with leading zeros changes neither the value nor, below `10^k`, the length `k`. */
  lemma {:induction false} PadValue(f: string, k: nat)
    requires AllDigits(f)
    ensures AllDigits(Pad(f, k)) && DigitsValue(Pad(f, k)) == DigitsValue(f)
    ensures |f| <= k ==> |Pad(f, k)| == k
  {
    if |f| < k {
      LeadingZeros(k - |f|, f);
    }
  }

  /** Leading zeros change nothing of the value of a run of digits. */
  lemma LeadingZeros(n: nat, f: string)
    requires AllDigits(f)
    ensures AllDigits(Zeros(n) + f) && DigitsValue(Zeros(n) + f) == DigitsValue(f)
  {
    var z := Zeros(n);
    DigitsValueAppend(z, f);
    ZerosValue(n);
    var x, p := DigitsValue(z), Pow10(|f|);
    assert x == 0;
    assert x * p == 0;
  }

  lemma {:induction false} NatToStringLength(n: nat, k: nat)
    requires k >= 1 && n < Pow10(k)
    ensures |NatToString(n)| <= k
  {
    if n >= 10 {
      assert n / 10 < Pow10(k - 1);
      NatToStringLength(n / 10, k - 1);
    }
  }

  lemma {:induction false} RunEndStops(a: string, b: string, i: nat)
    requires i <= |a| && AllDigits(a) && (b == [] || !IsDigit(b[0]))
    ensures RunEnd(a + b, i) == |a|
    decreases |a| - i
  {
    if i < |a| {
      RunEndStops(a, b, i + 1);
    }
  }

  /** Digits, a point and more digits, and nothing else, read back as one mantissa over a
      power of ten. */
  lemma ParsePointAt(t: string, ip: nat, m: nat, e: int)
    requires 0 < ip && ip + 1 < |t| && t[ip] == '.'
    requires forall k :: 0 <= k < ip ==> IsDigit(t[k])
    requires forall k :: ip < k < |t| ==> IsDigit(t[k])
    requires AllDigits(t[..ip]) && AllDigits(t[ip + 1..])
    requires m == DigitsValue(t[..ip]) * Pow10(|t| - ip - 1) + DigitsValue(t[ip + 1..])
    requires e == ip + 1 - |t|
    ensures ParseFloat(t).Some? && ParseFloat(t).value == Decimal(false, m, e)
  {
    RunEndAt(t, 0, ip);
    AllDigitsRun(t, ip + 1);
    UnsignedWithPoint(t, ip, |t|);
    assert t[ip + 1..|t|] == t[ip + 1..];
    assert ExponentPart(t[|t|..]) == 0 by { assert t[|t|..] == []; }
    ParseUnsignedAs(t, m, e);
  }

  lemma {:induction false} RunEndAt(t: string, i: nat, e: nat)
    requires i <= e < |t| && !IsDigit(t[e]) && forall k :: i <= k < e ==> IsDigit(t[k])
    ensures RunEnd(t, i) == e
    decreases e - i
  {
    if i < e { RunEndAt(t, i + 1, e); }
  }

  lemma ParseUnsignedAs(t: string, m: nat, e: int)
    requires t != [] && IsDigit(t[0]) && UnsignedFloat(t).Some?
    requires UnsignedFloat(t).value.0 == m && UnsignedFloat(t).value.1 == e
    ensures ParseFloat(t).Some? && ParseFloat(t).value == Decimal(false, m, e)
  {
    ParseUnsigned(t);
  }

  /** `parseFloat`'s reading of digits, a point and digits up to `fe`, as an equation. */
  lemma UnsignedWithPoint(t: string, ip: nat, fe: nat)
    requires RunEnd(t, 0) == ip && ip < |t| && t[ip] == '.' && RunEnd(t, ip + 1) == fe && 0 < ip
    ensures AllDigits(t[..ip]) && AllDigits(t[ip + 1..fe])
    ensures UnsignedFloat(t).Some?
    ensures UnsignedFloat(t).value.0 == DigitsValue(t[..ip]) * Pow10(fe - ip - 1) + DigitsValue(t[ip + 1..fe])
    ensures UnsignedFloat(t).value.1 == ExponentPart(t[fe..]) - (fe - ip - 1)
  {
  }

  /** The characters of digits, a point and digits. */
  lemma PointShape(a: string, f: string)
    requires AllDigits(a) && AllDigits(f)
    ensures (a + ("." + f))[|a|] == '.' && |a + ("." + f)| == |a| + 1 + |f|
    ensures forall k :: 0 <= k < |a| ==> IsDigit((a + ("." + f))[k])
    ensures forall k :: |a| < k < |a + ("." + f)| ==> IsDigit((a + ("." + f))[k])
    ensures (a + ("." + f))[..|a|] == a && (a + ("." + f))[|a| + 1..] == f
  {
    var t := a + ("." + f);
    forall k | |a| < k < |t| ensures IsDigit(t[k]) {
      assert t[k] == f[k - |a| - 1];
    }
  }

  /** `m / 10^k` printed with `k` fraction digits reads back as exactly `m` over `10^k`. */
  lemma PointTextParses(m: nat, k: nat)
    requires k > 0
    ensures ParseFloat(PointText(m, k)).Some?
    ensures ParseFloat(PointText(m, k)).value == Decimal(false, m, -(k as int))
  {
    var a, g := PointTextParts(m, k);
    PointShape(a, g);
    var t := a + ("." + g);
    assert |t| - |a| - 1 == k;
    var e: int := -(k as int);
    ParsePointAt(t, |a|, m, e);
  }

  /** The two digit runs of `PointText` and the mantissa they spell. */
  lemma PointTextParts(m: nat, k: nat) returns (a: string, g: string)
    requires k > 0
    ensures PointText(m, k) == a + ("." + g)
    ensures a != [] && AllDigits(a) && AllDigits(g) && |g| == k
    ensures DigitsValue(a) * Pow10(k) + DigitsValue(g) == m
  {
    var digits := Pad(NatToString(m), k + 1);
    PadValue(NatToString(m), k + 1);
    var n := |digits| - k;
    a, g := SplitDigits(digits, n);
  }

  /** A run of digits cut in two: both parts are digit runs, and their values recombine. */
  lemma SplitDigits(digits: string, n: nat) returns (a: string, g: string)
    requires AllDigits(digits) && n <= |digits|
    ensures a == digits[..n] && g == digits[n..] && a + g == digits
    ensures AllDigits(a) && AllDigits(g)
    ensures DigitsValue(a) * Pow10(|g|) + DigitsValue(g) == DigitsValue(digits)
  {
    assert digits[..n] + digits[n..] == digits;
    a := digits[..n];
    g := digits[n..];
    assert AllDigits(a) && AllDigits(g) by {
      forall i | 0 <= i < |a| ensures IsDigit(a[i]) { assert a[i] == digits[i]; }
      forall i | 0 <= i < |g| ensures IsDigit(g[i]) { assert g[i] == digits[n + i]; }
    }
    DigitsValueAppend(a, g);
  }

  /** `Show` prints digits and at most a decimal point. */
  lemma ShowChars(d: Decimal)
    requires !d.negative
    ensures forall i :: 0 <= i < |Show(d)| ==> IsDigit(Show(d)[i]) || Show(d)[i] == '.'
  {
    var c := Canonical(d);
    if c.exponent < 0 {
      var k: nat := -c.exponent;
      var a, g := PointTextParts(c.mantissa, k);
      assert Show(d) == a + ("." + g);
    }
  }

  /** A non-negative number printed by `Show` reads back through `parseFloat` as the same
      value. */
  lemma ShowParses(d: Decimal)
    requires !d.negative
    ensures ParseFloat(Show(d)).Some? && !ParseFloat(Show(d)).value.negative
    ensures Value(ParseFloat(Show(d)).value) == Value(d)
  {
    var c := Canonical(d);
    CanonicalValue(d);
    if c.exponent >= 0 {
      assert Show(d) == NatToString(Shifted(c.mantissa, c.exponent));
      WholeParses(c.mantissa, c.exponent);
    } else {
      var k: nat := -c.exponent;
      assert Show(d) == PointText(c.mantissa, k);
      PointTextParses(c.mantissa, k);
      assert Decimal(false, c.mantissa, -(k as int)) == c;
    }
  }

  /** The digits of `m * 10^e` read back as that many units. */
  lemma WholeParses(m: nat, e: nat)
    ensures ParseFloat(NatToString(Shifted(m, e))).Some?
    ensures !ParseFloat(NatToString(Shifted(m, e))).value.negative
    ensures Value(ParseFloat(NatToString(Shifted(m, e))).value) == Value(Decimal(false, m, e))
  {
    var n := Shifted(m, e);
    ParseDigits(NatToString(n));
    WholeValue(m, e, n);
  }

  lemma WholeValue(m: nat, e: nat, n: nat)
    requires n == m * Pow10(e)
    ensures Value(Decimal(false, n, 0)) == Value(Decimal(false, m, e))
  {
    var p := Pow10(e);
    RealMul(m, p);
    ScaleWhole(e);
    PositiveValue(Decimal(false, n, 0));
    PositiveValue(Decimal(false, m, e));
    ScaledProduct(n as real, m as real, p as real, Scale(0), Scale(e));
  }

  lemma PositiveValue(d: Decimal)
    requires !d.negative
    ensures Value(d) == (d.mantissa as real) * Scale(d.exponent)
  {
  }

  lemma ScaledProduct(nr: real, mr: real, pr: real, s0: real, se: real)
    requires nr == mr * pr && s0 == 1.0 && se == pr
    ensures nr * s0 == mr * se
  {
  }

  lemma RealMul(x: int, y: int)
    ensures (x * y) as real == (x as real) * (y as real)
  {
  }
}
