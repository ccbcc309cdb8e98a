/** Decimal arithmetic as the storefront uses it.  Amounts of money are whole
    paise (hundredths of a rupee); a general `Decimal` value such as a tax
    rate or a carrier's quoted rate is `units / 10^scale`.
    `Decimal.quantize(Decimal("0.01"))` in the default context rounds half to
    even, which `RoundHalfEven` models. */
module Money {
  import opened Basics
  import opened Text

  function Pow10(n: nat): (p: nat)
    ensures p >= 1
  {
    if n == 0 then 1 else 10 * Pow10(n - 1)
  }

  /** The integer nearest to `num / den`, ties going to the even neighbour. */
  function RoundHalfEven(num: int, den: int): (r: int)
    requires den > 0
    ensures -den <= 2 * (num - r * den) <= den
    ensures 2 * (num - r * den) == den ==> r % 2 == 0
    ensures 2 * (num - r * den) == -den ==> r % 2 == 0
  {
    var q := num / den;
    var rem := num % den;
    DivModFacts(num, den);
    if 2 * rem < den then q
    else if 2 * rem > den then q + 1
    else if q % 2 == 0 then q
    else q + 1
  }

  lemma DivModFacts(num: int, den: int)
    requires den > 0
    ensures 0 <= num % den < den
    ensures num - (num / den) * den == num % den
    ensures num - (num / den + 1) * den == num % den - den
  {
    MulSub(num / den + 1, 1, den);
  }

  /** How far a multiple of `den` is from zero, by the sign of `k`. */
  lemma MulBounds(k: int, den: int)
    requires den > 0
    ensures k >= 1 ==> k * den >= den
    ensures k >= 2 ==> k * den >= 2 * den
    ensures k <= -1 ==> k * den <= -den
    ensures k <= -2 ==> k * den <= -2 * den
  {
    if k >= 1 {
      MulAtLeast(k, den);
    } else if k <= -1 {
      MulAtLeast(-k, den);
      assert (-k) * den == -(k * den);
    }
  }

  lemma MulSub(a: int, b: int, c: int)
    ensures (a - b) * c == a * c - b * c
  {
  }

  /** Half-even rounding is pinned down by its contract: any integer within
      half a unit of `num / den`, and even at a tie, is the rounded value. */
  lemma RoundHalfEvenUnique(num: int, den: int, r: int)
    requires den > 0
    requires -den <= 2 * (num - r * den) <= den
    requires 2 * (num - r * den) == den ==> r % 2 == 0
    requires 2 * (num - r * den) == -den ==> r % 2 == 0
    ensures r == RoundHalfEven(num, den)
  {
    var s := RoundHalfEven(num, den);
    DiffOfMultiples(s, r, den);
    TieArgument(num, den, r, s, r * den, s * den);
  }

  /** Multiples of `den` by integers that differ by `k` differ by `k * den`,
      stated for the small cases the rounding arguments need. */
  lemma DiffOfMultiples(s: int, r: int, den: int)
    requires den > 0
    ensures s - r >= 2 ==> s * den - r * den >= 2 * den
    ensures s - r == 1 ==> s * den - r * den == den
    ensures s - r == 0 ==> s * den - r * den == 0
    ensures s - r == -1 ==> s * den - r * den == -den
    ensures s - r <= -2 ==> s * den - r * den <= -2 * den
  {
    MulSub(s, r, den);
    MulBounds(s - r, den);
  }

  /** The linear core of uniqueness, with the two multiples `rd == r * den`
      and `sd == s * den` as plain numbers: two candidates one unit apart
      are both at a tie, and two adjacent integers cannot both be even. */
  lemma TieArgument(num: int, den: int, r: int, s: int, rd: int, sd: int)
    requires den > 0
    requires -den <= 2 * (num - rd) <= den && -den <= 2 * (num - sd) <= den
    requires 2 * (num - rd) == den ==> r % 2 == 0
    requires 2 * (num - rd) == -den ==> r % 2 == 0
    requires 2 * (num - sd) == den ==> s % 2 == 0
    requires 2 * (num - sd) == -den ==> s % 2 == 0
    requires s - r >= 2 ==> sd - rd >= 2 * den
    requires s - r == 1 ==> sd - rd == den
    requires s - r == 0 ==> sd - rd == 0
    requires s - r == -1 ==> sd - rd == -den
    requires s - r <= -2 ==> sd - rd <= -2 * den
    ensures r == s
  {
  }

  /** An exact quotient is returned unchanged. */
  lemma RoundHalfEvenExact(k: int, den: int)
    requires den > 0
    ensures RoundHalfEven(k * den, den) == k
  {
    RoundHalfEvenUnique(k * den, den, k);
  }

  /** Rounding preserves the sign of a non-negative quotient. */
  lemma RoundHalfEvenNonNegative(num: int, den: int)
    requires den > 0 && num >= 0
    ensures RoundHalfEven(num, den) >= 0
  {
    MulBounds(RoundHalfEven(num, den), den);
  }

  lemma MulAtLeast(k: int, den: int)
    requires den > 0 && k >= 1
    ensures k * den >= den
    ensures k >= 2 ==> k * den >= 2 * den
  {
    assert k * den == den + (k - 1) * den;
    assert (k - 1) * den >= 0;
    if k >= 2 {
      assert k * den == 2 * den + (k - 2) * den;
      assert (k - 2) * den >= 0;
    }
  }

  /** Rounding respects the order of the numerators. */
  lemma RoundHalfEvenMonotone(a: int, b: int, den: int)
    requires den > 0 && a <= b
    ensures RoundHalfEven(a, den) <= RoundHalfEven(b, den)
  {
    var ra := RoundHalfEven(a, den);
    var rb := RoundHalfEven(b, den);
    DiffOfMultiples(ra, rb, den);
    MonotoneArgument(a, b, den, ra, rb, ra * den, rb * den);
  }

  /** The linear core of monotonicity, with `rad == ra * den` and
      `rbd == rb * den`. */
  lemma MonotoneArgument(a: int, b: int, den: int, ra: int, rb: int, rad: int, rbd: int)
    requires den > 0 && a <= b
    requires -den <= 2 * (a - rad) <= den && -den <= 2 * (b - rbd) <= den
    requires 2 * (a - rad) == -den ==> ra % 2 == 0
    requires 2 * (b - rbd) == den ==> rb % 2 == 0
    requires ra - rb >= 2 ==> rad - rbd >= 2 * den
    requires ra - rb == 1 ==> rad - rbd == den
    ensures ra <= rb
  {
  }

  /** A `Decimal` with value `units / 10^scale`; `Dec(1850, 2)` is 18.50. */
  datatype Dec = Dec(units: int, scale: nat)

  /** `Decimal(str(n))` for an integer setting such as a rupee amount. */
  function FromInt(n: int): Dec { Dec(n, 0) }

  /** An amount in paise as a two-place decimal. */
  function FromPaise(p: int): Dec { Dec(p, 2) }

  /** The number a `Dec` stands for; `Decimal` compares by this value,
      whatever the scales. */
  function Value(d: Dec): real
  {
    d.units as real / Pow10(d.scale) as real
  }

  /** `d.quantize(Decimal("0.01"))`, as paise. */
  function QuantizeToPaise(d: Dec): (p: int)
    ensures -(Pow10(d.scale) as int) <= 2 * (d.units * 100 - p * Pow10(d.scale)) <= Pow10(d.scale)
  {
    RoundHalfEven(d.units * 100, Pow10(d.scale))
  }

  /** `(amount * rate).quantize(Decimal("0.01"))` for an amount in paise. */
  function ApplyRate(amount: int, rate: Dec): (p: int)
    ensures -(Pow10(rate.scale) as int) <= 2 * (amount * rate.units - p * Pow10(rate.scale)) <= Pow10(rate.scale)
  {
    RoundHalfEven(amount * rate.units, Pow10(rate.scale))
  }

  /** `(amount * Decimal(pct) / Decimal("100")).quantize(Decimal("0.01"))`. */
  function PercentOf(amount: int, pct: nat): (p: int)
    ensures -100 <= 2 * (amount * pct - p * 100) <= 100
  {
    RoundHalfEven(amount * pct, 100)
  }

  lemma {:induction false} Pow10Add(a: nat, b: nat)
    ensures Pow10(a + b) == Pow10(a) * Pow10(b)
    decreases a
  {
    if a > 0 {
      Pow10Add(a - 1, b);
      assert Pow10(a + b) == 10 * Pow10(a - 1 + b);
    }
  }

  /** A two-place amount quantizes to itself. */
  lemma QuantizePaiseExact(p: int)
    ensures QuantizeToPaise(FromPaise(p)) == p
  {
    assert Pow10(2) == 100;
    RoundHalfEvenExact(p, 100);
  }

  /** A whole-rupee amount quantizes to a hundred paise per rupee. */
  lemma QuantizeIntExact(n: int)
    ensures QuantizeToPaise(FromInt(n)) == n * 100
  {
    assert Pow10(0) == 1;
    RoundHalfEvenExact(n * 100, 1);
  }

  // ---------------------------------------------------------------------
  // `str(Decimal)` and `Decimal(str)` for plain decimal notation.

  function Zeros(n: nat): (s: string)
    ensures |s| == n && AllDigits(s)
    ensures forall i :: 0 <= i < n ==> s[i] == '0'
  {
    if n == 0 then [] else "0" + Zeros(n - 1)
  }

  /** Left-pads a digit string with zeros to at least `n` characters. */
  function PadLeft(s: string, n: nat): (r: string)
    ensures |r| >= n && |r| >= |s|
  {
    if |s| < n then Zeros(n - |s|) + s else s
  }

  function Abs(i: int): nat { if i < 0 then -i else i }

  /** The digits of `|d.units|`, padded so that at least one digit precedes
      the decimal point. */
  function DecDigits(d: Dec): (s: string)
    ensures |s| > d.scale && AllDigits(s)
  {
    var n := NatToString(Abs(d.units));
    PadLeftDigits(n, d.scale + 1);
    PadLeft(n, d.scale + 1)
  }

  /** Inserts a decimal point before the last `scale` digits. */
  function PointAt(digits: string, scale: nat): (s: string)
    requires |digits| > scale
    ensures |s| >= 1
  {
    if scale == 0 then digits
    else digits[..|digits| - scale] + "." + digits[|digits| - scale..]
  }

  /** Renders `d` in plain notation with exactly `d.scale` fractional digits,
      as `str()` does for a Decimal of that exponent. */
  function DecToString(d: Dec): (s: string)
    ensures |s| >= 1
  {
    var body := PointAt(DecDigits(d), d.scale);
    if d.units < 0 then "-" + body else body
  }

  /** An unsigned plain decimal: digits with at most one point and at least
      one digit; the value of all digits and the number after the point. */
  function ParseUnsigned(body: string): (r: Option<(nat, nat)>)
  {
    match IndexOf(body, '.')
    case None =>
      if body != [] && AllDigits(body) then Some((DigitsValue(body), 0)) else None
    case Some(i) =>
      var ip := body[..i];
      var fp := body[i + 1..];
      if AllDigits(ip) && AllDigits(fp) && |ip| + |fp| > 0 then
        Some((DigitsValue(ip) * Pow10(|fp|) + DigitsValue(fp), |fp|))
      else None
  }

  /** `Decimal(s)` on plain notation: surrounding whitespace, an optional sign,
      then an unsigned plain decimal.  The scale is the number of digits after
      the point, which `Decimal` keeps. */
  function ParseDecimal(s: string): (r: Option<Dec>)
    ensures r.Some? ==> Trim(Python, s) != []
  {
    var t := Trim(Python, s);
    var signed := t != [] && (t[0] == '-' || t[0] == '+');
    var negative := t != [] && t[0] == '-';
    match ParseUnsigned(if signed then t[1..] else t)
    case None => None
    case Some((v, k)) =>
      var u: int := v;
      Some(Dec(if negative then -u else u, k))
  }

  lemma AllDigitsAppend(a: string, b: string)
    requires AllDigits(a) && AllDigits(b)
    ensures AllDigits(a + b)
  {
    assert forall i :: 0 <= i < |a + b| ==> (a + b)[i] == if i < |a| then a[i] else b[i - |a|];
  }

  lemma {:induction false} DigitsValueAppend(a: string, b: string)
    requires AllDigits(a) && AllDigits(b)
    ensures AllDigits(a + b)
    ensures DigitsValue(a + b) == DigitsValue(a) * Pow10(|b|) + DigitsValue(b)
    decreases |b|
  {
    AllDigitsAppend(a, b);
    if b == [] {
      assert a + b == a;
    } else {
      var b' := b[..|b| - 1];
      AllDigitsAppend(a, b');
      assert (a + b)[..|a + b| - 1] == a + b';
      DigitsValueAppend(a, b');
      DigitsValueStep(a + b, a + b');
      DigitsValueStep(b, b');
      assert (a + b)[|a + b| - 1] == b[|b| - 1];
      assert Pow10(|b|) == Pow10(|b'|) * 10;
      ShiftDigit(DigitsValue(a), DigitsValue(b'), Pow10(|b'|), DigitValue(b[|b| - 1]));
    }
  }

  lemma ShiftDigit(va: int, vb: int, p: int, d: int)
    ensures (va * p + vb) * 10 + d == va * (p * 10) + (vb * 10 + d)
  {
  }

  /** One unfolding of `DigitsValue`, with the prefix named. */
  lemma DigitsValueStep(s: string, init: string)
    requires AllDigits(s) && s != [] && init == s[..|s| - 1]
    ensures AllDigits(init)
    ensures DigitsValue(s) == DigitsValue(init) * 10 + DigitValue(s[|s| - 1])
  {
  }

  lemma {:induction false} DigitsValueZeros(n: nat)
    ensures DigitsValue(Zeros(n)) == 0
    decreases n
  {
    if n > 0 {
      assert Zeros(n)[..n - 1] == Zeros(n - 1) by {
        ZerosSnoc(n - 1);
      }
      DigitsValueZeros(n - 1);
    }
  }

  lemma ZerosSnoc(n: nat)
    ensures Zeros(n + 1) == Zeros(n) + "0"
  {
  }

  lemma PadLeftDigits(s: string, n: nat)
    requires AllDigits(s)
    ensures AllDigits(PadLeft(s, n)) && DigitsValue(PadLeft(s, n)) == DigitsValue(s)
  {
    if |s| < n {
      DigitsValueAppend(Zeros(n - |s|), s);
      DigitsValueZeros(n - |s|);
    }
  }

  lemma DecDigitsValue(d: Dec)
    ensures DigitsValue(DecDigits(d)) == Abs(d.units)
  {
    DigitsValueOfNatToString(Abs(d.units));
    PadLeftDigits(NatToString(Abs(d.units)), d.scale + 1);
  }

  lemma {:induction false} IndexOfAfterDigits(ip: string, rest: string)
    requires AllDigits(ip)
    ensures IndexOf(ip + "." + rest, '.') == Some(|ip|)
    decreases |ip|
  {
    if ip != [] {
      assert (ip + "." + rest)[1..] == ip[1..] + "." + rest;
      IndexOfAfterDigits(ip[1..], rest);
    }
  }

  lemma {:induction false} IndexOfInDigits(s: string)
    requires AllDigits(s)
    ensures IndexOf(s, '.') == None
    decreases |s|
  {
    if s != [] {
      IndexOfInDigits(s[1..]);
    }
  }

  lemma SlicesAroundPoint(ip: string, fp: string)
    ensures (ip + "." + fp)[..|ip|] == ip
    ensures (ip + "." + fp)[|ip| + 1..] == fp
  {
  }

  lemma ParseUnsignedSplit(body: string, ip: string, fp: string)
    requires AllDigits(ip) && AllDigits(fp) && |ip| > 0
    requires |body| > |ip| && IndexOf(body, '.') == Some(|ip|)
    requires body[..|ip|] == ip && body[|ip| + 1..] == fp
    ensures ParseUnsigned(body) == Some((DigitsValue(ip) * Pow10(|fp|) + DigitsValue(fp), |fp|))
  {
  }

  lemma ParseUnsignedPointAt(digits: string, scale: nat)
    requires |digits| > scale && AllDigits(digits)
    ensures ParseUnsigned(PointAt(digits, scale)) == Some((DigitsValue(digits), scale))
  {
    if scale == 0 {
      ParseUnsignedWhole(digits);
    } else {
      ParseUnsignedFraction(digits, scale);
    }
  }

  lemma ParseUnsignedWhole(digits: string)
    requires |digits| > 0 && AllDigits(digits)
    ensures ParseUnsigned(PointAt(digits, 0)) == Some((DigitsValue(digits), 0))
  {
    IndexOfInDigits(digits);
  }

  lemma ParseUnsignedFraction(digits: string, scale: nat)
    requires |digits| > scale > 0 && AllDigits(digits)
    ensures ParseUnsigned(PointAt(digits, scale)) == Some((DigitsValue(digits), scale))
  {
    var k := |digits| - scale;
    AllDigitsSlices(digits, k);
    ParseUnsignedJoined(digits[..k], digits[k..]);
  }

  lemma AllDigitsSlices(digits: string, k: nat)
    requires k <= |digits| && AllDigits(digits)
    ensures AllDigits(digits[..k]) && AllDigits(digits[k..])
    ensures digits[..k] + digits[k..] == digits
  {
    assert forall i :: 0 <= i < k ==> digits[..k][i] == digits[i];
    assert forall i :: 0 <= i < |digits| - k ==> digits[k..][i] == digits[k + i];
  }

  lemma ParseUnsignedJoined(ip: string, fp: string)
    requires AllDigits(ip) && AllDigits(fp) && |ip| > 0
    ensures AllDigits(ip + fp)
    ensures ParseUnsigned(ip + "." + fp) == Some((DigitsValue(ip + fp), |fp|))
  {
    DigitsValueAppend(ip, fp);
    IndexOfAfterDigits(ip, fp);
    SlicesAroundPoint(ip, fp);
    ParseUnsignedSplit(ip + "." + fp, ip, fp);
  }

  lemma ParseDecimalPlain(body: string, v: nat, k: nat)
    requires |body| > 0 && IsDigit(body[0]) && IsDigit(body[|body| - 1])
    requires ParseUnsigned(body) == Some((v, k))
    ensures ParseDecimal(body) == Some(Dec(v, k))
  {
    TrimOfDigits(Python, body);
    var t := Trim(Python, body);
    assert t == body;
    assert !(t[0] == '-' || t[0] == '+');
    assert ParseUnsigned(t) == Some((v, k));
  }

  lemma ParseDecimalNegative(body: string, v: nat, k: nat)
    requires |body| > 0 && IsDigit(body[0]) && IsDigit(body[|body| - 1])
    requires ParseUnsigned(body) == Some((v, k))
    ensures ParseDecimal("-" + body) == Some(Dec(-(v as int), k))
  {
    var s := "-" + body;
    NegatedTrimmed(body);
    var t := Trim(Python, s);
    assert t[0] == '-' && t[1..] == body;
    assert ParseUnsigned(t[1..]) == Some((v, k));
  }

  lemma NegatedTrimmed(body: string)
    requires |body| > 0 && IsDigit(body[|body| - 1])
    ensures ("-" + body)[0] == '-' && ("-" + body)[1..] == body
    ensures Trim(Python, "-" + body) == "-" + body
  {
    var s := "-" + body;
    var c := body[|body| - 1];
    assert s[|s| - 1] == c;
    assert !IsSpace(Python, c);
    TrimOfDigits(Python, s);
  }

  lemma PointAtEnds(digits: string, scale: nat)
    requires |digits| > scale && AllDigits(digits)
    ensures var b := PointAt(digits, scale); IsDigit(b[0]) && IsDigit(b[|b| - 1])
  {
    if scale > 0 {
      var b := PointAt(digits, scale);
      assert b[0] == digits[0];
      assert b[|b| - 1] == digits[|digits| - 1];
    }
  }

  /** `Decimal(str(d)) == d`, scale included. */
  lemma ParseDecimalOfDecToString(d: Dec)
    ensures ParseDecimal(DecToString(d)) == Some(d)
  {
    var digits := DecDigits(d);
    var body := PointAt(digits, d.scale);
    var v := Abs(d.units);
    assert ParseUnsigned(body) == Some((v, d.scale)) by {
      DecDigitsValue(d);
      ParseUnsignedPointAt(digits, d.scale);
    }
    assert IsDigit(body[0]) && IsDigit(body[|body| - 1]) by {
      PointAtEnds(digits, d.scale);
    }
    if d.units < 0 {
      assert DecToString(d) == "-" + body;
      ParseDecimalNegative(body, v, d.scale);
    } else {
      assert DecToString(d) == body;
      ParseDecimalPlain(body, v, d.scale);
    }
  }
}
