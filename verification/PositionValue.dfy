/**
 The value of a position: shares times a price given as a decimal string.  The price of an Aave
 reserve is its liquidity index, printed with 27 decimals and parsed back.

 `formatUnits` and `parseUnits` of the viem library are modelled for non-negative numerals without
 rounding: `parseUnits` of a fraction longer than its scale is not part of this model (None).
 */
module PositionValue {
  import opened Options
  import opened Digits
  import opened Amounts

  const RAY_DIGITS := 27

  /** `formatUnits(value, decimals)`. */
  function FormatUnits(value: nat, decimals: nat): string {
    var display := PadStart(ToText(value), decimals);
    PaddedLength(ToText(value), decimals);
    var cut := |display| - decimals;
    var integer := if display[..cut] == "" then "0" else display[..cut];
    var fraction := TrimZeros(display[cut..]);
    if fraction != "" then integer + "." + fraction else integer
  }

  lemma PaddedLength(s: string, n: nat)
    ensures |PadStart(s, n)| >= n
  {
  }

  /** The pattern `parseUnits` accepts, without a sign: digits, an optional dot, digits. */
  predicate IsDecimal(s: string) {
    AllDigits(Whole(s)) && AllDigits(Fraction(s))
  }

  /** `parseUnits(s, decimals)` when no digit has to be rounded away. */
  function ParseUnits(s: string, decimals: nat): Option<nat> {
    if !IsDecimal(s) then None
    else
      var fraction := TrimZeros(Fraction(s));
      if |fraction| > decimals then None
      else
        TrimmedDigits(Fraction(s), decimals);
        Some(Value(Whole(s) + PadEnd(fraction, decimals)))
  }

  lemma TrimmedDigits(s: string, n: nat)
    requires AllDigits(s)
    ensures AllDigits(PadEnd(TrimZeros(s), n))
  {
  }

  /** Shares times a parsed price, at a scale of `digits` decimals, rounded down. */
  function Worth(shares: nat, price: nat, digits: nat): (v: nat)
    ensures IsFloor(v, shares * price, Pow10(digits))
  {
    QuotRem(shares * price, Pow10(digits)).0
  }

  function Priced(shares: nat, price: Option<nat>, digits: nat): Option<nat> {
    if price.None? then None else Some(Worth(shares, price.value, digits))
  }

  /** `computeCurrentValue`; None is an exception of `parseUnits`. */
  function CurrentValue(shares: nat, sharePrice: string, assetDecimals: nat, shareDecimals: nat): Option<nat> {
    if shares == 0 then Some(0)
    else if shareDecimals == assetDecimals then Priced(shares, ParseUnits(sharePrice, RAY_DIGITS), RAY_DIGITS)
    else Priced(shares, ParseUnits(sharePrice, assetDecimals), shareDecimals)
  }

  /** Which price, at which scale, and what is thrown: the cases of `computeCurrentValue`. */
  lemma ValueMeans(shares: nat, sharePrice: string, assetDecimals: nat, shareDecimals: nat)
    ensures
      var v := CurrentValue(shares, sharePrice, assetDecimals, shareDecimals);
      var price := ParseUnits(sharePrice, if shareDecimals == assetDecimals then 27 else assetDecimals);
      && (v.None? <==> shares != 0 && price.None?)
      && (shares == 0 ==> v == Some(0))
      && (v.Some? && price.Some? ==>
            IsFloor(v.value, shares * price.value, Pow10(if shareDecimals == assetDecimals then 27 else shareDecimals)))
  {
    assert 0 * Pow10(27) == 0;
  }

  /** Every accepted numeral: what its digits are worth at the scale, without loss. */
  lemma ParseUnitsMeans(w: string, f: string, d: nat)
    requires AllDigits(w) && AllDigits(f)
    ensures AllDigits(w + f) && ParseUnits(w, d) == Some(Value(w) * Pow10(d))
    ensures
      var v := ParseUnits(w + "." + f, d);
      && (v.Some? <==> |TrimZeros(f)| <= d)
      && (v.Some? ==> v.value * Pow10(|f|) == Value(w + f) * Pow10(d))
  {
    DotAfterDigits(w, f);
    assert TrimZeros("") == "";
    ScaledDigits(w, "", d);
    assert w + "" == w;
    if |TrimZeros(f)| <= d { TrimmedScale(w, f, d); }
  }

  lemma ScaledDigits(w: string, f: string, d: nat)
    requires AllDigits(w) && AllDigits(f) && |f| <= d
    ensures AllDigits(w + f) && AllDigits(w + PadEnd(f, d)) && Value(w + PadEnd(f, d)) == Value(w + f) * Pow10(d - |f|)
  {
    assert w + PadEnd(f, d) == (w + f) + Zeros(d - |f|);
    ValueAppends(w + f, Zeros(d - |f|));
    ValueOfZeros(d - |f|);
  }

  lemma TrimmedScale(w: string, f: string, d: nat)
    requires AllDigits(w) && AllDigits(f) && |TrimZeros(f)| <= d
    ensures AllDigits(w + f) && AllDigits(w + PadEnd(TrimZeros(f), d))
    ensures Value(w + PadEnd(TrimZeros(f), d)) * Pow10(|f|) == Value(w + f) * Pow10(d)
  {
    var t := TrimZeros(f);
    TrimmedPart(f);
    ScaledDigits(w, t, d);
    ScaledDigits(w, t, |f|);
    assert PadEnd(t, |f|) == f;
    Pow10Adds(d - |t|, |f|);
    Pow10Adds(|f| - |t|, d);
    MulAssociates(Value(w + t), Pow10(d - |t|), Pow10(|f|));
    MulAssociates(Value(w + t), Pow10(|f| - |t|), Pow10(d));
  }

  predicate IsNumeral(s: string, w: string, f: string) {
    AllDigits(w) && AllDigits(f) && ((f == "" && s == w) || s == w + "." + f)
  }

  /** And nothing else is accepted. */
  lemma ParseUnitsAccepts(s: string, d: nat)
    ensures ParseUnits(s, d).Some? ==> exists w, f :: IsNumeral(s, w, f)
  {
    if IsDecimal(s) { DecimalSplits(s); }
  }

  lemma DecimalSplits(s: string)
    requires IsDecimal(s)
    ensures IsNumeral(s, Whole(s), Fraction(s))
  {
    DotSplits(s);
  }

  // ----- the string detour

  lemma LeadingZero(tail: string)
    requires AllDigits(tail)
    ensures AllDigits("0" + tail) && Value("0" + tail) == Value(tail)
  {
    assert "0"[..0] == "";
    ValueAppends("0", tail);
  }

  lemma TrimThenPad(tail: string)
    requires AllDigits(tail)
    ensures var f := TrimZeros(tail); AllDigits(f) && |f| <= |tail| && PadEnd(f, |tail|) == tail
  {
    TrimmedPart(tail);
  }

  /** The digits of a numeral, cut at the scale and with the zeros trimmed, read back as the numeral. */
  lemma CutAndJoin(display: string, d: nat, w: string)
    requires AllDigits(display) && |display| >= d
    requires w == display[..|display| - d] || (display[..|display| - d] == "" && w == "0")
    ensures
      var f := TrimZeros(display[|display| - d..]);
      && AllDigits(w) && AllDigits(f) && |f| <= d
      && AllDigits(PadEnd(f, d)) && AllDigits(w + PadEnd(f, d)) && Value(w + PadEnd(f, d)) == Value(display)
  {
    var cut := |display| - d;
    var tail := display[cut..];
    TrimThenPad(tail);
    assert display == display[..cut] + tail;
    if w != display[..cut] {
      assert display == tail;
      LeadingZero(tail);
    }
  }

  lemma TrimmedStays(s: string)
    ensures TrimZeros(TrimZeros(s)) == TrimZeros(s)
  {
  }

  /** Formatting with `d` decimals and parsing at the same scale gives the number back. */
  lemma FormatParseUnits(value: nat, d: nat)
    ensures ParseUnits(FormatUnits(value, d), d) == Some(value)
  {
    var display := PadStart(ToText(value), d);
    PaddedLength(ToText(value), d);
    PadStartValue(ToText(value), d);
    ValueOfText(value);
    var cut := |display| - d;
    var w := if display[..cut] == "" then "0" else display[..cut];
    var f := TrimZeros(display[cut..]);
    CutAndJoin(display, d, w);
    DotAfterDigits(w, f);
    TrimmedStays(display[cut..]);
    assert TrimZeros("") == "";
  }

  lemma CutValue(s: string, n: nat)
    requires AllDigits(s) && n <= |s|
    ensures AllDigits(s[..n]) && AllDigits(s[n..]) && Value(s) == Value(s[..n]) * Pow10(|s| - n) + Value(s[n..])
    ensures Value(s[n..]) < Pow10(|s| - n)
  {
    assert s == s[..n] + s[n..];
    ValueAppends(s[..n], s[n..]);
    ValueBound(s[n..]);
  }

  /** Cutting a numeral divides it by the power of ten of what is cut off. */
  lemma CutDivides(s: string, d: nat, whole: nat, fraction: nat)
    requires AllDigits(s) && d <= |s| && fraction < Pow10(d) && Value(s) == whole * Pow10(d) + fraction
    ensures
      var n := |s| - d;
      AllDigits(s[..n]) && AllDigits(s[n..]) && Value(s[..n]) == whole && Value(s[n..]) == fraction
  {
    var n := |s| - d;
    CutValue(s, n);
    QuotientIsUnique(Value(s[..n]), Value(s[n..]), whole, fraction, Pow10(d));
  }

  lemma IntegerPart(value: nat, d: nat, whole: nat)
    requires var display := PadStart(ToText(value), d); |display| >= d && AllDigits(display[..|display| - d])
    requires var display := PadStart(ToText(value), d); Value(display[..|display| - d]) == whole
    ensures
      var display := PadStart(ToText(value), d);
      (if display[..|display| - d] == "" then "0" else display[..|display| - d]) == ToText(whole)
  {
    var display := PadStart(ToText(value), d);
    var front := display[..|display| - d];
    if front == "" {
      assert Value("") == 0;
    } else {
      NoLeadingZero(value);
      TextOfValue(front);
    }
  }

  lemma FractionPart(tail: string, d: nat, fraction: nat)
    requires |tail| == d && AllDigits(tail) && Value(tail) == fraction
    ensures tail == Take(PadStart(ToText(fraction), d), d)
  {
    ValueBound(tail);
    if d > 0 {
      PaddedText(fraction, d);
      NumeralIsUnique(tail, PadStart(ToText(fraction), d));
    }
  }

  /** `formatUnits` prints what `formatAmount` prints with all fraction digits. */
  lemma FormatsAgree(value: nat, d: nat)
    ensures FormatUnits(value, d) == FormatAmount(value, d, d)
  {
    var display := PadStart(ToText(value), d);
    var (whole, fraction) := QuotRem(value, Pow10(d));
    PaddedLength(ToText(value), d);
    PadStartValue(ToText(value), d);
    ValueOfText(value);
    CutDivides(display, d, whole, fraction);
    IntegerPart(value, d, whole);
    FractionPart(display[|display| - d..], d, fraction);
  }

  lemma NoSharesNoWorth(price: nat, digits: nat)
    ensures Worth(0, price, digits) == 0
  {
    FloorIsUnique(Worth(0, price, digits), 0, 0 * price, Pow10(digits));
  }

  /** For equal decimals the value is the worth at the parsed price, also for the shortcut at zero shares. */
  lemma ValueIsWorth(shares: nat, sharePrice: string, decimals: nat)
    requires ParseUnits(sharePrice, RAY_DIGITS).Some?
    ensures
      CurrentValue(shares, sharePrice, decimals, decimals)
      == Some(Worth(shares, ParseUnits(sharePrice, RAY_DIGITS).value, RAY_DIGITS))
  {
    if shares == 0 { NoSharesNoWorth(ParseUnits(sharePrice, RAY_DIGITS).value, RAY_DIGITS); }
  }

  /** The detour through the price string loses nothing: the value is the floor of shares times index over 10^27. */
  lemma DetourIsExact(shares: nat, liquidityIndex: nat, decimals: nat)
    ensures
      var v := CurrentValue(shares, FormatUnits(liquidityIndex, RAY_DIGITS), decimals, decimals);
      v.Some? && IsFloor(v.value, shares * liquidityIndex, Pow10(27))
  {
    FormatParseUnits(liquidityIndex, RAY_DIGITS);
    ValueIsWorth(shares, FormatUnits(liquidityIndex, RAY_DIGITS), decimals);
  }

  // ----- arithmetic of values

  lemma WorthIsMonotone(a: nat, b: nat, p: nat, q: nat, digits: nat)
    requires a <= b && p <= q
    ensures Worth(a, p, digits) <= Worth(b, q, digits)
  {
    MulMonotone(a, b, p);
    MulMonotone(p, q, b);
    MulMonotone(a * p, b * q, Pow10(digits));
    FloorIsMonotone(Worth(a, p, digits), a * p, Pow10(digits), Worth(b, q, digits), b * q, Pow10(digits));
  }

  /** Splitting shares over two positions loses at most one unit. */
  lemma WorthIsNearlyAdditive(a: nat, b: nat, p: nat, digits: nat)
    ensures
      var apart := Worth(a, p, digits) + Worth(b, p, digits);
      apart <= Worth(a + b, p, digits) <= apart + 1
  {
    MulDistributes(a, b, p);
    NearSum(Worth(a, p, digits), Worth(b, p, digits), Worth(a + b, p, digits), a * p, b * p, Pow10(digits));
  }

  lemma NearSum(u: int, v: int, w: int, x: int, y: int, r: int)
    requires r > 0 && IsFloor(u, x, r) && IsFloor(v, y, r) && IsFloor(w, x + y, r)
    ensures u + v <= w <= u + v + 1
  {
    MulDistributes(u, v, r);
    MulDistributes(u + v, 1, r);
    MulDistributes(u + v, 2, r);
    MulDistributes(w, 1, r);
    if w < u + v { MulMonotone(w + 1, u + v, r); }
    if w > u + v + 1 { MulMonotone(u + v + 2, w, r); }
  }

  // ----- the two branches

  lemma PadFurther(w: string, f: string, d: nat, e: nat)
    requires |f| <= d <= e
    ensures w + PadEnd(f, e) == (w + PadEnd(f, d)) + Zeros(e - d)
  {
    ZerosJoin(d - |f|, e - d);
  }

  /** Parsing at a finer scale multiplies by the power of ten between the scales. */
  lemma FinerScale(s: string, d: nat, e: nat)
    requires IsDecimal(s) && |TrimZeros(Fraction(s))| <= d <= e
    ensures ParseUnits(s, d).Some? && ParseUnits(s, e).Some?
    ensures ParseUnits(s, e).value == ParseUnits(s, d).value * Pow10(e - d)
  {
    var w, f := Whole(s), TrimZeros(Fraction(s));
    TrimmedDigits(Fraction(s), d);
    TrimmedDigits(Fraction(s), e);
    var joined := w + PadEnd(f, d);
    PadFurther(w, f, d, e);
    ValueAppends(joined, Zeros(e - d));
    ValueOfZeros(e - d);
  }

  lemma {:induction false} ZerosJoin(m: nat, n: nat)
    ensures Zeros(m) + Zeros(n) == Zeros(m + n)
  {
  }

  /** A price at a finer scale, over the power of ten of that scale, is worth the same. */
  lemma WorthAtFinerScale(shares: nat, price: nat, d: nat, n: nat)
    ensures Worth(shares, price * Pow10(n), d + n) == Worth(shares, price, d)
  {
    var v := Worth(shares, price, d);
    FloorScales(v, shares * price, Pow10(d), Pow10(n));
    Pow10Adds(d, n);
    MulAssociates(shares, price, Pow10(n));
    FloorIsUnique(Worth(shares, price * Pow10(n), d + n), v, shares * (price * Pow10(n)), Pow10(d + n));
  }

  /** At equal share and asset decimals the general formula gives the RAY branch's value. */
  lemma BranchesAgree(shares: nat, sharePrice: string, d: nat)
    requires d <= RAY_DIGITS && IsDecimal(sharePrice) && |TrimZeros(Fraction(sharePrice))| <= d
    ensures CurrentValue(shares, sharePrice, d, d) == Priced(shares, ParseUnits(sharePrice, d), d)
  {
    FinerScale(sharePrice, d, RAY_DIGITS);
    ValueIsWorth(shares, sharePrice, d);
    WorthAtFinerScale(shares, ParseUnits(sharePrice, d).value, d, RAY_DIGITS - d);
  }
}
