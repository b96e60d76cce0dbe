/** The amount printer and parser of the frontend. */
module Amounts {
  import opened Options
  import opened Digits
  import opened Numbers

  /** White space and line terminators, as `String.prototype.trim` strips them. */
  predicate IsSpace(c: char) {
    '\t' <= c <= '\r' || c == ' ' || c == '\U{A0}' || c == '\U{1680}' || '\U{2000}' <= c <= '\U{200A}'
    || c == '\U{2028}' || c == '\U{2029}' || c == '\U{202F}' || c == '\U{205F}' || c == '\U{3000}' || c == '\U{FEFF}'
  }

  function TrimStart(s: string): string {
    if s != "" && IsSpace(s[0]) then TrimStart(s[1..]) else s
  }

  function TrimEnd(s: string): string {
    if s != "" && IsSpace(s[|s| - 1]) then TrimEnd(s[..|s| - 1]) else s
  }

  function Trim(s: string): string {
    TrimEnd(TrimStart(s))
  }

  /** Where the first dot is, or the length when there is none. */
  function Dot(s: string): (i: nat)
    ensures i <= |s| && (i < |s| ==> s[i] == '.') && forall j | 0 <= j < i :: s[j] != '.'
  {
    if s == "" || s[0] == '.' then 0 else 1 + Dot(s[1..])
  }

  function Whole(s: string): string {
    s[..Dot(s)]
  }

  function Fraction(s: string): string {
    if Dot(s) == |s| then "" else s[Dot(s) + 1..]
  }

  /** Digits, or digits, a dot and digits: what `parseAmount` accepts. */
  predicate IsAmount(s: string) {
    Whole(s) != "" && AllDigits(Whole(s)) && AllDigits(Fraction(s)) && (Dot(s) == |s| || Fraction(s) != "")
  }

  /** The white space and line terminators of ECMA-262, sections 12.2 and 12.3. */
  lemma SpacesAre(c: char)
    ensures
      IsSpace(c) <==>
      c in ['\U{9}', '\U{A}', '\U{B}', '\U{C}', '\U{D}', '\U{20}', '\U{A0}', '\U{1680}', '\U{2000}', '\U{2001}',
            '\U{2002}', '\U{2003}', '\U{2004}', '\U{2005}', '\U{2006}', '\U{2007}', '\U{2008}', '\U{2009}',
            '\U{200A}', '\U{2028}', '\U{2029}', '\U{202F}', '\U{205F}', '\U{3000}', '\U{FEFF}']
  {
  }

  lemma PaddedDigits(s: string, n: nat)
    requires AllDigits(s)
    ensures AllDigits(Take(PadEnd(s, n), n))
  {
  }

  /** The base units of a whole part and a fraction: fraction digits beyond `decimals` are cut off. */
  function Units(whole: string, fraction: string, decimals: nat): nat
    requires AllDigits(whole) && AllDigits(fraction)
  {
    PaddedDigits(fraction, decimals);
    var padded := Take(PadEnd(fraction, decimals), decimals);
    var base := Value(whole) * Pow10(decimals);
    var frac := if padded != "" then Value(padded) else 0;
    base + frac
  }

  /** `parseAmount`; None is the thrown error. */
  function ParseAmount(input: string, decimals: nat): Option<string> {
    var trimmed := Trim(input);
    if trimmed == "" || !IsAmount(trimmed) then None
    else Some(ToText(Units(Whole(trimmed), Fraction(trimmed), decimals)))
  }

  /** `formatAmount` of a non-negative amount. */
  function FormatAmount(x: nat, decimals: nat, maxFractionDigits: nat): string {
    var (whole, fraction) := QuotRem(x, Pow10(decimals));
    var text := TrimZeros(Take(PadStart(ToText(fraction), decimals), maxFractionDigits));
    if text != "" then ToText(whole) + "." + text else ToText(whole)
  }

  // ----- what a parsed amount is worth

  /** The digits of an accepted string without its dot: its value times ten to the number of fraction digits. */
  function Scaled(s: string): nat
    requires IsAmount(s)
  {
    ValueAppends(Whole(s), Fraction(s));
    Value(Whole(s) + Fraction(s))
  }

  lemma FloorOfSum(w: int, p: int, q: int, f: int, k: int)
    requires q > 0 && IsFloor(k, f * p, q)
    ensures IsFloor(w * p + k, (w * q + f) * p, q)
  {
    MulDistributes(w * q, f, p);
    SwapFactors(w, q, p);
    MulDistributes(w * p, k, q);
  }

  /** A floor at a coarse scale is the floor at any finer one. */
  lemma FloorOfPrefix(v: int, b: int, k: int, q: int, p: int)
    requires p > 0 && q > 0 && IsFloor(k, v, q) && b == q * p
    ensures IsFloor(k, v * p, b)
  {
    FloorScales(k, v, q, p);
  }

  lemma FloorOfMultiple(v: int, e: int, p: int, q: int)
    requires q > 0 && p == e * q
    ensures IsFloor(v * e, v * p, q)
  {
    MulAssociates(v, e, q);
  }

  lemma PaddedDigitsValue(s: string, d: nat)
    requires AllDigits(s) && |s| <= d
    ensures
      var kept := PadEnd(s, d);
      && |kept| == d && AllDigits(kept)
      && IsFloor(Value(kept), Value(s) * Pow10(d), Pow10(|s|))
  {
    PadEndValue(s, d);
    Pow10Adds(d - |s|, |s|);
    FloorOfMultiple(Value(s), Pow10(d - |s|), Pow10(d), Pow10(|s|));
  }

  /** The first digits of a numeral are its floor at their scale. */
  lemma PrefixValue(p: string, n: nat)
    requires AllDigits(p) && n <= |p|
    ensures AllDigits(p[..n]) && IsFloor(Value(p[..n]), Value(p), Pow10(|p| - n))
  {
    assert p == p[..n] + p[n..];
    ValueAppends(p[..n], p[n..]);
    ValueBound(p[n..]);
  }

  lemma FloorAtFinerScale(v: int, k: int, e: nat, d: nat, n: nat)
    requires IsFloor(k, v, Pow10(e)) && n == e + d
    ensures IsFloor(k, v * Pow10(d), Pow10(n))
  {
    Pow10Adds(e, d);
    FloorOfPrefix(v, Pow10(n), k, Pow10(e), Pow10(d));
  }

  lemma SlicedDigitsValue(s: string, d: nat, kept: string)
    requires AllDigits(s) && |s| > d && kept == s[..d]
    ensures AllDigits(kept) && IsFloor(Value(kept), Value(s) * Pow10(d), Pow10(|s|))
  {
    PrefixValue(s, d);
    FloorAtFinerScale(Value(s), Value(kept), |s| - d, d, |s|);
  }

  /** The fraction digits that fit, at the scale of the result. */
  lemma KeptDigits(s: string, d: nat)
    requires AllDigits(s)
    ensures
      var kept := Take(PadEnd(s, d), d);
      AllDigits(kept) && IsFloor(Value(kept), Value(s) * Pow10(d), Pow10(|s|))
  {
    if |s| <= d { PaddedDigitsValue(s, d); } else { SlicedDigitsValue(s, d, s[..d]); }
  }

  lemma UnitsIsFloor(w: string, f: string, d: nat)
    requires AllDigits(w) && AllDigits(f)
    ensures AllDigits(w + f) && IsFloor(Units(w, f, d), Value(w + f) * Pow10(d), Pow10(|f|))
  {
    var kept := Take(PadEnd(f, d), d);
    KeptDigits(f, d);
    ValueAppends(w, f);
    FloorOfSum(Value(w), Pow10(d), Pow10(|f|), Value(f), Value(kept));
    assert kept == "" ==> Value(kept) == 0;
  }

  /**
   `parseAmount` rejects exactly the strings outside its pattern, and otherwise truncates value times ten to the
   decimals.
   */
  lemma ParseIsFloor(input: string, d: nat)
    ensures ParseAmount(input, d).Some? <==> IsAmount(Trim(input))
    ensures IsAmount(Trim(input)) ==>
      var r := ParseAmount(input, d).value;
      AllDigits(r) && r == ToText(Value(r))
          && IsFloor(Value(r), Scaled(Trim(input)) * Pow10(d), Pow10(|Fraction(Trim(input))|))
  {
    var s := Trim(input);
    if IsAmount(s) {
      UnitsIsFloor(Whole(s), Fraction(s), d);
      ValueOfText(Units(Whole(s), Fraction(s), d));
    }
  }

  // ----- the accepted inputs, written out

  predicate AllSpace(s: string) {
    forall i | 0 <= i < |s| :: IsSpace(s[i])
  }

  /** `w` alone, or `w`, a dot and `f`. */
  function Joined(w: string, f: string): string {
    if f == "" then w else w + "." + f
  }

  /** The input is a numeral with whole part `w` and fraction `f`, between white space. */
  predicate Reads(input: string, a: string, w: string, f: string, b: string) {
    AllSpace(a) && AllSpace(b) && AllDigits(w) && w != "" && AllDigits(f) && input == a + Joined(w, f) + b
  }

  lemma {:induction false} TrimStartDrops(a: string, t: string)
    requires AllSpace(a) && (t != "" ==> !IsSpace(t[0]))
    ensures TrimStart(a + t) == t
  {
    if a == "" {
      assert a + t == t;
    } else {
      assert (a + t)[1..] == a[1..] + t;
      TrimStartDrops(a[1..], t);
    }
  }

  lemma {:induction false} TrimEndDrops(t: string, b: string)
    requires AllSpace(b) && (t != "" ==> !IsSpace(t[|t| - 1]))
    ensures TrimEnd(t + b) == t
  {
    if b == "" {
      assert t + b == t;
    } else {
      assert (t + b)[..|t + b| - 1] == t + b[..|b| - 1];
      TrimEndDrops(t, b[..|b| - 1]);
    }
  }

  lemma {:induction false} TrimStartSplits(s: string) returns (a: string)
    ensures AllSpace(a) && s == a + TrimStart(s)
  {
    if s != "" && IsSpace(s[0]) {
      var rest := TrimStartSplits(s[1..]);
      a := [s[0]] + rest;
    } else {
      a := "";
    }
  }

  lemma {:induction false} TrimEndSplits(s: string) returns (b: string)
    ensures AllSpace(b) && s == TrimEnd(s) + b
  {
    if s != "" && IsSpace(s[|s| - 1]) {
      var rest := TrimEndSplits(s[..|s| - 1]);
      b := rest + [s[|s| - 1]];
      assert s == s[..|s| - 1] + [s[|s| - 1]];
    } else {
      b := "";
    }
  }

  /** What is trimmed away is white space. */
  lemma TrimSplits(s: string) returns (a: string, b: string)
    ensures AllSpace(a) && AllSpace(b) && s == a + Trim(s) + b
  {
    a := TrimStartSplits(s);
    b := TrimEndSplits(TrimStart(s));
    assert a + (Trim(s) + b) == a + Trim(s) + b;
  }

  lemma TrimDrops(a: string, t: string, b: string)
    requires AllSpace(a) && AllSpace(b) && t != "" && !IsSpace(t[0]) && !IsSpace(t[|t| - 1])
    ensures Trim(a + t + b) == t
  {
    assert a + t + b == a + (t + b);
    TrimStartDrops(a, t + b);
    TrimEndDrops(t, b);
  }

  lemma DotSplits(s: string)
    ensures s == if Dot(s) < |s| then Whole(s) + "." + Fraction(s) else Whole(s)
  {
    if Dot(s) < |s| { CutAt(s, Dot(s)); }
  }

  lemma CutAt(s: string, i: nat)
    requires i < |s| && s[i] == '.'
    ensures s == s[..i] + "." + s[i + 1..]
  {
  }

  lemma ReadsAsAmount(input: string, a: string, w: string, f: string, b: string)
    requires Reads(input, a, w, f, b)
    ensures var s := Trim(input); s == Joined(w, f) && IsAmount(s) && Whole(s) == w && Fraction(s) == f
  {
    DotAfterDigits(w, f);
    TrimDrops(a, Joined(w, f), b);
  }

  /**
   `parseAmount` accepts exactly digits, or digits, a dot and digits, between white space, and truncates: the numeral
   without its dot, times ten to the decimals, over ten to the number of fraction digits.
   */
  lemma ParseIsExact(input: string, d: nat)
    ensures ParseAmount(input, d).Some? <==> exists a, w, f, b :: Reads(input, a, w, f, b)
    ensures forall a, w, f, b | Reads(input, a, w, f, b) ::
        var r := ParseAmount(input, d);
        r.Some? && AllDigits(r.value) && r.value == ToText(Value(r.value)) && AllDigits(w + f)
            && IsFloor(Value(r.value), Value(w + f) * Pow10(d), Pow10(|f|))
  {
    ParseIsFloor(input, d);
    forall a, w, f, b | Reads(input, a, w, f, b)
      ensures IsAmount(Trim(input)) && Whole(Trim(input)) == w && Fraction(Trim(input)) == f
    {
      ReadsAsAmount(input, a, w, f, b);
    }
    if IsAmount(Trim(input)) {
      var a, b := TrimSplits(input);
      DotSplits(Trim(input));
      assert Reads(input, a, Whole(Trim(input)), Fraction(Trim(input)), b);
    }
  }

  /** A larger numeral never parses to a smaller amount. */
  lemma ParseIsMonotone(a: string, b: string, d: nat)
    requires IsAmount(Trim(a)) && IsAmount(Trim(b))
    requires Scaled(Trim(a)) * Pow10(|Fraction(Trim(b))|) <= Scaled(Trim(b)) * Pow10(|Fraction(Trim(a))|)
    ensures
      var x, y := ParseAmount(a, d), ParseAmount(b, d);
      x.Some? && y.Some? && AllDigits(x.value) && AllDigits(y.value) && Value(x.value) <= Value(y.value)
  {
    ParseIsFloor(a, d);
    ParseIsFloor(b, d);
    var x, y := ParseAmount(a, d), ParseAmount(b, d);
    ScaledMonotone(Value(x.value), Scaled(Trim(a)), Pow10(|Fraction(Trim(a))|),
                   Value(y.value), Scaled(Trim(b)), Pow10(|Fraction(Trim(b))|), Pow10(d));
  }

  lemma ScaledMonotone(x: int, m: int, p: int, y: int, n: int, e: int, k: int)
    requires p > 0 && e > 0 && k > 0 && IsFloor(x, m * k, p) && IsFloor(y, n * k, e) && m * e <= n * p
    ensures x <= y
  {
    MulMonotone(m * e, n * p, k);
    SwapFactors(m, e, k);
    SwapFactors(n, p, k);
    FloorIsMonotone(x, m * k, p, y, n * k, e);
  }

  // ----- round trip

  lemma DigitsAreNotSpace(s: string)
    requires s != "" && IsDigit(s[0]) && IsDigit(s[|s| - 1])
    ensures Trim(s) == s
  {
  }

  lemma DotAfterDigits(w: string, f: string)
    requires AllDigits(w)
    ensures Dot(w + "." + f) == |w| && Dot(w) == |w|
    ensures Whole(w + "." + f) == w && Fraction(w + "." + f) == f && Whole(w) == w && Fraction(w) == ""
  {
    var s := w + "." + f;
    assert s[|w|] == '.';
    assert s[|w| + 1..] == f;
  }

  /** The first `n` digits of a numeral, without the zeros at their end and padded to its length again. */
  lemma CutNumeral(p: string, n: nat)
    requires AllDigits(p) && n <= |p|
    ensures
      var text := TrimZeros(p[..n]);
      && AllDigits(text) && |text| <= n && AllDigits(PadEnd(text, |p|)) && |PadEnd(text, |p|)| == |p|
      && Value(PadEnd(text, |p|)) == TruncatedTo(Value(p), Pow10(|p| - n))
  {
    PrefixValue(p, n);
    TrimPadValue(p[..n], |p|);
    TruncatedIs(Value(p), Pow10(|p| - n), Value(p[..n]));
  }

  lemma PaddedText(n: nat, d: nat)
    requires n < Pow10(d) && d > 0
    ensures var p := PadStart(ToText(n), d); AllDigits(p) && |p| == d && Value(p) == n
  {
    ValueOfText(n);
    PadStartValue(ToText(n), d);
    TextLength(n, d);
  }

  /** Printing keeps the first fraction digits: their value, at the scale of the amount. */
  lemma KeptFraction(fraction: nat, d: nat, m: nat)
    requires fraction < Pow10(d)
    ensures
      var text := TrimZeros(Take(PadStart(ToText(fraction), d), m));
      && AllDigits(text) && |text| <= d && AllDigits(PadEnd(text, d)) && |PadEnd(text, d)| == d && |text| <= m
      && Value(PadEnd(text, d)) == TruncatedTo(fraction, Pow10(d - Min(m, d)))
  {
    if d == 0 {
      NoFraction(m);
      assert Value("") == 0;
    } else {
      var p := PadStart(ToText(fraction), d);
      PaddedText(fraction, d);
      assert Take(p, m) == p[..Min(m, d)];
      CutNumeral(p, Min(m, d));
    }
  }

  lemma NoFraction(m: nat)
    ensures TrimZeros(Take(PadStart(ToText(0), 0), m)) == "" && PadEnd("", 0) == "" && Pow10(0) == 1
  {
    assert ToText(0) == "0" && PadStart("0", 0) == "0";
    assert TrimZeros("") == "" && "0"[..0] == "";
    assert TrimZeros("0") == TrimZeros("0"[..0]);
  }

  /** A printed amount is read as its two numerals. */
  lemma ParsePrinted(w: string, text: string, d: nat)
    requires AllDigits(w) && w != "" && AllDigits(text)
    ensures ParseAmount(if text != "" then w + "." + text else w, d) == Some(ToText(Units(w, text, d)))
  {
    var s := if text != "" then w + "." + text else w;
    DotAfterDigits(w, text);
    DigitsAreNotSpace(s);
    assert IsAmount(s) && Whole(s) == w && Fraction(s) == text;
  }

  lemma UnitsOfShort(w: string, text: string, d: nat)
    requires AllDigits(w) && AllDigits(text) && |text| <= d && AllDigits(PadEnd(text, d)) && |PadEnd(text, d)| == d
    ensures Units(w, text, d) == Value(w) * Pow10(d) + Value(PadEnd(text, d))
  {
    assert Take(PadEnd(text, d), d) == PadEnd(text, d);
    assert PadEnd(text, d) == "" ==> Value(PadEnd(text, d)) == 0;
  }

  /**
   What `formatAmount` prints: the whole part, and, after a dot if there are any, at most `m` fraction digits without a
   zero at the end, which are worth the fraction with its other digits cut off.
   */
  lemma FormatMeans(x: nat, d: nat, m: nat)
    ensures
      var s := FormatAmount(x, d, m);
      var (whole, fraction) := QuotRem(x, Pow10(d));
      var f := Fraction(s);
      && s == Joined(ToText(whole), f)
      && AllDigits(f) && |f| <= m && |f| <= d && (f != "" ==> f[|f| - 1] != '0') && AllDigits(PadEnd(f, d))
      && Value(PadEnd(f, d)) == TruncatedTo(fraction, Pow10(d - Min(m, d)))
  {
    var (whole, fraction) := QuotRem(x, Pow10(d));
    KeptFraction(fraction, d, m);
    DotAfterDigits(ToText(whole), TrimZeros(Take(PadStart(ToText(fraction), d), m)));
  }

  /** Truncating the fraction truncates the amount. */
  lemma TruncatedSum(w: nat, f: nat, p: nat, q: nat, r: nat, x: nat)
    requires p > 0 && q > 0 && r == p * q && x == w * r + f
    ensures TruncatedTo(x, q) == w * r + TruncatedTo(f, q)
  {
    var k := QuotRem(f, q).0;
    MulAssociates(w, p, q);
    MulDistributes(w * p, k, q);
    TruncatedIs(x, q, w * p + k);
  }

  /** The printed numerals are worth the whole part and the fraction digits that were kept. */
  lemma PrintedUnits(whole: nat, fraction: nat, d: nat, m: nat)
    requires fraction < Pow10(d)
    ensures
      var text := TrimZeros(Take(PadStart(ToText(fraction), d), m));
      && AllDigits(text)
      && Units(ToText(whole), text, d) == whole * Pow10(d) + TruncatedTo(fraction, Pow10(d - Min(m, d)))
  {
    KeptFraction(fraction, d, m);
    UnitsOfShort(ToText(whole), TrimZeros(Take(PadStart(ToText(fraction), d), m)), d);
    ValueOfText(whole);
  }

  lemma PrintedParts(x: nat, d: nat, m: nat, whole: nat, fraction: nat) returns (u: nat)
    requires QuotRem(x, Pow10(d)) == (whole, fraction)
    ensures u == whole * Pow10(d) + TruncatedTo(fraction, Pow10(d - Min(m, d)))
    ensures ParseAmount(FormatAmount(x, d, m), d) == Some(ToText(u))
  {
    var text := TrimZeros(Take(PadStart(ToText(fraction), d), m));
    PrintedUnits(whole, fraction, d, m);
    ParsePrinted(ToText(whole), text, d);
    u := Units(ToText(whole), text, d);
  }

  /** The parts that come back are the amount cut down to the digits that were printed. */
  lemma TruncatedParts(x: nat, d: nat, n: nat, whole: nat, fraction: nat, u: nat)
    requires n <= d && x == whole * Pow10(d) + fraction
    requires u == whole * Pow10(d) + TruncatedTo(fraction, Pow10(d - n))
    ensures u == TruncatedTo(x, Pow10(d - n))
  {
    Pow10Adds(n, d - n);
    TruncatedSum(whole, fraction, Pow10(n), Pow10(d - n), Pow10(d), x);
  }

  /** Printing and parsing back truncates to the fraction digits that were printed. */
  lemma FormatThenParse(x: nat, d: nat, m: nat)
    ensures ParseAmount(FormatAmount(x, d, m), d) == Some(ToText(TruncatedTo(x, Pow10(d - Min(m, d)))))
  {
    var (whole, fraction) := QuotRem(x, Pow10(d));
    var u := PrintedParts(x, d, m, whole, fraction);
    TruncatedParts(x, d, Min(m, d), whole, fraction, u);
  }

  lemma NothingTruncated(x: nat, d: nat, m: nat)
    requires m >= d
    ensures TruncatedTo(x, Pow10(d - Min(m, d))) == x
  {
    assert Pow10(0) == 1;
  }

  /** With enough fraction digits the round trip is exact. */
  lemma RoundTrip(x: nat, d: nat, m: nat)
    requires m >= d
    ensures ParseAmount(FormatAmount(x, d, m), d) == Some(ToText(x))
  {
    FormatThenParse(x, d, m);
    NothingTruncated(x, d, m);
  }
}
