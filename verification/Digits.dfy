/** Decimal numerals: printing, reading, padding and trimming, as `BigInt` and `String` do them. */
module Digits {
  // ----- powers of ten and the few division facts the numerals need

  function Pow10(n: nat): (p: nat)
    ensures p > 0
  {
    if n == 0 then 1 else 10 * Pow10(n - 1)
  }

  lemma {:induction false} Pow10Adds(m: nat, n: nat)
    ensures Pow10(m + n) == Pow10(m) * Pow10(n)
  {
    if m > 0 {
      Pow10Adds(m - 1, n);
      MulAssociates(10, Pow10(m - 1), Pow10(n));
    }
  }

  lemma MulAssociates(a: int, b: int, c: int)
    ensures a * (b * c) == (a * b) * c
  {
  }

  lemma MulDistributes(a: int, b: int, c: int)
    ensures (a + b) * c == a * c + b * c
  {
  }

  lemma MulMonotone(a: int, b: int, c: int)
    requires a <= b && c >= 0
    ensures a * c <= b * c
  {
  }

  lemma MulCancels(a: int, b: int, c: int)
    requires a * c <= b * c && c > 0
    ensures a <= b
  {
    if a > b { MulMonotone(b + 1, a, c); MulDistributes(b, 1, c); }
  }

  /** `q` is the floor of `a / b`. */
  predicate IsFloor(q: int, a: int, b: int) {
    q * b <= a < q * b + b
  }

  /** BigInt division and remainder of natural numbers. */
  function QuotRem(a: nat, b: nat): (r: (nat, nat))
    requires b > 0
    ensures r.0 * b + r.1 == a && r.1 < b && IsFloor(r.0, a, b)
  {
    (a / b, a % b)
  }

  /** The multiple of `p` that `x` is cut down to. */
  function TruncatedTo(x: nat, p: nat): (t: nat)
    requires p > 0
    ensures t == QuotRem(x, p).0 * p && t <= x < t + p
  {
    x - QuotRem(x, p).1
  }

  lemma TruncatedIs(x: nat, p: nat, q: int)
    requires p > 0 && IsFloor(q, x, p)
    ensures TruncatedTo(x, p) == q * p
  {
    FloorIsUnique(q, QuotRem(x, p).0, x, p);
  }

  lemma FloorIsUnique(q: int, r: int, a: int, b: int)
    requires b > 0 && IsFloor(q, a, b) && IsFloor(r, a, b)
    ensures q == r
  {
    MulDistributes(q, 1, b);
    MulDistributes(r, 1, b);
    if q < r { MulMonotone(q + 1, r, b); }
    if r < q { MulMonotone(r + 1, q, b); }
  }

  lemma QuotientIsUnique(q: nat, r: nat, q': nat, r': nat, b: nat)
    requires r < b && r' < b && q * b + r == q' * b + r'
    ensures q == q' && r == r'
  {
    FloorIsUnique(q, q', q * b + r, b);
  }

  /** Cross-multiplied comparison of fractions carries over to their floors. */
  lemma FloorIsMonotone(q: int, a: int, b: int, r: int, c: int, e: int)
    requires b > 0 && e > 0 && IsFloor(q, a, b) && IsFloor(r, c, e) && a * e <= c * b
    ensures q <= r
  {
    MulMonotone(q * b, a, e);
    SwapFactors(q, b, e);
    MulCancels(q * e, c, b);
    MulDistributes(r, 1, e);
    if q > r { MulMonotone(r + 1, q, e); }
  }

  lemma SwapFactors(a: int, b: int, c: int)
    ensures (a * b) * c == (a * c) * b
  {
  }

  /** A common factor does not change a floor. */
  lemma FloorScales(q: int, a: int, b: int, k: int)
    requires b > 0 && k > 0 && IsFloor(q, a, b)
    ensures b * k > 0 && IsFloor(q, a * k, b * k)
  {
    MulMonotone(1, k, b);
    MulMonotone(q * b, a, k);
    MulAssociates(q, b, k);
    MulMonotone(a + 1, q * b + b, k);
    MulDistributes(a, 1, k);
    MulDistributes(q * b, b, k);
  }

  // ----- numerals

  predicate IsDigit(c: char) {
    '0' <= c <= '9'
  }

  predicate AllDigits(s: string) {
    forall i | 0 <= i < |s| :: IsDigit(s[i])
  }

  function DigitValue(c: char): nat
    requires IsDigit(c)
  {
    c as int - '0' as int
  }

  function DigitChar(n: nat): (c: char)
    requires n < 10
    ensures IsDigit(c) && DigitValue(c) == n
  {
    ('0' as int + n) as char
  }

  /** `BigInt(s)` of a string of digits; the empty string reads as zero. */
  function Value(s: string): nat
    requires AllDigits(s)
  {
    if s == "" then 0 else 10 * Value(s[..|s| - 1]) + DigitValue(s[|s| - 1])
  }

  /** `n.toString()`. */
  function ToText(n: nat): (s: string)
    ensures AllDigits(s) && s != ""
  {
    if n < 10 then [DigitChar(n)] else ToText(n / 10) + [DigitChar(n % 10)]
  }

  lemma {:induction false} ValueOfText(n: nat)
    ensures Value(ToText(n)) == n
  {
    if n >= 10 {
      ValueOfText(n / 10);
      assert ToText(n)[..|ToText(n)| - 1] == ToText(n / 10);
    } else {
      assert ToText(n)[..0] == "";
    }
  }

  lemma {:induction false} NoLeadingZero(n: nat)
    ensures |ToText(n)| > 1 ==> n >= 10 && ToText(n)[0] != '0'
    ensures n > 0 ==> ToText(n)[0] != '0'
  {
    if n >= 10 { NoLeadingZero(n / 10); }
  }

  /** Two numerals of one length and one value are the same. */
  lemma {:induction false} NumeralIsUnique(s: string, t: string)
    requires AllDigits(s) && AllDigits(t) && |s| == |t| && Value(s) == Value(t)
    ensures s == t
  {
    if s != "" {
      NumeralIsUnique(s[..|s| - 1], t[..|t| - 1]);
      assert s == s[..|s| - 1] + [s[|s| - 1]] && t == t[..|t| - 1] + [t[|t| - 1]];
    }
  }

  /** A numeral without a leading zero is the text of its value. */
  lemma {:induction false} TextOfValue(s: string)
    requires AllDigits(s) && s != "" && (|s| > 1 ==> s[0] != '0')
    ensures ToText(Value(s)) == s
  {
    var s' := s[..|s| - 1];
    assert s == s' + [s[|s| - 1]];
    if s' == "" {
      assert Value("") == 0;
    } else {
      TextOfValue(s');
      LeadingDigit(s');
    }
  }

  lemma {:induction false} LeadingDigit(s: string)
    requires AllDigits(s) && s != "" && s[0] != '0'
    ensures Value(s) > 0
  {
    if |s| > 1 { LeadingDigit(s[..|s| - 1]); }
  }

  lemma {:induction false} ValueAppends(a: string, b: string)
    requires AllDigits(a) && AllDigits(b)
    ensures AllDigits(a + b) && Value(a + b) == Value(a) * Pow10(|b|) + Value(b)
  {
    if b == "" {
      assert a + b == a;
    } else {
      var b' := b[..|b| - 1];
      ValueAppends(a, b');
      assert (a + b)[..|a + b| - 1] == a + b';
      ShiftDigits(Value(a), Pow10(|b'|), Value(b'));
    }
  }

  lemma ShiftDigits(v: int, p: int, w: int)
    ensures 10 * (v * p + w) == v * (10 * p) + 10 * w
  {
    MulAssociates(v, 10, p);
    MulAssociates(10, v, p);
  }

  lemma {:induction false} ValueBound(s: string)
    requires AllDigits(s)
    ensures Value(s) < Pow10(|s|)
  {
    if s != "" { ValueBound(s[..|s| - 1]); }
  }

  /** A number below a power of ten prints in at most that many digits. */
  lemma {:induction false} TextLength(n: nat, d: nat)
    requires n < Pow10(d) && d > 0
    ensures |ToText(n)| <= d
  {
    if n >= 10 {
      assert d > 1;
      TextLength(n / 10, d - 1);
    }
  }

  // ----- zeros

  function Zeros(n: nat): (s: string)
    ensures |s| == n && AllDigits(s) && forall i | 0 <= i < n :: s[i] == '0'
  {
    if n == 0 then "" else Zeros(n - 1) + "0"
  }

  lemma {:induction false} ValueOfZeros(n: nat)
    ensures Value(Zeros(n)) == 0
  {
    if n > 0 {
      ValueOfZeros(n - 1);
      assert Zeros(n)[..n - 1] == Zeros(n - 1);
    }
  }

  function PadStart(s: string, n: nat): string {
    if |s| >= n then s else Zeros(n - |s|) + s
  }

  function PadEnd(s: string, n: nat): string {
    if |s| >= n then s else s + Zeros(n - |s|)
  }

  /** `s.slice(0, n)`. */
  function Take(s: string, n: nat): string {
    if |s| <= n then s else s[..n]
  }

  /** `s.replace(/0+$/, '')`. */
  function TrimZeros(s: string): (t: string)
    ensures |t| <= |s| && t == s[..|t|] && (t == "" || t[|t| - 1] != '0')
  {
    if s != "" && s[|s| - 1] == '0' then TrimZeros(s[..|s| - 1]) else s
  }

  lemma {:induction false} TrimmedPart(s: string)
    ensures s == TrimZeros(s) + Zeros(|s| - |TrimZeros(s)|)
  {
    if s != "" && s[|s| - 1] == '0' {
      var s' := s[..|s| - 1];
      TrimmedPart(s');
      assert s == s' + "0";
    }
  }

  lemma PadStartValue(s: string, n: nat)
    requires AllDigits(s)
    ensures AllDigits(PadStart(s, n)) && Value(PadStart(s, n)) == Value(s)
  {
    if |s| < n {
      ValueAppends(Zeros(n - |s|), s);
      ValueOfZeros(n - |s|);
    }
  }

  lemma PadEndValue(s: string, n: nat)
    requires AllDigits(s) && |s| <= n
    ensures |PadEnd(s, n)| == n && AllDigits(PadEnd(s, n)) && Value(PadEnd(s, n)) == Value(s) * Pow10(n - |s|)
  {
    if |s| < n {
      ValueAppends(s, Zeros(n - |s|));
      ValueOfZeros(n - |s|);
    }
  }

  /** Trimming zeros and padding back to any length at least the original restores the value at that scale. */
  lemma TrimPadValue(s: string, n: nat)
    requires AllDigits(s) && |s| <= n
    ensures
      var t := TrimZeros(s);
      AllDigits(t) && AllDigits(PadEnd(t, n)) && |PadEnd(t, n)| == n && Value(PadEnd(t, n)) == Value(s) * Pow10(n - |s|)
  {
    var t := TrimZeros(s);
    TrimmedValue(s);
    PadEndValue(t, n);
    Pow10Adds(|s| - |t|, n - |s|);
    ScaleTwice(Value(t), Pow10(|s| - |t|), Pow10(n - |s|), Value(s), Pow10(n - |t|));
  }

  lemma TrimmedValue(s: string)
    requires AllDigits(s)
    ensures var t := TrimZeros(s); AllDigits(t) && Value(s) == Value(t) * Pow10(|s| - |t|)
  {
    var t := TrimZeros(s);
    TrimmedPart(s);
    assert AllDigits(t);
    PadEndValue(t, |s|);
    assert PadEnd(t, |s|) == s;
  }

  lemma ScaleTwice(v: int, a: int, b: int, x: int, c: int)
    requires x == v * a && c == a * b
    ensures v * c == x * b
  {
    MulAssociates(v, a, b);
  }
}
