/** Exact money: decimal strings of at most 18 integral and 18 fractional digits, and the whole
    10^-18 units they stand for. */
module Money {
  import opened Basics

  const PLACES: nat := 18
  const SCALE: nat := 1_000_000_000_000_000_000
  const LIMIT: nat := 1_000_000_000_000_000_000_000_000_000_000_000_000

  // ---- Digits -----------------------------------------------------------------------------

  predicate IsDigit(c: char) {
    '0' <= c <= '9'
  }

  predicate AllDigits(s: string) {
    forall i :: 0 <= i < |s| ==> IsDigit(s[i])
  }

  function Digit(d: nat): (c: char)
    requires d < 10
    ensures IsDigit(c) && Value(c) == d && (c == '0' <==> d == 0)
  {
    ('0' as int + d) as char
  }

  function Value(c: char): (d: nat)
    requires IsDigit(c)
    ensures d < 10
  {
    c as int - '0' as int
  }

  lemma DigitValue(c: char)
    requires IsDigit(c)
    ensures Digit(Value(c)) == c
  {
  }

  function Pow10(k: nat): (p: nat)
    ensures p >= 1
  {
    if k == 0 then 1 else 10 * Pow10(k - 1)
  }

  /** BigInt(s); the empty string is zero. */
  function Parse(s: string): nat
    requires AllDigits(s)
    decreases |s|
  {
    if s == [] then 0 else 10 * Parse(s[..|s| - 1]) + Value(s[|s| - 1])
  }

  /** n.toString(). */
  function Print(n: nat): (s: string)
    ensures AllDigits(s) && s != []
  {
    if n < 10 then [Digit(n)] else Print(n / 10) + [Digit(n % 10)]
  }

  function Zeros(k: nat): (s: string)
    ensures |s| == k && AllDigits(s) && forall i :: 0 <= i < k ==> s[i] == '0'
  {
    if k == 0 then [] else Zeros(k - 1) + ['0']
  }

  function PadStart(s: string): string {
    if |s| < PLACES then Zeros(PLACES - |s|) + s else s
  }

  function PadEnd(s: string): string {
    if |s| < PLACES then s + Zeros(PLACES - |s|) else s
  }

  function StripZeros(s: string): (r: string)
    ensures r <= s
    ensures r == [] || r[|r| - 1] != '0'
    decreases |s|
  {
    if s != [] && s[|s| - 1] == '0' then StripZeros(s[..|s| - 1]) else s
  }

  /** Exactly `k` digits of `n`. */
  function Fixed(n: nat, k: nat): (s: string)
    ensures |s| == k && AllDigits(s)
    decreases k
  {
    if k == 0 then [] else Fixed(n / 10, k - 1) + [Digit(n % 10)]
  }

  lemma {:induction false} ParsePrint(n: nat)
    ensures Parse(Print(n)) == n
    decreases n
  {
    if n >= 10 {
      ParsePrint(n / 10);
      assert Print(n)[..|Print(n)| - 1] == Print(n / 10);
    }
  }

  /** A number prints without a leading zero. */
  lemma {:induction false} PrintLeads(n: nat)
    ensures n > 0 ==> Print(n)[0] != '0'
    decreases n
  {
    if n >= 10 { PrintLeads(n / 10); }
  }

  /** Digits without a leading zero come back unchanged. */
  lemma {:induction false} PrintParse(s: string)
    requires AllDigits(s) && s != [] && (s[0] != '0' || |s| == 1)
    ensures Print(Parse(s)) == s
    ensures s[0] != '0' ==> Parse(s) > 0
    decreases |s|
  {
    var n := |s| - 1;
    DigitValue(s[n]);
    if n == 0 {
      assert s == [s[0]] && s[..0] == [];
    } else {
      PrintParse(s[..n]);
      assert s == s[..n] + [s[n]];
    }
  }

  lemma {:induction false} ParseBound(s: string)
    requires AllDigits(s)
    ensures Parse(s) < Pow10(|s|)
    decreases |s|
  {
    if s != [] { ParseBound(s[..|s| - 1]); }
  }

  lemma {:induction false} FixedParse(s: string)
    requires AllDigits(s)
    ensures Fixed(Parse(s), |s|) == s
    decreases |s|
  {
    if s != [] {
      var n := |s| - 1;
      DigitValue(s[n]);
      FixedParse(s[..n]);
      assert s == s[..n] + [s[n]];
    }
  }

  lemma {:induction false} ParseFixed(n: nat, k: nat)
    requires n < Pow10(k)
    ensures Parse(Fixed(n, k)) == n
    decreases k
  {
    if k > 0 {
      ParseFixed(n / 10, k - 1);
      assert Fixed(n, k)[..k - 1] == Fixed(n / 10, k - 1);
    }
  }

  lemma {:induction false} FixedZero(k: nat)
    ensures Fixed(0, k) == Zeros(k)
  {
    if k > 0 { FixedZero(k - 1); }
  }

  lemma {:induction false} FixedIsPadded(n: nat, k: nat)
    requires n < Pow10(k) && k >= 1
    ensures |Print(n)| <= k && Fixed(n, k) == Zeros(k - |Print(n)|) + Print(n)
    decreases k
  {
    if n < 10 {
      FixedZero(k - 1);
    } else {
      FixedIsPadded(n / 10, k - 1);
      var z := Zeros(k - |Print(n)|);
      assert z + Print(n) == z + Print(n / 10) + [Digit(n % 10)];
    }
  }

  lemma {:induction false} StripPads(s: string)
    requires |s| <= PLACES
    ensures PadEnd(StripZeros(s)) == PadEnd(s)
    decreases |s|
  {
    if s != [] && s[|s| - 1] == '0' {
      var t := s[..|s| - 1];
      StripPads(t);
      assert s == t + ['0'];
      ZerosFront(PLACES - |t|);
      assert t + (['0'] + Zeros(PLACES - |s|)) == s + Zeros(PLACES - |s|);
    }
  }

  lemma {:induction false} ZerosFront(k: nat)
    requires k > 0
    ensures Zeros(k) == ['0'] + Zeros(k - 1)
  {
    if k > 1 {
      ZerosFront(k - 1);
      assert ['0'] + Zeros(k - 2) + ['0'] == ['0'] + (Zeros(k - 2) + ['0']);
    }
  }

  lemma ScaleIsPow10()
    ensures Pow10(PLACES) == SCALE
  {
    assert Pow10(6) == 1_000_000 by { assert Pow10(3) == 1000; }
    assert Pow10(9) == 1_000_000_000;
    assert Pow10(12) == 1_000_000_000_000;
    assert Pow10(15) == 1_000_000_000_000_000;
  }

  // ---- The source's functions -------------------------------------------------------------

  /** The index of the first point, or the length. */
  function Point(s: string): (i: nat)
    ensures i <= |s| && (i < |s| ==> s[i] == '.') && forall k :: 0 <= k < i ==> s[k] != '.'
  {
    if s == [] || s[0] == '.' then 0 else 1 + Point(s[1..])
  }

  function Integral(s: string): string {
    s[..Point(s)]
  }

  function Fraction(s: string): string {
    if Point(s) == |s| then [] else s[Point(s) + 1..]
  }

  predicate WellFormed(s: string) {
    var whole, fraction := Integral(s), Fraction(s);
    && 1 <= |whole| <= PLACES && AllDigits(whole) && (whole[0] != '0' || |whole| == 1)
    && (Point(s) < |s| ==> 1 <= |fraction| <= PLACES) && AllDigits(fraction)
  }

  function Shown(whole: string, fraction: string): string {
    if fraction == [] then whole else whole + ['.'] + fraction
  }

  /** canonicalBudgetMoney: None where the source throws. */
  function Canonical(s: string): Option<string> {
    if WellFormed(s) then Some(Shown(Integral(s), StripZeros(Fraction(s)))) else None
  }

  function TotalUnits(s: string): nat
    requires AllDigits(Integral(s)) && AllDigits(Fraction(s))
  {
    Parse(Integral(s)) * SCALE + Parse(PadEnd(Fraction(s)))
  }

  function Decimal(v: nat): string {
    Shown(Print(v / SCALE), StripZeros(PadStart(Print(v % SCALE))))
  }

  // ---- Printing and parsing undo each other ------------------------------------------------

  lemma PointOf(whole: string, fraction: string)
    requires AllDigits(whole)
    ensures Integral(Shown(whole, fraction)) == whole
    ensures Fraction(Shown(whole, fraction)) == fraction
  {
    var s := Shown(whole, fraction);
    if fraction == [] {
      assert Point(s) == |s|;
    } else {
      assert s[|whole|] == '.';
      assert forall k :: 0 <= k < |whole| ==> s[k] == whole[k] && whole[k] != '.';
      assert Point(s) == |whole|;
    }
  }

  lemma FractionDigits(v: nat)
    ensures PadStart(Print(v % SCALE)) == Fixed(v % SCALE, PLACES)
    ensures PadEnd(StripZeros(Fixed(v % SCALE, PLACES))) == Fixed(v % SCALE, PLACES)
    ensures Parse(Fixed(v % SCALE, PLACES)) == v % SCALE
  {
    ScaleIsPow10();
    FixedIsPadded(v % SCALE, PLACES);
    if |Print(v % SCALE)| == PLACES { assert Zeros(0) + Print(v % SCALE) == Print(v % SCALE); }
    StripPads(Fixed(v % SCALE, PLACES));
    ParseFixed(v % SCALE, PLACES);
  }

  /** Every number of units prints to a decimal that parses back to it. */
  lemma DecimalRoundTrip(v: nat)
    ensures AllDigits(Integral(Decimal(v))) && AllDigits(Fraction(Decimal(v)))
    ensures TotalUnits(Decimal(v)) == v
  {
    FractionDigits(v);
    ParsePrint(v / SCALE);
    var f := StripZeros(Fixed(v % SCALE, PLACES));
    PointOf(Print(v / SCALE), f);
    assert v == v / SCALE * SCALE + v % SCALE;
  }

  /** Every accepted amount has the decimal of its units as its canonical form, and fewer than 10^36
      units. So two accepted amounts have one canonical form exactly when they are the same amount. */
  lemma CanonicalIsDecimal(s: string)
    requires WellFormed(s)
    ensures Canonical(s) == Some(Decimal(TotalUnits(s)))
    ensures TotalUnits(s) < LIMIT
  {
    UnitsParts(s);
    DecimalOf(TotalUnits(s), Integral(s), PadEnd(Fraction(s)));
    StripPadded(Fraction(s));
  }

  lemma DecimalOf(v: nat, whole: string, pad: string)
    requires AllDigits(whole) && whole != [] && (whole[0] != '0' || |whole| == 1) && v / SCALE == Parse(whole)
    requires AllDigits(pad) && |pad| == PLACES && v % SCALE == Parse(pad)
    ensures Decimal(v) == Shown(whole, StripZeros(pad))
  {
    PrintParse(whole);
    FractionDigits(v);
    FixedParse(pad);
  }

  /** The units of an accepted amount fall apart again into its two halves. */
  lemma UnitsParts(s: string)
    requires WellFormed(s)
    ensures TotalUnits(s) / SCALE == Parse(Integral(s))
    ensures |PadEnd(Fraction(s))| == PLACES && TotalUnits(s) % SCALE == Parse(PadEnd(Fraction(s)))
    ensures TotalUnits(s) < LIMIT
  {
    ScaleIsPow10();
    ParseBound(PadEnd(Fraction(s)));
    ParseBound(Integral(s));
    PowGrows(|Integral(s)|, PLACES);
    SplitUnits(Parse(Integral(s)), Parse(PadEnd(Fraction(s))));
  }

  lemma SplitUnits(q: nat, r: nat)
    requires r < SCALE && q < SCALE
    ensures (q * SCALE + r) / SCALE == q && (q * SCALE + r) % SCALE == r && q * SCALE + r < LIMIT
  {
  }

  lemma {:induction false} PowGrows(a: nat, b: nat)
    requires a <= b
    ensures Pow10(a) <= Pow10(b)
    decreases b
  {
    if a < b { PowGrows(a, b - 1); }
  }

  /** Padding with zeros and stripping them again changes nothing. */
  lemma StripPadded(s: string)
    requires |s| <= PLACES
    ensures StripZeros(PadEnd(s)) == StripZeros(s)
  {
    if |s| < PLACES { StripAppended(s, PLACES - |s|); }
  }

  lemma {:induction false} StripAppended(s: string, k: nat)
    ensures StripZeros(s + Zeros(k)) == StripZeros(s)
    decreases k
  {
    if k == 0 {
      assert s + Zeros(0) == s;
    } else {
      var t := s + Zeros(k);
      assert t == (s + Zeros(k - 1)) + ['0'];
      assert t[..|t| - 1] == s + Zeros(k - 1);
      StripAppended(s, k - 1);
    }
  }

  lemma ShownWellFormed(whole: string, fraction: string)
    requires AllDigits(whole) && 1 <= |whole| <= PLACES && (whole[0] != '0' || |whole| == 1)
    requires AllDigits(fraction) && |fraction| <= PLACES
    ensures WellFormed(Shown(whole, fraction))
  {
    PointOf(whole, fraction);
  }

  lemma WholeDigits(q: nat)
    requires q < SCALE
    ensures 1 <= |Print(q)| <= PLACES && (Print(q)[0] != '0' || |Print(q)| == 1)
  {
    ScaleIsPow10();
    PrintLeads(q);
    FixedIsPadded(q, PLACES);
  }

  /** What the ledger prints is accepted as it stands, as long as it has at most 18 integral digits. */
  lemma DecimalIsCanonical(v: nat)
    requires v < LIMIT
    ensures Canonical(Decimal(v)) == Some(Decimal(v))
  {
    FractionDigits(v);
    WholeDigits(v / SCALE);
    ShownWellFormed(Print(v / SCALE), StripZeros(Fixed(v % SCALE, PLACES)));
    DecimalRoundTrip(v);
    CanonicalIsDecimal(Decimal(v));
  }

  // ---- What the strings mean --------------------------------------------------------------

  /** The accepted amounts, by their shape: a whole part of at most 18 digits without a leading zero,
      and, after a point, between one and 18 digits. */
  lemma AcceptedExactly(s: string)
    ensures Canonical(s).Some? <==>
            || IsWhole(s)
            || exists i :: 0 <= i < |s| && s[i] == '.' && IsWhole(s[..i]) && 1 <= |s[i + 1..]| <= 18 && AllDigits(s[i + 1..])
  {
    if IsWhole(s) { WholeAccepted(s); }
    if i :| 0 <= i < |s| && s[i] == '.' && IsWhole(s[..i]) && 1 <= |s[i + 1..]| <= 18 && AllDigits(s[i + 1..]) { PointAccepted(s, i); }
    if WellFormed(s) { AcceptedShape(s); }
  }

  lemma WholeAccepted(s: string)
    requires IsWhole(s)
    ensures WellFormed(s)
  {
    assert forall k :: 0 <= k < |s| ==> s[k] != '.';
    assert Point(s) == |s|;
    assert s[..|s|] == s;
  }

  lemma PointAccepted(s: string, i: nat)
    requires i < |s| && s[i] == '.' && IsWhole(s[..i]) && 1 <= |s[i + 1..]| <= 18 && AllDigits(s[i + 1..])
    ensures WellFormed(s)
  {
    assert forall k :: 0 <= k < i ==> s[k] == s[..i][k] && s[k] != '.';
    assert Point(s) == i;
  }

  lemma AcceptedShape(s: string)
    requires WellFormed(s)
    ensures if Point(s) == |s| then IsWhole(s)
            else var i := Point(s); s[i] == '.' && IsWhole(s[..i]) && 1 <= |s[i + 1..]| <= 18 && AllDigits(s[i + 1..])
  {
    if Point(s) == |s| { assert s[..|s|] == s; }
  }

  predicate IsWhole(s: string) {
    1 <= |s| <= 18 && AllDigits(s) && (s[0] == '0' ==> |s| == 1)
  }

  /** An amount with `k` fractional digits is worth its digits, read as one number, times 10^(18-k)
      units; so one whole is 10^18 units. */
  lemma UnitsMean(whole: string, fraction: string)
    requires AllDigits(whole) && AllDigits(fraction) && |fraction| <= 18
    ensures AllDigits(whole + fraction)
    ensures Integral(Shown(whole, fraction)) == whole && Fraction(Shown(whole, fraction)) == fraction
    ensures TotalUnits(Shown(whole, fraction)) == Parse(whole + fraction) * Pow10(18 - |fraction|)
  {
    UnitsMeanBy(whole, fraction, 18 - |fraction|);
  }

  lemma UnitsMeanBy(whole: string, fraction: string, k: nat)
    requires AllDigits(whole) && AllDigits(fraction) && |fraction| + k == 18
    ensures AllDigits(whole + fraction)
    ensures Integral(Shown(whole, fraction)) == whole && Fraction(Shown(whole, fraction)) == fraction
    ensures TotalUnits(Shown(whole, fraction)) == Parse(whole + fraction) * Pow10(k)
  {
    var a, b, p, q := Parse(whole), Parse(fraction), Pow10(|fraction|), Pow10(k);
    UnitsShown(whole, fraction, k);
    WholeAndFraction(whole, fraction);
    ScaleSplits(|fraction|, k);
    ScaleOut(a, b, p, q, SCALE);
  }

  lemma WholeAndFraction(whole: string, fraction: string)
    requires AllDigits(whole) && AllDigits(fraction)
    ensures AllDigits(whole + fraction) && Parse(whole + fraction) == Parse(whole) * Pow10(|fraction|) + Parse(fraction)
  {
    ParseAppend(whole, fraction);
  }

  lemma UnitsShown(whole: string, fraction: string, k: nat)
    requires AllDigits(whole) && AllDigits(fraction) && |fraction| + k == 18
    ensures Integral(Shown(whole, fraction)) == whole && Fraction(Shown(whole, fraction)) == fraction
    ensures TotalUnits(Shown(whole, fraction)) == Parse(whole) * SCALE + Parse(fraction) * Pow10(k)
  {
    PointOf(whole, fraction);
    PadEndParses(fraction, k);
  }

  lemma PadEndParses(fraction: string, k: nat)
    requires AllDigits(fraction) && |fraction| + k == 18
    ensures AllDigits(PadEnd(fraction)) && Parse(PadEnd(fraction)) == Parse(fraction) * Pow10(k)
  {
    ParsePadded(fraction, k);
    if k == 0 { assert fraction + Zeros(k) == fraction; }
    assert PadEnd(fraction) == fraction + Zeros(k);
  }

  lemma {:induction false} ParsePadded(s: string, k: nat)
    requires AllDigits(s)
    ensures AllDigits(s + Zeros(k)) && Parse(s + Zeros(k)) == Parse(s) * Pow10(k)
    decreases k
  {
    if k == 0 {
      assert s + Zeros(k) == s;
    } else {
      var t := s + Zeros(k);
      assert t[..|t| - 1] == s + Zeros(k - 1) && t[|t| - 1] == '0';
      ParsePadded(s, k - 1);
      TenTimes(Parse(s), Pow10(k - 1), 0);
    }
  }

  lemma ScaleSplits(j: nat, k: nat)
    requires j + k == 18
    ensures Pow10(j) * Pow10(k) == SCALE
  {
    PowAdds(j, k);
    ScaleIsPow10();
  }

  lemma ScaleOut(a: nat, b: nat, p: nat, q: nat, scale: nat)
    requires p * q == scale
    ensures a * scale + b * q == (a * p + b) * q
  {
    assert a * scale == a * p * q;
  }

  lemma {:induction false} PowAdds(a: nat, b: nat)
    ensures Pow10(a) * Pow10(b) == Pow10(a + b)
  {
    if a > 0 {
      PowAdds(a - 1, b);
      assert Pow10(a) * Pow10(b) == 10 * (Pow10(a - 1) * Pow10(b));
    }
  }

  lemma {:induction false} ParseAppend(a: string, b: string)
    requires AllDigits(a) && AllDigits(b)
    ensures AllDigits(a + b) && Parse(a + b) == Parse(a) * Pow10(|b|) + Parse(b)
    decreases |b|
  {
    if b == [] {
      assert a + b == a;
    } else {
      var n := |b| - 1;
      assert (a + b)[..|a + b| - 1] == a + b[..n] && (a + b)[|a + b| - 1] == b[n];
      ParseAppend(a, b[..n]);
      TenTimes(Parse(a), Pow10(n), Parse(b[..n]));
    }
  }

  lemma TenTimes(a: nat, p: nat, b: nat)
    ensures 10 * (a * p + b) == a * (10 * p) + 10 * b
  {
  }
}
