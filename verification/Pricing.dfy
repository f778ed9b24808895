/** Reviewed prices: the most a call can cost, what a call did cost, and why the first is never
    less than the second for usage within the reviewed limits. */
module Pricing {
  import opened Basics
  import opened Money
  import opened UsageGrammar
  import L = BudgetLedger

  const MILLION: nat := 1_000_000
  const MAX_TOKENS: nat := 1_000_000_000
  const MAX_SAFE_INTEGER: nat := 9_007_199_254_740_991

  datatype Format = OpenAi | Anthropic | Embedding

  /** USD per million tokens, as canonical decimal strings. */
  datatype Rates = Rates(input: string, output: string, cacheRead: string, cacheWrite: string)
  datatype Profile = Profile(format: Format, inputTokens: nat, outputTokens: nat, rates: Rates)

  /** A reviewed rate: canonical, and at most a million dollars. */
  predicate Rate(v: string) {
    Canonical(v) == Some(v) && TotalUnits(v) <= MILLION * SCALE
  }

  /** The same four rates in units. */
  datatype Tariff = Tariff(input: nat, output: nat, cacheRead: nat, cacheWrite: nat)

  function RateUnits(v: string): nat {
    if Rate(v) then TotalUnits(v) else 0
  }

  lemma RateUnitsBounded(v: string)
    ensures RateUnits(v) <= MILLION * SCALE
  {
  }

  function Units(r: Rates): Tariff {
    Tariff(RateUnits(r.input), RateUnits(r.output), RateUnits(r.cacheRead), RateUnits(r.cacheWrite))
  }

  predicate ValidProfile(p: Profile) {
    && 1 <= p.inputTokens <= MAX_TOKENS && 1 <= p.outputTokens <= MAX_TOKENS
    && Rate(p.rates.input) && Rate(p.rates.output) && Rate(p.rates.cacheRead) && Rate(p.rates.cacheWrite)
    && (p.format.OpenAi? ==> p.rates.cacheWrite == "0")
    && (p.format.Embedding? ==> p.rates.output == "0" && p.rates.cacheRead == "0" && p.rates.cacheWrite == "0")
  }

  predicate ValidUsage(p: Profile, u: Usage) {
    && u.input <= MAX_SAFE_INTEGER && u.output <= MAX_SAFE_INTEGER
    && u.cacheRead <= MAX_SAFE_INTEGER && u.cacheWrite <= MAX_SAFE_INTEGER
    && (p.format.OpenAi? ==> u.cacheRead <= u.input && u.cacheWrite == 0)
    && (p.format.Embedding? ==> u.output == 0 && u.cacheRead == 0 && u.cacheWrite == 0)
  }

  /** Rounds an exact sum of token-times-rate up, once. */
  function RoundUp(numerator: nat): nat {
    (numerator + MILLION - 1) / MILLION
  }

  function Amount(numerator: nat): Option<string> {
    Canonical(Decimal(RoundUp(numerator)))
  }

  /** The dearest rate an input token of this format can be charged at. */
  function HighestInputRate(format: Format, t: Tariff): nat {
    match format
    case Embedding => t.input
    case OpenAi => Max(t.input, t.cacheRead)
    case Anthropic => Max(Max(t.input, t.cacheRead), t.cacheWrite)
  }

  function MaximumNumerator(p: Profile, t: Tariff): nat {
    p.inputTokens * HighestInputRate(p.format, t) + p.outputTokens * t.output
  }

  /** Input tokens billed at the ordinary rate: OpenAI counts cached tokens inside its input. */
  function Ordinary(p: Profile, u: Usage): nat
    requires ValidUsage(p, u)
  {
    if p.format.OpenAi? then u.input - u.cacheRead else u.input
  }

  function ActualNumerator(p: Profile, u: Usage, t: Tariff): nat
    requires ValidUsage(p, u)
  {
    Ordinary(p, u) * t.input + u.output * t.output + u.cacheRead * t.cacheRead + u.cacheWrite * t.cacheWrite
  }

  /** gatewayMaximumLiability; None where the source throws. */
  function MaximumLiability(p: Profile): Option<string> {
    if !ValidProfile(p) then None else
      var maximum := Amount(MaximumNumerator(p, Units(p.rates)));
      if maximum == Some("0") then None else maximum
  }

  /** gatewayActualAmount; None where the source throws. */
  function ActualAmount(p: Profile, u: Usage): Option<string> {
    if !ValidProfile(p) || !ValidUsage(p, u) then None else Amount(ActualNumerator(p, u, Units(p.rates)))
  }

  // ---- Exactness --------------------------------------------------------------------------

  predicate IsAmount(s: Option<string>, units: nat) {
    && s.Some? && WellFormed(s.value) && TotalUnits(s.value) == units
  }

  lemma AmountIsExact(numerator: nat)
    requires numerator < (LIMIT - 1) * MILLION
    ensures IsAmount(Amount(numerator), RoundUp(numerator))
    ensures Amount(numerator) == Some("0") <==> numerator == 0
  {
    var n := RoundUp(numerator);
    DecimalIsCanonical(n);
    DecimalRoundTrip(n);
    DecimalRoundTrip(0);
    PrintZero();
  }

  lemma PrintZero()
    ensures Decimal(0) == "0"
  {
    ZerosStrip(PLACES);
    ZerosFront(PLACES);
    assert Zeros(PLACES - 1) + "0" == Zeros(PLACES);
  }

  lemma {:induction false} ZerosStrip(k: nat)
    ensures StripZeros(Zeros(k)) == ""
  {
    if k > 0 {
      ZerosStrip(k - 1);
      assert Zeros(k)[..k - 1] == Zeros(k - 1);
    }
  }

  lemma MulMono(a: nat, b: nat, x: nat, y: nat)
    requires a <= b && x <= y
    ensures a * x <= b * y
  {
    assert a * x <= b * x && b * x <= b * y;
  }

  /** Reviewed rates and safe-integer counts stay far below 18 integral digits. */
  lemma NumeratorsFit(p: Profile, u: Usage, t: Tariff)
    requires t.input <= MILLION * SCALE && t.output <= MILLION * SCALE
    requires t.cacheRead <= MILLION * SCALE && t.cacheWrite <= MILLION * SCALE
    requires ValidUsage(p, u) && p.inputTokens <= MAX_TOKENS && p.outputTokens <= MAX_TOKENS
    ensures ActualNumerator(p, u, t) < (LIMIT - 1) * MILLION
    ensures MaximumNumerator(p, t) < (LIMIT - 1) * MILLION
  {
    MulMono(Ordinary(p, u), MAX_SAFE_INTEGER, t.input, MILLION * SCALE);
    MulMono(u.output, MAX_SAFE_INTEGER, t.output, MILLION * SCALE);
    MulMono(u.cacheRead, MAX_SAFE_INTEGER, t.cacheRead, MILLION * SCALE);
    MulMono(u.cacheWrite, MAX_SAFE_INTEGER, t.cacheWrite, MILLION * SCALE);
    MulMono(p.inputTokens, MAX_TOKENS, HighestInputRate(p.format, t), MILLION * SCALE);
    MulMono(p.outputTokens, MAX_TOKENS, t.output, MILLION * SCALE);
  }

  lemma ReviewedNumeratorsFit(p: Profile, u: Usage)
    requires ValidProfile(p) && ValidUsage(p, u)
    ensures ActualNumerator(p, u, Units(p.rates)) < (LIMIT - 1) * MILLION
    ensures MaximumNumerator(p, Units(p.rates)) < (LIMIT - 1) * MILLION
  {
    RateUnitsBounded(p.rates.input);
    RateUnitsBounded(p.rates.output);
    RateUnitsBounded(p.rates.cacheRead);
    RateUnitsBounded(p.rates.cacheWrite);
    NumeratorsFit(p, u, Units(p.rates));
  }

  /** The least number of units that covers a numerator in millionths of a unit. */
  predicate LeastCover(n: nat, numerator: nat) {
    && n * MILLION >= numerator
    && forall m: nat :: m * MILLION >= numerator ==> n <= m
  }

  /** Every safe-integer usage of a reviewed profile is priced, within 18 integral digits, at the
      exact sum of the four charges rounded up once. */
  lemma ActualAmountIsExact(p: Profile, u: Usage)
    requires ValidProfile(p) && ValidUsage(p, u)
    ensures var numerator := ActualNumerator(p, u, Units(p.rates));
            IsAmount(ActualAmount(p, u), RoundUp(numerator)) && LeastCover(RoundUp(numerator), numerator)
  {
    ReviewedNumeratorsFit(p, u);
    AmountIsExact(ActualNumerator(p, u, Units(p.rates)));
    RoundUpIsLeast(ActualNumerator(p, u, Units(p.rates)));
  }

  lemma RoundUpIsLeast(numerator: nat)
    ensures LeastCover(RoundUp(numerator), numerator)
  {
  }

  // ---- The reservation covers reviewed usage ----------------------------------------------

  /** Usage within the reviewed limits; the input limit bounds all chargeable input together. */
  predicate WithinLimits(p: Profile, u: Usage) {
    && u.output <= p.outputTokens
    && (if p.format.OpenAi? then u.input else u.input + u.cacheRead + u.cacheWrite) <= p.inputTokens
  }

  /** No mix of input categories costs more than charging every token at the dearest rate. */
  lemma MaximumCovers(p: Profile, u: Usage, t: Tariff)
    requires ValidUsage(p, u) && WithinLimits(p, u)
    ensures ActualNumerator(p, u, t) <= MaximumNumerator(p, t)
  {
    var h, o := HighestInputRate(p.format, t), Ordinary(p, u);
    MulMono(o, o, t.input, h);
    if !p.format.Embedding? { MulMono(u.cacheRead, u.cacheRead, t.cacheRead, h); }
    if p.format.Anthropic? { MulMono(u.cacheWrite, u.cacheWrite, t.cacheWrite, h); }
    Distribute(o, u.cacheRead, u.cacheWrite, h);
    MulMono(o + u.cacheRead + u.cacheWrite, p.inputTokens, h, h);
    MulMono(u.output, p.outputTokens, t.output, t.output);
  }

  lemma Distribute(a: nat, b: nat, c: nat, h: nat)
    ensures (a + b + c) * h == a * h + b * h + c * h
  {
  }

  /** Usage within the reviewed limits never costs more than the maximum liability. */
  lemma MaximumCoversReviewedUsage(p: Profile, u: Usage)
    requires ValidUsage(p, u) && WithinLimits(p, u) && MaximumLiability(p).Some?
    ensures ActualAmount(p, u).Some? && WellFormed(ActualAmount(p, u).value) && WellFormed(MaximumLiability(p).value)
    ensures TotalUnits(ActualAmount(p, u).value) <= TotalUnits(MaximumLiability(p).value)
    ensures TotalUnits(MaximumLiability(p).value) > 0
  {
    var t := Units(p.rates);
    MaximumCovers(p, u, t);
    ReviewedNumeratorsFit(p, u);
    AmountIsExact(ActualNumerator(p, u, t));
    AmountIsExact(MaximumNumerator(p, t));
    RoundUpMono(ActualNumerator(p, u, t), MaximumNumerator(p, t));
  }

  lemma RoundUpMono(m: nat, n: nat)
    requires m <= n
    ensures RoundUp(m) <= RoundUp(n) && (n > 0 ==> RoundUp(n) > 0)
  {
  }

  /** A profile is refused a liability exactly when it is not a reviewed one or every rate it can
      charge is zero. */
  lemma MaximumIsPositive(p: Profile)
    requires ValidProfile(p)
    ensures var t := Units(p.rates);
            MaximumLiability(p) == None <==> HighestInputRate(p.format, t) == 0 && t.output == 0
  {
    ReviewedNumeratorsFit(p, Usage(0, 0, 0, 0));
    AmountIsExact(MaximumNumerator(p, Units(p.rates)));
    ZeroMaximum(p, Units(p.rates));
  }

  lemma ZeroMaximum(p: Profile, t: Tariff)
    requires p.inputTokens > 0 && p.outputTokens > 0
    ensures MaximumNumerator(p, t) == 0 <==> HighestInputRate(p.format, t) == 0 && t.output == 0
  {
    Positive(p.inputTokens, HighestInputRate(p.format, t));
    Positive(p.outputTokens, t.output);
  }

  lemma Positive(a: nat, b: nat)
    requires a > 0
    ensures a * b == 0 <==> b == 0
  {
  }

  /** End to end: with the maximum liability reserved, the first receipt for reviewed usage settles
      the attempt at its exact cost, without conflict. */
  lemma ReviewedReceiptSettles(p: Profile, u: Usage, a: L.Attempt, hash: L.Hash)
    requires ValidUsage(p, u) && WithinLimits(p, u)
    requires MaximumLiability(p).Some? && WellFormed(MaximumLiability(p).value)
    requires a.reserved == TotalUnits(MaximumLiability(p).value)
    requires (a.state.Admitted? || a.state.Unknown?) && a.settlement == None
    ensures ActualAmount(p, u).Some? && WellFormed(ActualAmount(p, u).value)
    ensures var b := L.Receive(a, hash, TotalUnits(ActualAmount(p, u).value));
            && b.state.Settled?
            && b.settlement == Some(L.Settlement(hash, RoundUp(ActualNumerator(p, u, Units(p.rates)))))
  {
    MaximumCoversReviewedUsage(p, u);
    ActualAmountIsExact(p, u);
    FirstReceiptSettles(a, hash, TotalUnits(ActualAmount(p, u).value));
  }

  lemma FirstReceiptSettles(a: L.Attempt, hash: L.Hash, amount: nat)
    requires (a.state.Admitted? || a.state.Unknown?) && a.settlement == None && amount <= a.reserved
    ensures var b := L.Receive(a, hash, amount); b.state.Settled? && b.settlement == Some(L.Settlement(hash, amount))
  {
  }

  // ---- Stated over the profile and the usage alone ----------------------------------------

  /** `n` units cover the four charges, each token category at its own reviewed rate per million;
      `ordinary` counts the input tokens billed as plain input. */
  predicate Covers(n: nat, p: Profile, ordinary: nat, u: Usage)
    requires ValidProfile(p)
  {
    n * MILLION >= ordinary * TotalUnits(p.rates.input) + u.output * TotalUnits(p.rates.output)
                   + u.cacheRead * TotalUnits(p.rates.cacheRead) + u.cacheWrite * TotalUnits(p.rates.cacheWrite)
  }

  /** The price of any valid usage is the least number of units that covers input, output, cache reads
      and cache writes at their rates; an OpenAI format counts its cached tokens inside its input, and
      they are billed as cache reads only. */
  lemma PriceIsLeastCover(p: Profile, u: Usage, ordinary: nat)
    requires ValidProfile(p) && ValidUsage(p, u)
    requires if p.format == OpenAi then ordinary + u.cacheRead == u.input else ordinary == u.input
    ensures ActualAmount(p, u).Some? && WellFormed(ActualAmount(p, u).value)
    ensures var n := TotalUnits(ActualAmount(p, u).value);
            Covers(n, p, ordinary, u) && forall m: nat :: Covers(m, p, ordinary, u) ==> n <= m
  {
    ActualAmountIsExact(p, u);
    ChargesWrittenOut(p, u, ordinary);
  }

  lemma ChargesWrittenOut(p: Profile, u: Usage, ordinary: nat)
    requires ValidProfile(p) && ValidUsage(p, u)
    requires if p.format == OpenAi then ordinary + u.cacheRead == u.input else ordinary == u.input
    ensures ActualNumerator(p, u, Units(p.rates)) ==
            ordinary * TotalUnits(p.rates.input) + u.output * TotalUnits(p.rates.output)
            + u.cacheRead * TotalUnits(p.rates.cacheRead) + u.cacheWrite * TotalUnits(p.rates.cacheWrite)
  {
    var t := Units(p.rates);
    UnitsAreRates(p);
    NumeratorWrittenOut(p, u, ordinary, t);
  }

  lemma UnitsAreRates(p: Profile)
    requires ValidProfile(p)
    ensures Units(p.rates) == Tariff(TotalUnits(p.rates.input), TotalUnits(p.rates.output), TotalUnits(p.rates.cacheRead), TotalUnits(p.rates.cacheWrite))
  {
  }

  lemma NumeratorWrittenOut(p: Profile, u: Usage, ordinary: nat, t: Tariff)
    requires ValidUsage(p, u)
    requires if p.format == OpenAi then ordinary + u.cacheRead == u.input else ordinary == u.input
    ensures ActualNumerator(p, u, t) ==
            ordinary * t.input + u.output * t.output + u.cacheRead * t.cacheRead + u.cacheWrite * t.cacheWrite
  {
  }

  /** The reviewed usage that costs most: every input token in the dearest category of the format. */
  function DearestUsage(p: Profile): Usage
    requires ValidProfile(p)
  {
    var i, r, w := TotalUnits(p.rates.input), TotalUnits(p.rates.cacheRead), TotalUnits(p.rates.cacheWrite);
    var out := if p.format.Embedding? then 0 else p.outputTokens;
    if p.format.Anthropic? && w >= i && w >= r then Usage(0, out, 0, p.inputTokens)
    else if !p.format.Embedding? && r >= i then Usage(if p.format.OpenAi? then p.inputTokens else 0, out, p.inputTokens, 0)
    else Usage(p.inputTokens, out, 0, 0)
  }

  /** The maximum liability is no looser than it must be: some usage within the reviewed limits costs
      exactly that much. */
  lemma MaximumIsAttained(p: Profile)
    requires MaximumLiability(p).Some?
    ensures var u := DearestUsage(p);
            ValidUsage(p, u) && WithinLimits(p, u) && ActualAmount(p, u) == MaximumLiability(p)
  {
    DearestCosts(p);
  }

  lemma DearestCosts(p: Profile)
    requires ValidProfile(p)
    ensures var u := DearestUsage(p);
            ValidUsage(p, u) && WithinLimits(p, u) && ActualNumerator(p, u, Units(p.rates)) == MaximumNumerator(p, Units(p.rates))
  {
    if p.format.Embedding? { RateOfZero(p.rates.output); }
    DearestNumerator(p, DearestUsage(p), Units(p.rates));
  }

  lemma DearestNumerator(p: Profile, u: Usage, t: Tariff)
    requires ValidUsage(p, u) && u.output == (if p.format.Embedding? then 0 else p.outputTokens)
    requires p.format.Embedding? ==> t.output == 0
    requires u == Usage(u.input, u.output, u.cacheRead, u.cacheWrite)
    requires if p.format.Anthropic? && t.cacheWrite >= t.input && t.cacheWrite >= t.cacheRead
             then u.input == 0 && u.cacheRead == 0 && u.cacheWrite == p.inputTokens
             else if !p.format.Embedding? && t.cacheRead >= t.input
             then u.input == (if p.format.OpenAi? then p.inputTokens else 0) && u.cacheRead == p.inputTokens && u.cacheWrite == 0
             else u.input == p.inputTokens && u.cacheRead == 0 && u.cacheWrite == 0
    ensures ActualNumerator(p, u, t) == MaximumNumerator(p, t)
  {
    assert p.format.Embedding? ==> p.outputTokens * t.output == 0;
  }

  lemma RateOfZero(v: string)
    requires v == "0"
    ensures RateUnits(v) == 0
  {
    PrintZero();
    DecimalRoundTrip(0);
  }
}
