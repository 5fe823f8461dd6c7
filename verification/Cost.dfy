/** Fixed-point cost estimates and money text (internal/cost/cost.go). */
module Cost {
  import opened Prelude

  const MAX_INT64: int := 0x7FFF_FFFF_FFFF_FFFF
  const MILLION: int := 1000000

  type Int64 = x: int | -MAX_INT64 - 1 <= x <= MAX_INT64

  datatype CostError = MissingMetadata | InvalidUsage | InvalidRate | Overflow | NotANumber | TooPrecise

  datatype Metadata = Metadata(currency: string, inputRate: Int64, outputRate: Int64)

  datatype Usage = Usage(inputTokens: Int64, outputTokens: Int64)

  datatype Estimate = Estimate(inputMicro: Int64, outputMicro: Int64, totalMicro: Int64)

  // ---------------------------------------------------------------- pricing

  function ValidateMetadata(meta: Metadata): Option<CostError> {
    if Blank(meta.currency) then Some(MissingMetadata)
    else if meta.inputRate < 0 || meta.outputRate < 0 then Some(InvalidRate)
    else if meta.inputRate == 0 && meta.outputRate == 0 then Some(MissingMetadata)
    else None
  }

  /** Division that truncates toward zero. */
  function Quo(a: int, b: int): int
    requires b > 0
  {
    if a >= 0 then a / b else -(-a / b)
  }

  function MicrosForTokens(tokens: Int64, rate: Int64): Result<Int64, CostError> {
    if tokens == 0 || rate == 0 then Ok(0)
    else
      var product := Quo(tokens * rate, MILLION);
      if -MAX_INT64 - 1 <= product <= MAX_INT64 then Ok(product) else Err(Overflow)
  }

  function EstimateCost(meta: Metadata, usage: Usage): Result<Estimate, CostError> {
    match ValidateMetadata(meta)
    case Some(e) => Err(e)
    case None =>
      if usage.inputTokens < 0 || usage.outputTokens < 0 then Err(InvalidUsage)
      else
        match MicrosForTokens(usage.inputTokens, meta.inputRate)
        case Err(e) => Err(e)
        case Ok(input) =>
          match MicrosForTokens(usage.outputTokens, meta.outputRate)
          case Err(e) => Err(e)
          case Ok(output) =>
            if input > MAX_INT64 - output then Err(Overflow) else Ok(Estimate(input, output, input + output))
  }

  /** Exact price of one component, rounded down to a micro-dollar. */
  function FloorPrice(tokens: nat, rate: nat): nat { tokens * rate / MILLION }

  /** Metadata and usage that can be priced at all. */
  predicate Priceable(meta: Metadata, usage: Usage) {
    ValidateMetadata(meta).None? && usage.inputTokens >= 0 && usage.outputTokens >= 0
  }

  /** Exact total of two rounded components. */
  function ExactTotal(meta: Metadata, inputTokens: nat, outputTokens: nat): nat
    requires ValidateMetadata(meta).None?
  {
    FloorPrice(inputTokens, meta.inputRate) + FloorPrice(outputTokens, meta.outputRate)
  }

  lemma MicrosAreFloor(tokens: Int64, rate: Int64)
    requires tokens >= 0 && rate >= 0
    ensures MicrosForTokens(tokens, rate) ==
            if FloorPrice(tokens, rate) <= MAX_INT64 then Ok(FloorPrice(tokens, rate)) else Err(Overflow)
  {
    if tokens == 0 || rate == 0 {
      assert tokens * rate == 0;
    } else {
      assert tokens * rate >= 0;
    }
  }

  /**
   The estimate is the exact floored price; it overflows exactly when a component or the
   total exceeds the 64-bit range.
   */
  lemma EstimateIsExact(meta: Metadata, usage: Usage)
    requires Priceable(meta, usage)
    ensures var i, o := FloorPrice(usage.inputTokens, meta.inputRate), FloorPrice(usage.outputTokens, meta.outputRate);
            EstimateCost(meta, usage) == if i + o <= MAX_INT64 then Ok(Estimate(i, o, i + o)) else Err(Overflow)
  {
    MicrosAreFloor(usage.inputTokens, meta.inputRate);
    MicrosAreFloor(usage.outputTokens, meta.outputRate);
    hide FloorPrice;
  }

  /** Usage is refused exactly when it, or the rates, make no sense. */
  lemma RefusedIff(meta: Metadata, usage: Usage)
    ensures var r := EstimateCost(meta, usage);
            r.Err? && r.error != Overflow <==> !Priceable(meta, usage)
  {
    if Priceable(meta, usage) {
      EstimateIsExact(meta, usage);
    }
  }

  /** Rounding two amounts down one by one loses at most one unit. */
  lemma FloorAdds(a: nat, b: nat)
    ensures a / MILLION + b / MILLION <= (a + b) / MILLION <= a / MILLION + b / MILLION + 1
  {
  }

  function Inputs(usages: seq<Usage>): int {
    if usages == [] then 0 else Inputs(usages[..|usages| - 1]) + usages[|usages| - 1].inputTokens
  }
  function Outputs(usages: seq<Usage>): int {
    if usages == [] then 0 else Outputs(usages[..|usages| - 1]) + usages[|usages| - 1].outputTokens
  }

  predicate AllPriceable(meta: Metadata, usages: seq<Usage>) {
    forall i :: 0 <= i < |usages| ==> Priceable(meta, usages[i])
  }

  /** Sum of the exact totals of usages priced one by one. */
  function SeparateTotal(meta: Metadata, usages: seq<Usage>): nat
    requires AllPriceable(meta, usages)
  {
    if usages == [] then 0
    else
      var last := usages[|usages| - 1];
      SeparateTotal(meta, usages[..|usages| - 1]) + ExactTotal(meta, last.inputTokens, last.outputTokens)
  }

  lemma FloorPriceAdds(a: nat, b: nat, rate: nat)
    ensures FloorPrice(a, rate) + FloorPrice(b, rate) <= FloorPrice(a + b, rate)
            <= FloorPrice(a, rate) + FloorPrice(b, rate) + 1
  {
    FloorAdds(a * rate, b * rate);
    assert (a + b) * rate == a * rate + b * rate;
  }

  /**
   Pricing usages separately never costs more than pricing their sum, and at most two micro-
   dollars less for each usage after the first.
   */
  lemma {:induction false} SeparatePricing(meta: Metadata, usages: seq<Usage>)
    requires usages != [] && AllPriceable(meta, usages)
    ensures Inputs(usages) >= 0 && Outputs(usages) >= 0
    ensures SeparateTotal(meta, usages) <= ExactTotal(meta, Inputs(usages), Outputs(usages))
            <= SeparateTotal(meta, usages) + 2 * (|usages| - 1)
  {
    var n := |usages| - 1;
    var front, last := usages[..n], usages[n];
    assert Priceable(meta, last);
    if n == 0 {
      assert front == [];
    } else {
      SeparatePricing(meta, front);
      FloorPriceAdds(Inputs(front), last.inputTokens, meta.inputRate);
      FloorPriceAdds(Outputs(front), last.outputTokens, meta.outputRate);
      hide FloorPrice;
    }
  }

  // ---------------------------------------------------------------- money as text

  predicate Digit(c: char) { '0' <= c <= '9' }

  function DigitOf(d: nat): char
    requires d < 10
  {
    ('0' as int + d) as char
  }

  function ValueOf(c: char): nat
    requires Digit(c)
  {
    c as int - '0' as int
  }

  /** Decimal digits without leading zeros. */
  function FormatNat(n: nat): string {
    if n < 10 then [DigitOf(n)] else FormatNat(n / 10) + [DigitOf(n % 10)]
  }

  function FormatInt(n: int): string { if n < 0 then "-" + FormatNat(-n) else FormatNat(n) }

  /** Exactly `width` digits, zeros in front. */
  function Padded(n: nat, width: nat): string {
    if width == 0 then [] else Padded(n / 10, width - 1) + [DigitOf(n % 10)]
  }

  /** The C-style format with width six and zero fill: a sign takes one of the six places. */
  function PadSix(n: int): string
    requires -MILLION < n < MILLION
  {
    if n >= 0 then Padded(n, 6)
    else if -n < 100000 then "-" + Padded(-n, 5)
    else "-" + Padded(-n, 6)
  }

  function FormatMicroUsd(micros: Int64): string {
    FormatInt(Quo(micros, MILLION)) + "." + PadSix(micros - Quo(micros, MILLION) * MILLION)
  }

  /** The number that a string of digits denotes. */
  function Numeral(s: string): nat
    requires forall i :: 0 <= i < |s| ==> Digit(s[i])
  {
    if s == [] then 0 else Numeral(s[..|s| - 1]) * 10 + ValueOf(s[|s| - 1])
  }

  function Pow10(k: nat): (p: nat)
    ensures p > 0
  {
    if k == 0 then 1 else 10 * Pow10(k - 1)
  }

  predicate AllDigits(s: string) { forall i :: 0 <= i < |s| ==> Digit(s[i]) }

  /** Length of the leading digits. */
  function DigitRun(s: string): (n: nat)
    ensures n <= |s| && AllDigits(s[..n]) && (n < |s| ==> !Digit(s[n]))
  {
    if s == [] || !Digit(s[0]) then 0
    else
      var n := DigitRun(s[1..]);
      assert s[..n + 1] == [s[0]] + s[1..][..n];
      n + 1
  }

  /** A rational number: `sign * numerator / 10^scale`. */
  datatype Decimal = Decimal(negative: bool, numerator: nat, scale: nat)

  /** A plain decimal: an optional sign, digits with at most one point among them, at least one digit. */
  function ReadUnsigned(s: string, negative: bool): Option<Decimal> {
    var n := DigitRun(s);
    if n == |s| then (if n == 0 then None else Some(Decimal(negative, Numeral(s), 0)))
    else if s[n] != '.' then None
    else
      var fraction := s[n + 1..];
      if DigitRun(fraction) == |fraction| && n + |fraction| > 0 then
        assert fraction[..|fraction|] == fraction;
        Some(Decimal(negative, Numeral(s[..n]) * Pow10(|fraction|) + Numeral(fraction), |fraction|))
      else None
  }

  function ReadDecimal(s: string): Option<Decimal> {
    if s != [] && (s[0] == '-' || s[0] == '+') then ReadUnsigned(s[1..], s[0] == '-') else ReadUnsigned(s, false)
  }

  function TrimSpace(s: string): string
    decreases |s|
  {
    if s != [] && Space(s[0]) then TrimSpace(s[1..])
    else if s != [] && Space(s[|s| - 1]) then TrimSpace(s[..|s| - 1])
    else s
  }

  function ParseUsdMicros(rate: string): Result<Int64, CostError> {
    match ReadDecimal(TrimSpace(rate))
    case None => Err(NotANumber)
    case Some(d) =>
      if d.negative && d.numerator > 0 then Err(NotANumber)
      else if d.numerator * MILLION % Pow10(d.scale) != 0 then Err(TooPrecise)
      else
        var out := d.numerator * MILLION / Pow10(d.scale);
        if out <= MAX_INT64 then Ok(out) else Err(Overflow)
  }

  /**
   A decimal is accepted exactly when it is a whole, non-negative number of micro-dollars in
   the 64-bit range, and yields that number.
   */
  lemma ParseAcceptsIff(rate: string, d: Decimal, m: Int64)
    requires ReadDecimal(TrimSpace(rate)) == Some(d)
    ensures ParseUsdMicros(rate) == Ok(m)
            <==> 0 <= m && m * Pow10(d.scale) == d.numerator * MILLION && !(d.negative && d.numerator > 0)
  {
    hide ReadDecimal, TrimSpace, Pow10;
    var a, p := d.numerator * MILLION, Pow10(d.scale);
    QuotientOf(a, p);
    if m >= 0 && m * p == a {
      DivUnique(m, p, a);
    }
  }

  lemma QuotientOf(a: nat, p: nat)
    requires p > 0
    ensures a == a / p * p + a % p
  {
  }

  lemma Distribute(a: nat, b: nat, p: nat)
    ensures (a + b) * p == a * p + b * p
  {
  }

  lemma NextTimes(a: nat, b: nat, p: nat)
    ensures a < b ==> a * p + p <= b * p
  {
    if a < b {
      var d := b - a - 1;
      Distribute(a + 1, d, p);
      Distribute(a, 1, p);
      assert d * p >= 0;
    }
  }

  lemma DivUnique(m: nat, p: nat, a: nat)
    requires p > 0 && m * p == a
    ensures a / p == m && a % p == 0
  {
    QuotientOf(a, p);
    NextTimes(a / p, m, p);
    NextTimes(m, a / p, p);
  }

  lemma {:induction false} FormatNatReads(n: nat)
    ensures var s := FormatNat(n); s != [] && AllDigits(s) && Numeral(s) == n
  {
    if n >= 10 {
      FormatNatReads(n / 10);
      var s := FormatNat(n / 10) + [DigitOf(n % 10)];
      assert s[..|s| - 1] == FormatNat(n / 10);
    } else {
      assert [DigitOf(n)][..0] == [];
    }
  }

  lemma {:induction false} PaddedReads(n: nat, width: nat)
    requires n < Pow10(width)
    ensures var s := Padded(n, width); |s| == width && AllDigits(s) && Numeral(s) == n
  {
    if width > 0 {
      PaddedReads(n / 10, width - 1);
      var s := Padded(n / 10, width - 1) + [DigitOf(n % 10)];
      assert s[..|s| - 1] == Padded(n / 10, width - 1);
    }
  }

  lemma {:induction false} DigitRunOf(digits: string, rest: string)
    requires AllDigits(digits) && (rest == [] || !Digit(rest[0]))
    ensures DigitRun(digits + rest) == |digits|
  {
    var s := digits + rest;
    if digits == [] {
      assert s == rest;
    } else {
      DigitRunOf(digits[1..], rest);
      assert s[1..] == digits[1..] + rest;
    }
  }

  lemma ReadsParts(whole: string, fraction: string)
    requires whole != [] && AllDigits(whole) && AllDigits(fraction)
    ensures ReadUnsigned(whole + "." + fraction, false)
            == Some(Decimal(false, Numeral(whole) * Pow10(|fraction|) + Numeral(fraction), |fraction|))
  {
    hide Numeral, Pow10, DigitRun;
    var s := whole + "." + fraction;
    assert s == whole + ("." + fraction);
    DigitRunOf(whole, "." + fraction);
    assert s[|whole|] == '.' && s[|whole| + 1..] == fraction && s[..|whole|] == whole;
    DigitRunOf(fraction, []);
    assert fraction + [] == fraction;
  }

  lemma PowSix()
    ensures Pow10(6) == MILLION
  {
    assert Pow10(1) == 10 && Pow10(2) == 100 && Pow10(3) == 1000;
    assert Pow10(4) == 10000 && Pow10(5) == 100000;
  }

  /** A formatted amount reads back as whole dollars and six decimals. */
  lemma ReadsAmount(whole: string, fraction: string)
    requires whole != [] && AllDigits(whole) && |fraction| == 6 && AllDigits(fraction)
    ensures var s := whole + "." + fraction;
            ReadDecimal(TrimSpace(s)) == Some(Decimal(false, Numeral(whole) * MILLION + Numeral(fraction), 6))
  {
    var s := whole + "." + fraction;
    assert s != [] && Digit(s[0]) && Digit(s[|s| - 1]) by {
      assert s[0] == whole[0] && s[|s| - 1] == fraction[5];
    }
    BareNumber(s);
    ReadsParts(whole, fraction);
    PowSix();
    hide *;
  }

  /** Text between two digits has no space to trim and no sign. */
  lemma BareNumber(s: string)
    requires s != [] && Digit(s[0]) && Digit(s[|s| - 1])
    ensures ReadDecimal(TrimSpace(s)) == ReadUnsigned(s, false)
  {
    hide ReadUnsigned;
  }

  lemma PartsRoundTrip(m: Int64, w: nat, f: nat)
    requires m == w * MILLION + f && f < MILLION && FormatMicroUsd(m) == FormatNat(w) + "." + Padded(f, 6)
    ensures ParseUsdMicros(FormatMicroUsd(m)) == Ok(m)
  {
    PowSix();
    hide *;
    FormatNatReads(w);
    PaddedReads(f, 6);
    ReadsAmount(FormatNat(w), Padded(f, 6));
    assert m * Pow10(6) == (w * MILLION + f) * MILLION;
    ParseAcceptsIff(FormatMicroUsd(m), Decimal(false, w * MILLION + f, 6), m);
  }

  /** Every non-negative amount survives being written and read. */
  lemma MoneyRoundTrip(m: Int64)
    requires m >= 0
    ensures ParseUsdMicros(FormatMicroUsd(m)) == Ok(m)
  {
    var w, f := m / MILLION, m % MILLION;
    FormatOf(m, w, f);
    PartsRoundTrip(m, w, f);
  }

  lemma FormatOf(m: Int64, w: nat, f: nat)
    requires m >= 0 && w == m / MILLION && f == m % MILLION
    ensures m == w * MILLION + f
    ensures FormatMicroUsd(m) == FormatNat(w) + "." + Padded(f, 6)
  {
    hide FormatNat, Padded;
  }

  lemma ParsedNonNegative(rate: string)
    ensures ParseUsdMicros(rate).Ok? ==> ParseUsdMicros(rate).value >= 0
  {
    hide ReadDecimal, TrimSpace, Pow10;
  }

  /** Writing and reading meet exactly on the non-negative amounts. */
  lemma MoneyRoundTripIff(m: Int64)
    ensures ParseUsdMicros(FormatMicroUsd(m)) == Ok(m) <==> m >= 0
  {
    hide ParseUsdMicros, FormatMicroUsd;
    ParsedNonNegative(FormatMicroUsd(m));
    if m >= 0 {
      MoneyRoundTrip(m);
    }
  }

  // ---------------------------------------------------------------- what-if simulation

  const WORD: int := 0x1_0000_0000_0000_0000

  /** 64-bit wrap-around. */
  function Wrap(x: int): Int64 {
    if x % WORD > MAX_INT64 then x % WORD - WORD else x % WORD
  }

  datatype SimRequest = SimRequest(usage: Usage, risk: string, routed: Metadata)

  datatype SimResult = SimResult(requests: nat, baselineMicro: Int64, actualMicro: Int64, savingsMicro: Int64,
      savingsPercent: real, riskAdjustedMicro: int)

  /** How much of a saving counts, by risk level. */
  type RiskWeights = map<string, real>

  const DEFAULT_RISK_WEIGHTS: RiskWeights := map["low" := 1.0, "medium" := 0.85, "high" := 0.5, "critical" := 0.2]
  const UNKNOWN_RISK_WEIGHT := 0.5

  function WeightOf(given: Option<RiskWeights>, risk: string): real {
    var weights := if given.Some? then given.value else DEFAULT_RISK_WEIGHTS;
    var key := Lower(TrimSpace(risk));
    if key in weights then weights[key] else UNKNOWN_RISK_WEIGHT
  }

  /** To the nearest integer, halves away from zero. */
  function Round(x: real): int { if x >= 0.0 then (x + 0.5).Floor else -(-x + 0.5).Floor }

  function TotalOr(meta: Metadata, usage: Usage): int {
    match EstimateCost(meta, usage) case Ok(e) => e.totalMicro case Err(_) => 0
  }

  function BaselineSum(baseline: Metadata, rs: seq<SimRequest>): int {
    if rs == [] then 0 else BaselineSum(baseline, rs[..|rs| - 1]) + TotalOr(baseline, rs[|rs| - 1].usage)
  }

  function ActualSum(rs: seq<SimRequest>): int {
    if rs == [] then 0 else ActualSum(rs[..|rs| - 1]) + TotalOr(rs[|rs| - 1].routed, rs[|rs| - 1].usage)
  }

  function Saving(baseline: Metadata, r: SimRequest): int { TotalOr(baseline, r.usage) - TotalOr(r.routed, r.usage) }

  function Weighted(x: real, w: real): real { x * w }

  function RiskSum(baseline: Metadata, weights: Option<RiskWeights>, rs: seq<SimRequest>): real {
    if rs == [] then 0.0
    else
      var r := rs[|rs| - 1];
      RiskSum(baseline, weights, rs[..|rs| - 1]) + Weighted(Saving(baseline, r) as real, WeightOf(weights, r.risk))
  }

  /** Both models of the request have a price. */
  predicate Priced(baseline: Metadata, r: SimRequest) {
    EstimateCost(baseline, r.usage).Ok? && EstimateCost(r.routed, r.usage).Ok?
  }

  /** Wrapping takes off a multiple of the word size. */
  lemma WrapTakes(x: int) returns (k: int)
    ensures Wrap(x) == x - k * WORD
  {
    k := x / WORD;
    if x % WORD > MAX_INT64 {
      k := k + 1;
    }
  }

  lemma WrapShift(x: int, k: int)
    ensures Wrap(x + k * WORD) == Wrap(x)
  {
    SameRemainder(x, k);
  }

  lemma SameRemainder(x: int, k: int)
    ensures (x + k * WORD) % WORD == x % WORD
  {
  }

  lemma WrapAdds(a: int, b: int)
    ensures Wrap(Wrap(a) + b) == Wrap(a + b)
  {
    var k := WrapTakes(a);
    hide Wrap;
    WrapShift(a + b, -k);
  }

  lemma WrapSubtracts(a: int, b: int)
    ensures Wrap(Wrap(a) - Wrap(b)) == Wrap(a - b)
  {
    var j := WrapTakes(a);
    var k := WrapTakes(b);
    hide Wrap;
    WrapShift(a - b, k - j);
  }

  lemma WrapInRange(x: int)
    ensures Wrap(x) == x <==> -MAX_INT64 - 1 <= x <= MAX_INT64
  {
  }

  /** A price does not fall when the rate rises. */
  lemma FloorPriceMonotone(tokens: nat, low: nat, high: nat)
    requires low <= high
    ensures FloorPrice(tokens, low) <= FloorPrice(tokens, high)
  {
    assert tokens * low <= tokens * high;
    QuotientMonotone(tokens * low, tokens * high);
  }

  lemma QuotientMonotone(a: nat, b: nat)
    requires a <= b
    ensures a / MILLION <= b / MILLION
  {
  }

  /** When no routed rate exceeds the baseline rate, no request costs more than its baseline. */
  lemma {:induction false} SavingsNonNegative(baseline: Metadata, rs: seq<SimRequest>)
    requires forall i :: 0 <= i < |rs| ==>
               Priced(baseline, rs[i]) && rs[i].routed.inputRate <= baseline.inputRate
                   && rs[i].routed.outputRate <= baseline.outputRate
    ensures BaselineSum(baseline, rs) >= ActualSum(rs)
  {
    if rs != [] {
      SavingsNonNegative(baseline, rs[..|rs| - 1]);
      var r := rs[|rs| - 1];
      RefusedIff(baseline, r.usage);
      RefusedIff(r.routed, r.usage);
      EstimateIsExact(baseline, r.usage);
      EstimateIsExact(r.routed, r.usage);
      FloorPriceMonotone(r.usage.inputTokens, r.routed.inputRate, baseline.inputRate);
      FloorPriceMonotone(r.usage.outputTokens, r.routed.outputRate, baseline.outputRate);
      hide FloorPrice, EstimateCost;
    }
  }

  // ---------------------------------------------------------------- what the simulation reports

  /** No routed model has a higher rate than the baseline. */
  predicate Ordered(baseline: Metadata, rs: seq<SimRequest>) {
    forall i :: 0 <= i < |rs| ==> rs[i].routed.inputRate <= baseline.inputRate
                                  && rs[i].routed.outputRate <= baseline.outputRate
  }

  predicate AllPriced(baseline: Metadata, rs: seq<SimRequest>) { forall i :: 0 <= i < |rs| ==> Priced(baseline, rs[i]) }

  ghost predicate Fractions(weights: Option<RiskWeights>) { forall risk :: 0.0 <= WeightOf(weights, risk) <= 1.0 }

  lemma DefaultFractions()
    ensures Fractions(None)
  {
  }

  lemma SumsNonNegative(baseline: Metadata, rs: seq<SimRequest>)
    ensures ActualSum(rs) >= 0 && BaselineSum(baseline, rs) >= 0
    decreases |rs|
  {
    if rs != [] {
      SumsNonNegative(baseline, rs[..|rs| - 1]);
      TotalNonNegative(baseline, rs[|rs| - 1].usage);
      TotalNonNegative(rs[|rs| - 1].routed, rs[|rs| - 1].usage);
    }
  }

  lemma TotalNonNegative(meta: Metadata, usage: Usage)
    ensures TotalOr(meta, usage) >= 0
  {
    if EstimateCost(meta, usage).Ok? {
      RefusedIff(meta, usage);
      EstimateIsExact(meta, usage);
    }
  }

  lemma OneSaving(baseline: Metadata, r: SimRequest)
    requires Priced(baseline, r) && r.routed.inputRate <= baseline.inputRate
            && r.routed.outputRate <= baseline.outputRate
    ensures Saving(baseline, r) >= 0
  {
    var one := [r];
    SavingsNonNegative(baseline, one);
    assert one[..0] == [];
    assert BaselineSum(baseline, one) == TotalOr(baseline, r.usage) && ActualSum(one) == TotalOr(r.routed, r.usage);
  }

  lemma FractionOf(x: real, w: real)
    requires x >= 0.0 && 0.0 <= w <= 1.0
    ensures 0.0 <= Weighted(x, w) <= x
  {
    assert x * (1.0 - w) >= 0.0;
  }

  /**
   With rates in order and weights that are fractions, the risk-adjusted savings lie between
   nothing and the savings.
   */
  lemma {:induction false} RiskBetween(baseline: Metadata, weights: Option<RiskWeights>, rs: seq<SimRequest>)
    requires AllPriced(baseline, rs) && Ordered(baseline, rs) && Fractions(weights)
    ensures 0.0 <= RiskSum(baseline, weights, rs) <= (BaselineSum(baseline, rs) - ActualSum(rs)) as real
  {
    if rs != [] {
      hide WeightOf, Weighted, TotalOr, Priced;
      var front, r := rs[..|rs| - 1], rs[|rs| - 1];
      RiskBetween(baseline, weights, front);
      OneSaving(baseline, r);
      FractionOf(Saving(baseline, r) as real, WeightOf(weights, r.risk));
    }
  }

  lemma RoundBetween(x: real, n: int)
    requires 0.0 <= x <= n as real
    ensures 0 <= Round(x) <= n
  {
  }

  lemma ShareOf(part: int, whole: int)
    requires 0 <= part <= whole && whole > 0
    ensures 0.0 <= part as real / whole as real * 100.0 <= 100.0
  {
    var share := part as real / whole as real;
    assert share * whole as real == part as real;
    TimesOutside(share, whole as real);
  }

  lemma TimesOutside(share: real, whole: real)
    requires whole > 0.0
    ensures share > 1.0 ==> share * whole > whole
    ensures share < 0.0 ==> share * whole < 0.0
  {
    if share > 1.0 {
      assert (share - 1.0) * whole > 0.0;
    }
  }

  function Percent(part: int, whole: int): real
    requires whole > 0
  {
    part as real / whole as real * 100.0
  }

  /** The result of a simulation, from exact sums that wrap around in 64 bits. */
  function Simulated(baseline: Metadata, weights: Option<RiskWeights>, rs: seq<SimRequest>): SimResult {
    var b, a := Wrap(BaselineSum(baseline, rs)), Wrap(ActualSum(rs));
    var savings := Wrap(b - a);
    SimResult(|rs|, b, a, savings,
        if b > 0 then Percent(savings, b) else 0.0, Round(RiskSum(baseline, weights, rs)))
  }

  /** The reported savings are the exact difference of the sums exactly when that difference is in the 64-bit range. */
  lemma SavingsExactIff(baseline: Metadata, weights: Option<RiskWeights>, rs: seq<SimRequest>)
    ensures var d := BaselineSum(baseline, rs) - ActualSum(rs);
            Simulated(baseline, weights, rs).savingsMicro == d <==> -MAX_INT64 - 1 <= d <= MAX_INT64
  {
    hide Wrap, BaselineSum, ActualSum;
    WrapSubtracts(BaselineSum(baseline, rs), ActualSum(rs));
    WrapInRange(BaselineSum(baseline, rs) - ActualSum(rs));
  }

  /**
   With rates in order, the reported savings are not negative as long as the exact
   savings fit, although the sums themselves may wrap; the risk-adjusted savings lie
   between nothing and the savings, with the default weights or any that are
   fractions; and the percentage is one, as long as the baseline sum fits.
   */
  lemma ReportMakesSense(baseline: Metadata, weights: Option<RiskWeights>, rs: seq<SimRequest>)
    requires AllPriced(baseline, rs) && Ordered(baseline, rs) && BaselineSum(baseline, rs) - ActualSum(rs) <= MAX_INT64
    ensures var res := Simulated(baseline, weights, rs);
            && res.savingsMicro == BaselineSum(baseline, rs) - ActualSum(rs) >= 0
            && (weights.None? || Fractions(weights) ==> 0 <= res.riskAdjustedMicro <= res.savingsMicro)
            && (BaselineSum(baseline, rs) <= MAX_INT64 ==> 0.0 <= res.savingsPercent <= 100.0)
  {
    hide Wrap, Priced, Fractions, WeightOf, Round, RiskSum, BaselineSum, ActualSum;
    var b, a := BaselineSum(baseline, rs), ActualSum(rs);
    SavingsNonNegative(baseline, rs);
    SumsNonNegative(baseline, rs);
    SavingsExactIff(baseline, weights, rs);
    DefaultFractions();
    if Fractions(weights) {
      RiskBetween(baseline, weights, rs);
      RoundBetween(RiskSum(baseline, weights, rs), b - a);
    }
    WrapInRange(b);
    if 0 < b <= MAX_INT64 {
      ShareOf(b - a, b);
    }
  }

  /** The exact share of the baseline sum that is saved, in percent. */
  function ExactPercent(baseline: Metadata, rs: seq<SimRequest>): real {
    var b := BaselineSum(baseline, rs);
    if b > 0 then (b - ActualSum(rs)) as real / b as real * 100.0 else 0.0
  }

  lemma PercentDiffers(d: int, b: int, w: int)
    requires d > 0 && b > 0 && w > 0
    ensures d as real / w as real * 100.0 == d as real / b as real * 100.0 <==> w == b
  {
    var x, y := d as real / w as real, d as real / b as real;
    assert x * w as real == d as real && y * b as real == d as real;
    assert y > 0.0 by { TimesOutside(y, b as real); }
    if x == y {
      assert y * (w as real - b as real) == 0.0;
    }
  }

  /**
   With rates in order and exact savings in range, the reported percentage is the
   exact share iff the baseline sum is in range, or nothing is saved at all.
   */
  lemma PercentExactIff(baseline: Metadata, weights: Option<RiskWeights>, rs: seq<SimRequest>)
    requires AllPriced(baseline, rs) && Ordered(baseline, rs) && BaselineSum(baseline, rs) - ActualSum(rs) <= MAX_INT64
    ensures Simulated(baseline, weights, rs).savingsPercent == ExactPercent(baseline, rs)
            <==> BaselineSum(baseline, rs) <= MAX_INT64 || BaselineSum(baseline, rs) == ActualSum(rs)
  {
    hide Wrap, Priced, WeightOf, Round, RiskSum, BaselineSum, ActualSum;
    var b, a := BaselineSum(baseline, rs), ActualSum(rs);
    SavingsNonNegative(baseline, rs);
    SumsNonNegative(baseline, rs);
    SavingsExactIff(baseline, weights, rs);
    WrapInRange(b);
    if b > a {
      PercentPositive(b - a, b);
      if Wrap(b) > 0 {
        PercentDiffers(b - a, b, Wrap(b));
      }
    }
  }

  lemma PercentPositive(d: int, b: int)
    requires d > 0 && b > 0
    ensures d as real / b as real * 100.0 > 0.0
  {
  }

  /** What the running variables of the simulation hold after these requests. */
  ghost predicate Summed(baseline: Metadata, weights: Option<RiskWeights>, rs: seq<SimRequest>,
                         baselineMicro: Int64, actualMicro: Int64, riskAdjusted: real) {
    && AllPriced(baseline, rs)
    && baselineMicro == Wrap(BaselineSum(baseline, rs)) && actualMicro == Wrap(ActualSum(rs))
    && riskAdjusted == RiskSum(baseline, weights, rs)
  }

  lemma SummedStart(baseline: Metadata, weights: Option<RiskWeights>)
    ensures Summed(baseline, weights, [], 0, 0, 0.0)
  {
    WrapInRange(0);
  }

  lemma SummedStep(baseline: Metadata, weights: Option<RiskWeights>, rs: seq<SimRequest>, r: SimRequest,
                   baselineMicro: Int64, actualMicro: Int64, riskAdjusted: real)
    requires Summed(baseline, weights, rs, baselineMicro, actualMicro, riskAdjusted) && Priced(baseline, r)
    ensures var b, a := EstimateCost(baseline, r.usage).value.totalMicro,
            EstimateCost(r.routed, r.usage).value.totalMicro;
            Summed(baseline, weights, rs + [r], Wrap(baselineMicro + b), Wrap(actualMicro + a),
              riskAdjusted + Weighted((b - a) as real, WeightOf(weights, r.risk)))
  {
    hide EstimateCost, Wrap, WeightOf, BaselineSum, ActualSum, RiskSum;
    SumsSpelled(baseline, weights, rs, r);
    WrapAdds(BaselineSum(baseline, rs), EstimateCost(baseline, r.usage).value.totalMicro);
    WrapAdds(ActualSum(rs), EstimateCost(r.routed, r.usage).value.totalMicro);
  }

  lemma SummedResult(baseline: Metadata, weights: Option<RiskWeights>, rs: seq<SimRequest>,
                     baselineMicro: Int64, actualMicro: Int64, riskAdjusted: real)
    requires Summed(baseline, weights, rs, baselineMicro, actualMicro, riskAdjusted)
    ensures AllPriced(baseline, rs)
    ensures var savings := Wrap(baselineMicro - actualMicro);
            SimResult(|rs|, baselineMicro, actualMicro, savings,
              if baselineMicro > 0 then Percent(savings, baselineMicro) else 0.0, Round(riskAdjusted))
            == Simulated(baseline, weights, rs)
  {
    hide Wrap, Percent, Round, BaselineSum, ActualSum, RiskSum;
  }

  /** The simulation fails exactly when some request has no price on the baseline or on its own model. */
  method RunSimulation(baseline: Metadata, weights: Option<RiskWeights>,
                       requests: seq<SimRequest>) returns (res: Result<SimResult, CostError>)
    ensures res.Ok? <==> AllPriced(baseline, requests)
    ensures res.Ok? ==> res.value == Simulated(baseline, weights, requests)
  {
    hide EstimateCost, Wrap, WeightOf, Round, Weighted, Percent, Summed, Simulated;
    SummedStart(baseline, weights);
    var baselineMicro: Int64, actualMicro: Int64 := 0, 0;
    var riskAdjusted, n := 0.0, 0;
    for i := 0 to |requests|
      invariant n == i && Summed(baseline, weights, requests[..i], baselineMicro, actualMicro, riskAdjusted)
    {
      var r := requests[i];
      var base := EstimateCost(baseline, r.usage);
      if base.Err? {
        assert !Priced(baseline, requests[i]);
        return Err(base.error);
      }
      var actual := EstimateCost(r.routed, r.usage);
      if actual.Err? {
        assert !Priced(baseline, requests[i]);
        return Err(actual.error);
      }
      SummedStep(baseline, weights, requests[..i], r, baselineMicro, actualMicro, riskAdjusted);
      assert requests[..i + 1] == requests[..i] + [r];
      n := n + 1;
      baselineMicro := Wrap(baselineMicro + base.value.totalMicro);
      actualMicro := Wrap(actualMicro + actual.value.totalMicro);
      var saving := base.value.totalMicro - actual.value.totalMicro;
      riskAdjusted := riskAdjusted + Weighted(saving as real, WeightOf(weights, r.risk));
    }
    assert requests[..|requests|] == requests;
    SummedResult(baseline, weights, requests, baselineMicro, actualMicro, riskAdjusted);
    var savings := Wrap(baselineMicro - actualMicro);
    var percent := 0.0;
    if baselineMicro > 0 {
      percent := Percent(savings, baselineMicro);
    }
    return Ok(SimResult(n, baselineMicro, actualMicro, savings, percent, Round(riskAdjusted)));
  }

  // ---------------------------------------------------------------- spelt out

  /** Amounts are signed 64-bit numbers of micro-dollars, rates are per million tokens. */
  lemma RangesSpelled(x: int)
    ensures MAX_INT64 == 9223372036854775807 && MILLION == 1000000 && WORD == 18446744073709551616
    ensures -9223372036854775808 <= Wrap(x) <= 9223372036854775807 && (Wrap(x) - x) % 18446744073709551616 == 0
  {
    var k := WrapTakes(x);
    hide Wrap;
    assert Wrap(x) - x == -k * WORD;
  }

  /**
   An estimate: first the currency, then the signs of the rates, then that some rate is
   set, then the signs of the tokens are checked; then each component is tokens times
   rate over a million, rounded down, and all three amounts must fit 64 bits.
   */
  lemma EstimateSpelled(meta: Metadata, usage: Usage)
    ensures var r := EstimateCost(meta, usage);
            if (forall i :: 0 <= i < |meta.currency| ==> Space(meta.currency[i])) then r == Err(MissingMetadata)
            else if meta.inputRate < 0 || meta.outputRate < 0 then r == Err(InvalidRate)
            else if meta.inputRate == 0 && meta.outputRate == 0 then r == Err(MissingMetadata)
            else if usage.inputTokens < 0 || usage.outputTokens < 0 then r == Err(InvalidUsage)
            else
              var i, o := Floor(usage.inputTokens, meta.inputRate), Floor(usage.outputTokens, meta.outputRate);
              r == if i + o <= 9223372036854775807 then Ok(Estimate(i, o, i + o)) else Err(Overflow)
  {
    if Priceable(meta, usage) {
      EstimateIsExact(meta, usage);
      FloorIs(usage.inputTokens, meta.inputRate);
      FloorIs(usage.outputTokens, meta.outputRate);
    }
    hide Floor, FloorPrice, MicrosForTokens;
  }

  /** Tokens times rate over a million, rounded down. */
  function Floor(tokens: nat, rate: nat): nat { tokens * rate / 1000000 }

  lemma FloorIs(tokens: nat, rate: nat)
    ensures FloorPrice(tokens, rate) == Floor(tokens, rate)
  {
  }

  /**
   Which text is refused, and why: what is not a decimal or is negative, what is finer than a
   micro-dollar, what does not fit.
   */
  lemma RefusalSpelled(rate: string)
    ensures var r := ParseUsdMicros(rate);
            match ReadDecimal(TrimSpace(rate))
            case None => r == Err(NotANumber)
            case Some(d) =>
              if d.negative && d.numerator != 0 then r == Err(NotANumber)
              else if forall m :: !Amounts(d, m) then r == Err(TooPrecise)
              else exists m :: Amounts(d, m) && r == if m <= 9223372036854775807 then Ok(m) else Err(Overflow)
  {
    hide TrimSpace, ReadDecimal;
    if ReadDecimal(TrimSpace(rate)).Some? {
      WholeOrNot(ReadDecimal(TrimSpace(rate)).value);
    }
  }

  /** The decimal is exactly so many micro-dollars. */
  predicate Amounts(d: Decimal, m: nat) { m * Pow10(d.scale) == d.numerator * 1000000 }

  lemma WholeOrNot(d: Decimal)
    ensures var a, p := d.numerator * MILLION, Pow10(d.scale);
            && (a % p == 0 <==> exists m :: Amounts(d, m)) && (a % p == 0 ==> Amounts(d, a / p))
            && forall m :: Amounts(d, m) ==> m == a / p
  {
    var a, p := d.numerator * MILLION, Pow10(d.scale);
    QuotientOf(a, p);
    assert a % p == 0 ==> Amounts(d, a / p);
    forall m | Amounts(d, m) ensures m == a / p && a % p == 0 {
      DivUnique(m, p, a);
    }
  }

  lemma TenTimes(k: nat)
    ensures Pow10(0) == 1 && Pow10(k + 1) == 10 * Pow10(k)
  {
  }

  /** The number of a text of digits: ten times that of its front, and its last digit. */
  lemma NumeralSpelled(front: string, d: nat)
    requires AllDigits(front) && d < 10
    ensures AllDigits(front + ["0123456789"[d]]) && Numeral([]) == 0
    ensures Numeral(front + ["0123456789"[d]]) == 10 * Numeral(front) + d
  {
    var digits := "0123456789";
    assert digits[d] as int == 48 + d;
    assert (front + [digits[d]])[..|front|] == front;
  }

  /** A decimal is read from digits with a point among or around them; a sign in front is read too. */
  lemma DecimalSpelled(whole: string, fraction: string)
    requires AllDigits(whole) && AllDigits(fraction) && whole + fraction != ""
    ensures var value := Numeral(whole) * Pow10(|fraction|) + Numeral(fraction);
            && ReadDecimal(whole + "." + fraction) == Some(Decimal(false, value, |fraction|))
            && ReadDecimal("+" + (whole + "." + fraction)) == Some(Decimal(false, value, |fraction|))
            && ReadDecimal("-" + (whole + "." + fraction)) == Some(Decimal(true, value, |fraction|))
  {
    hide Numeral, Pow10, ReadUnsigned, ReadDecimal;
    ReadsPoint(whole, fraction, false);
    ReadsPoint(whole, fraction, true);
    var s := whole + "." + fraction;
    assert s[0] == if whole == "" then '.' else whole[0];
    SignRead(s);
  }

  /** A sign in front decides what follows; without one the text is not negative. */
  lemma SignRead(s: string)
    requires s != "" && s[0] != '+' && s[0] != '-'
    ensures ReadDecimal(s) == ReadUnsigned(s, false) && ReadDecimal("+" + s) == ReadUnsigned(s, false)
    ensures ReadDecimal("-" + s) == ReadUnsigned(s, true)
  {
    hide ReadUnsigned;
    assert ("+" + s)[1..] == s && ("-" + s)[1..] == s;
  }

  /** Neither nothing nor a lone point is read. */
  lemma ReadsNothing()
    ensures ReadDecimal("") == None && ReadDecimal(".") == None
  {
    assert "."[1..] == "" && DigitRun(".") == 0;
  }

  /** Digits alone are read as a whole number. */
  lemma ReadsWhole(whole: string)
    requires AllDigits(whole)
    ensures whole != "" ==> ReadDecimal(whole) == Some(Decimal(false, Numeral(whole), 0))
  {
    DigitRunOf(whole, []);
    assert whole + [] == whole;
  }

  lemma ReadsPoint(whole: string, fraction: string, negative: bool)
    requires AllDigits(whole) && AllDigits(fraction)
    ensures whole + fraction != "" ==>
              ReadUnsigned(whole + "." + fraction, negative) ==
              Some(Decimal(negative, Numeral(whole) * Pow10(|fraction|) + Numeral(fraction), |fraction|))
  {
    hide Numeral, Pow10, DigitRun;
    var s := whole + "." + fraction;
    assert s == whole + ("." + fraction);
    DigitRunOf(whole, "." + fraction);
    assert s[|whole|] == '.' && s[|whole| + 1..] == fraction && s[..|whole|] == whole;
    DigitRunOf(fraction, []);
    assert fraction + [] == fraction;
  }

  /**
   Nothing else is read as a decimal: every character is a sign in front, a digit, or a
   point, of which there is one at most.
   */
  lemma OnlyDecimals(s: string)
    requires ReadDecimal(s).Some?
    ensures forall i :: 0 <= i < |s| ==> s[i] in "0123456789." || (i == 0 && s[0] in "+-")
    ensures forall i, j :: 0 <= i < j < |s| ==> !(s[i] == '.' && s[j] == '.')
    ensures exists i :: 0 <= i < |s| && s[i] in "0123456789"
  {
    var signed := s[0] == '-' || s[0] == '+';
    var t := if signed then s[1..] else s;
    UnsignedOnly(t, signed && s[0] == '-');
    var k :| 0 <= k < |t| && Digit(t[k]);
    assert forall i :: 0 <= i < |t| ==> t[i] == s[if signed then i + 1 else i];
    forall i | 0 <= i < |s| ensures s[i] in "0123456789." || (i == 0 && s[0] in "+-") {
      if !(i == 0 && signed) {
        assert s[i] == t[if signed then i - 1 else i];
        DigitNamed(s[i]);
      }
    }
    forall i, j | 0 <= i < j < |s| ensures !(s[i] == '.' && s[j] == '.') {
      if i > 0 || !signed {
        assert s[i] == t[if signed then i - 1 else i] && s[j] == t[if signed then j - 1 else j];
      }
    }
    DigitNamed(t[k]);
    assert s[if signed then k + 1 else k] in "0123456789";
  }

  lemma DigitNamed(c: char)
    ensures Digit(c) <==> c in "0123456789"
    ensures c in "0123456789." <==> Digit(c) || c == '.'
  {
    var digits := "0123456789";
    assert forall k :: 0 <= k < 10 ==> digits[k] as int == 48 + k;
    assert "0123456789." == digits + ".";
    if Digit(c) {
      assert digits[c as int - 48] == c;
    }
  }

  lemma UnsignedOnly(s: string, negative: bool)
    requires ReadUnsigned(s, negative).Some?
    ensures forall i :: 0 <= i < |s| ==> Digit(s[i]) || s[i] == '.'
    ensures forall i, j :: 0 <= i < j < |s| ==> !(s[i] == '.' && s[j] == '.')
    ensures exists i :: 0 <= i < |s| && Digit(s[i])
  {
    hide Numeral, Pow10;
    var n := DigitRun(s);
    assert forall i :: 0 <= i < n ==> s[..n][i] == s[i];
    if n < |s| {
      var f := s[n + 1..];
      assert f[..|f|] == f;
      assert forall i :: n < i < |s| ==> s[i] == f[i - n - 1];
      if n == 0 {
        assert Digit(f[0]) && f[0] == s[1];
      } else {
        assert Digit(s[0]);
      }
    } else {
      assert Digit(s[0]);
    }
  }

  /** An amount is written as whole dollars, a point, and six digits; a sign takes the place of one of them. */
  lemma AmountSpelled(m: Int64)
    ensures m >= 0 ==> FormatMicroUsd(m) == FormatNat(m / 1000000) + "." + Padded(m % 1000000, 6)
    ensures m < 0 ==>
              var w, f := (0 - m) / 1000000, (0 - m) % 1000000;
              FormatMicroUsd(m) == (if w == 0 then "0" else "-" + FormatNat(w)) + "."
                                   + if f == 0 then "000000" else
                                       if f <= 99999 then "-" + Padded(f, 5) else "-" + Padded(f, 6)
    ensures |FormatMicroUsd(m)| >= 8
  {
    if m >= 0 {
      FormatOf(m, m / MILLION, m % MILLION);
    } else {
      FormatNegative(m, (0 - m) / MILLION, (0 - m) % MILLION);
    }
    PadSixLength(m - Quo(m, MILLION) * MILLION);
    FormatIntLength(Quo(m, MILLION));
  }

  lemma FormatNegative(m: Int64, w: nat, f: nat)
    requires m < 0 && w == (0 - m) / MILLION && f == (0 - m) % MILLION
    ensures FormatMicroUsd(m) == (if w == 0 then "0" else "-" + FormatNat(w)) + "."
                                 + if f == 0 then "000000" else
                                     if f <= 99999 then "-" + Padded(f, 5) else "-" + Padded(f, 6)
  {
    assert Quo(m, MILLION) == 0 - w && m - Quo(m, MILLION) * MILLION == 0 - f;
    assert FormatNat(0) == "0" && Padded(0, 6) == "000000" by { SixZeros(); }
    hide FormatNat, Padded;
  }

  lemma SixZeros()
    ensures FormatNat(0) == "0" && Padded(0, 6) == "000000"
  {
    assert Padded(0, 3) == "000";
  }

  lemma FormatIntLength(n: int)
    ensures |FormatInt(n)| >= 1
  {
  }

  lemma {:induction false} PaddedLength(n: nat, width: nat)
    ensures |Padded(n, width)| == width
  {
    if width > 0 {
      PaddedLength(n / 10, width - 1);
    }
  }

  lemma PadSixLength(n: int)
    requires -MILLION < n < MILLION
    ensures |PadSix(n)| >= 6
  {
    if n >= 0 {
      PaddedLength(n, 6);
    } else {
      PaddedLength(-n, 5);
      PaddedLength(-n, 6);
    }
  }

  /**
   By default low risk counts fully, medium risk 0.85, high risk a half, critical risk a
   fifth, any other a half; case and blanks around do not matter.
   */
  lemma WeightsSpelled(risk: string)
    ensures WeightOf(None, risk) ==
            if Lower(TrimSpace(risk)) == "low" then 1.0
            else if Lower(TrimSpace(risk)) == "medium" then 0.85
            else if Lower(TrimSpace(risk)) == "high" then 0.5
            else if Lower(TrimSpace(risk)) == "critical" then 0.2
            else 0.5
    ensures forall w: RiskWeights ::
              WeightOf(Some(w), risk) == if Lower(TrimSpace(risk)) in w then w[Lower(TrimSpace(risk))] else 0.5
  {
    assert |"low"| == 3 && |"medium"| == 6 && |"high"| == 4 && |"critical"| == 8;
  }

  lemma AroundIt(a: string, b: string) returns (both: string)
    requires (forall i :: 0 <= i < |a| ==> Space(a[i])) && forall i :: 0 <= i < |b| ==> Space(b[i])
    ensures both == a + b && forall i :: 0 <= i < |both| ==> Space(both[i])
  {
    both := a + b;
  }

  /** What is trimmed is white space, on both sides, and all of it. */
  lemma {:induction false} TrimSpelled(s: string) returns (before: string, after: string)
    ensures s == before + TrimSpace(s) + after
    ensures (forall i :: 0 <= i < |before| ==> Space(before[i])) && forall i :: 0 <= i < |after| ==> Space(after[i])
    ensures TrimSpace(s) != "" ==> !Space(TrimSpace(s)[0]) && !Space(TrimSpace(s)[|TrimSpace(s)| - 1])
    decreases |s|
  {
    hide Space;
    before, after := "", "";
    if s != [] && Space(s[0]) {
      before, after := TrimSpelled(s[1..]);
      before := AroundIt([s[0]], before);
      assert s == [s[0]] + s[1..];
    } else if s != [] && Space(s[|s| - 1]) {
      before, after := TrimSpelled(s[..|s| - 1]);
      after := AroundIt(after, [s[|s| - 1]]);
      assert s == s[..|s| - 1] + [s[|s| - 1]];
    }
  }

  /** Sums over the requests: what each costs on the baseline and on its own model, and the weighted differences. */
  lemma SumsSpelled(baseline: Metadata, weights: Option<RiskWeights>, rs: seq<SimRequest>, r: SimRequest)
    requires Priced(baseline, r)
    ensures var b, a := EstimateCost(baseline, r.usage).value.totalMicro,
            EstimateCost(r.routed, r.usage).value.totalMicro;
            && BaselineSum(baseline, []) == 0 && ActualSum([]) == 0 && RiskSum(baseline, weights, []) == 0.0
            && BaselineSum(baseline, rs + [r]) == BaselineSum(baseline, rs) + b
                && ActualSum(rs + [r]) == ActualSum(rs) + a
            && RiskSum(baseline, weights, rs + [r])
                == RiskSum(baseline, weights, rs) + (b - a) as real * WeightOf(weights, r.risk)
  {
    hide EstimateCost, WeightOf;
    assert (rs + [r])[..|rs|] == rs;
  }

  /** Rounding goes to the nearest integer, halves away from zero. */
  lemma RoundSpelled(x: real)
    ensures x >= 0.0 ==> Round(x) as real - 0.5 <= x < Round(x) as real + 0.5
    ensures x < 0.0 ==> Round(x) as real - 0.5 < x <= Round(x) as real + 0.5
  {
  }

  /** The report: counts, sums and their difference in 64 bits, the percentage of it, and the rounded weighted sum. */
  lemma ReportSpelled(baseline: Metadata, weights: Option<RiskWeights>, rs: seq<SimRequest>)
    ensures var res := Simulated(baseline, weights, rs);
            && res.requests == |rs| && res.baselineMicro == Wrap(BaselineSum(baseline, rs))
                && res.actualMicro == Wrap(ActualSum(rs))
            && res.savingsMicro == Wrap(BaselineSum(baseline, rs) - ActualSum(rs))
            && res.savingsPercent == (if res.baselineMicro > 0
                then res.savingsMicro as real / res.baselineMicro as real * 100.0 else 0.0)
            && res.riskAdjustedMicro == Round(RiskSum(baseline, weights, rs))
  {
    hide Wrap, Round;
    WrapSubtracts(BaselineSum(baseline, rs), ActualSum(rs));
  }
}
