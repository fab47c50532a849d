/**
 What a request costs: token counts weighted by ratios in exact arithmetic, cut to a whole number of
 quota units, plus flat tool surcharges; and the estimate that is held before the request is sent.
 */
module Pricing {
  import opened Options

  datatype Usage = Usage(prompt: int, completion: int, cached: int, image: int, audio: int, audioCompletion: int,
                         webSearches: int, fileSearches: int)

  datatype Ratios = Ratios(model: real, completion: real, cache: real, image: real, audio: real, audioCompletion: real, group: real)

  const QUOTA_PER_UNIT := 500000.0
  const MIN_ESTIMATE_TOKENS := 500

  /** The integer part, towards zero. */
  function IntPart(r: real): int { if r >= 0.0 then r.Floor else -((-r).Floor) }

  function BasePrompt(u: Usage): int {
    var base := u.prompt - u.cached - u.image - u.audio;
    if base < 0 then 0 else base
  }

  function Part(tokens: int, ratio: real): real { tokens as real * ratio }

  /** Tokens weighted by kind, before the model and group ratios. */
  function Weighted(u: Usage, r: Ratios): real {
    BasePrompt(u) as real + Part(u.cached, r.cache) + Part(u.image, r.image) + Part(u.audio, r.audio)
    + Part(u.completion, r.completion) + Part(u.audioCompletion, r.audioCompletion)
  }

  function Surcharge(u: Usage): int {
    (if u.webSearches > 0 then u.webSearches * 1000 else 0) + (if u.fileSearches > 0 then u.fileSearches * 100 else 0)
  }

  function Rated(weighted: real, r: Ratios): real { weighted * r.model * r.group }

  /** A weighted token count in quota units. */
  function Charge(weighted: real, r: Ratios): int { IntPart(Rated(weighted, r)) }

  function CallRate(price: real, r: Ratios): real { price * QUOTA_PER_UNIT * r.group }

  function PerCall(price: real, r: Ratios): int { IntPart(CallRate(price, r)) }

  function Scaled(quota: int, factor: real): real { quota as real * factor }

  function Penalised(quota: int, penalty: real): int {
    if penalty > 1.0 then IntPart(Scaled(quota, penalty)) else quota
  }

  /** `price` is set for models billed per call. */
  function CalculateQuota(u: Usage, r: Ratios, price: Option<real>, penalty: real): int {
    Penalised((if price.Some? then PerCall(price.value, r) else Charge(Weighted(u, r), r)) + Surcharge(u), penalty)
  }

  /** The hold for a request with these prompt and completion limits. */
  function Estimate(promptTokens: int, maxTokens: int, imageTokens: int, audioTokens: int, r: Ratios): int {
    var prompt := if promptTokens < MIN_ESTIMATE_TOKENS then MIN_ESTIMATE_TOKENS else promptTokens;
    var quota := Charge(prompt as real + Part(imageTokens, r.image) + Part(audioTokens, r.audio)
                        + Part(maxTokens, r.completion), r);
    if quota < 1 then 1 else quota
  }

  predicate Counts(u: Usage) {
    && u.prompt >= 0 && u.completion >= 0 && u.cached >= 0 && u.image >= 0 && u.audio >= 0 && u.audioCompletion >= 0
    && u.webSearches >= 0 && u.fileSearches >= 0
  }

  predicate Fair(r: Ratios) {
    && r.model >= 0.0 && r.completion >= 0.0 && r.cache >= 0.0 && r.image >= 0.0 && r.audio >= 0.0
    && r.audioCompletion >= 0.0 && r.group >= 0.0
  }

  // ---------------------------------------------------------------- what is charged, in plain arithmetic

  /** `c` is `x` cut towards zero. */
  predicate CutOf(c: int, x: real) {
    if x >= 0.0 then c as real <= x < (c + 1) as real else (c - 1) as real < x <= c as real
  }

  function ToolFees(u: Usage): int {
    (if u.webSearches > 0 then 1000 * u.webSearches else 0) + (if u.fileSearches > 0 then 100 * u.fileSearches else 0)
  }

  lemma IntPartCuts(x: real)
    ensures CutOf(IntPart(x), x)
  {}

  /** The amount of a request billed by the token, before it is cut, written out. */
  function TokenAmount(u: Usage, r: Ratios): real {
    var rest := u.prompt - u.cached - u.image - u.audio;
    ((if rest < 0 then 0 else rest) as real
     + u.cached as real * r.cache + u.image as real * r.image + u.audio as real * r.audio
     + u.completion as real * r.completion + u.audioCompletion as real * r.audioCompletion) * r.model * r.group
  }

  lemma AmountIs(u: Usage, r: Ratios)
    ensures TokenAmount(u, r) == Rated(Weighted(u, r), r)
  {}

  /** Per-token billing without a penalty: that amount, cut, and the tool fees on top. */
  lemma MeteredIs(u: Usage, r: Ratios)
    ensures CutOf(CalculateQuota(u, r, None, 1.0) - ToolFees(u), TokenAmount(u, r))
  {
    AmountIs(u, r);
    IntPartCuts(Rated(Weighted(u, r), r));
    hide CutOf, Rated, IntPart, Weighted, TokenAmount;
  }

  /** A price per call, whatever the tokens. */
  lemma PricedIs(u: Usage, r: Ratios, price: real)
    ensures CutOf(CalculateQuota(u, r, Some(price), 1.0) - ToolFees(u), price * 500000.0 * r.group)
  {
    assert CallRate(price, r) == price * 500000.0 * r.group;
    hide CallRate;
    IntPartCuts(CallRate(price, r));
    hide CutOf, IntPart;
  }

  /** A penalty above one multiplies the whole charge, tools included; any other leaves it. */
  lemma PenalisedIs(u: Usage, r: Ratios, price: Option<real>, penalty: real)
    ensures var plain, charged := CalculateQuota(u, r, price, 1.0), CalculateQuota(u, r, price, penalty);
            if penalty > 1.0 then CutOf(charged, plain as real * penalty) else charged == plain
  {
    var plain := CalculateQuota(u, r, price, 1.0);
    assert Scaled(plain, penalty) == plain as real * penalty;
    IntPartCuts(Scaled(plain, penalty));
    hide Weighted, Charge, PerCall, Surcharge, CutOf, IntPart, Scaled;
  }

  lemma AtLeastOne(tokens: real, r: Ratios, x: real)
    requires Rated(tokens, r) == x
    ensures var c := Charge(tokens, r); if x < 1.0 then c < 1 else c >= 1 && CutOf(c, x)
  {
    hide Rated;
  }

  /** The hold: at least one unit, and at least 500 prompt tokens' worth. */
  lemma EstimateIs(promptTokens: int, maxTokens: int, imageTokens: int, audioTokens: int, r: Ratios)
    ensures var prompt := if promptTokens < 500 then 500 else promptTokens;
            var x := (prompt as real + imageTokens as real * r.image + audioTokens as real * r.audio
                      + maxTokens as real * r.completion) * r.model * r.group;
            var hold := Estimate(promptTokens, maxTokens, imageTokens, audioTokens, r);
            if x < 1.0 then hold == 1 else CutOf(hold, x)
  {
    var prompt := if promptTokens < 500 then 500 else promptTokens;
    var tokens := prompt as real + imageTokens as real * r.image + audioTokens as real * r.audio + maxTokens as real * r.completion;
    var x := tokens * r.model * r.group;
    assert prompt as real + Part(imageTokens, r.image) + Part(audioTokens, r.audio) + Part(maxTokens, r.completion) == tokens;
    assert Rated(tokens, r) == x;
    hide Part, Rated, Charge, CutOf, IntPart;
    AtLeastOne(tokens, r, x);
    assert Estimate(promptTokens, maxTokens, imageTokens, audioTokens, r) == if Charge(tokens, r) < 1 then 1 else Charge(tokens, r);
  }

  // ---------------------------------------------------------------- order

  lemma ScaleUp(a: real, b: real, c: real)
    requires a <= b && c >= 0.0
    ensures a * c <= b * c
  {}

  lemma ScalePositive(a: real, c: real)
    requires a >= 0.0 && c >= 0.0
    ensures a * c >= 0.0
  {}

  lemma PartGrows(m: int, n: int, ratio: real)
    requires m <= n && ratio >= 0.0
    ensures Part(m, ratio) <= Part(n, ratio)
  {
    ScaleUp(m as real, n as real, ratio);
  }

  lemma PartAround(n: int, ratio: real)
    requires n >= 0
    ensures ratio <= 1.0 ==> Part(n, ratio) <= n as real
    ensures ratio >= 1.0 ==> Part(n, ratio) >= n as real
  {
    if ratio <= 1.0 {
      ScaleUp(ratio, 1.0, n as real);
      assert n as real * ratio == ratio * n as real;
    } else {
      ScaleUp(1.0, ratio, n as real);
      assert n as real * ratio == ratio * n as real;
    }
  }

  lemma NoPart(ratio: real)
    ensures Part(0, ratio) == 0.0
  {}

  lemma PartsAdd(m: int, n: int, ratio: real)
    ensures Part(m + n, ratio) == Part(m, ratio) + Part(n, ratio)
  {
    assert (m + n) as real == m as real + n as real;
  }

  lemma IntPartMonotone(a: real, b: real)
    requires a <= b
    ensures IntPart(a) <= IntPart(b)
  {}

  lemma WeightedNonNegative(u: Usage, r: Ratios)
    requires Counts(u) && Fair(r)
    ensures Weighted(u, r) >= 0.0
  {
    ScalePositive(u.cached as real, r.cache);
    ScalePositive(u.image as real, r.image);
    ScalePositive(u.audio as real, r.audio);
    ScalePositive(u.completion as real, r.completion);
    ScalePositive(u.audioCompletion as real, r.audioCompletion);
  }

  lemma RatedGrows(x: real, y: real, r: Ratios)
    requires x <= y && Fair(r)
    ensures Rated(x, r) <= Rated(y, r)
  {
    ScaleUp(x, y, r.model);
    ScaleUp(x * r.model, y * r.model, r.group);
  }

  lemma ChargeGrows(x: real, y: real, r: Ratios)
    requires x <= y && Fair(r)
    ensures Charge(x, r) <= Charge(y, r)
  {
    RatedGrows(x, y, r);
    IntPartMonotone(Rated(x, r), Rated(y, r));
  }

  lemma PenaltyGrows(a: int, b: int, penalty: real)
    requires a <= b
    ensures Penalised(a, penalty) <= Penalised(b, penalty)
  {
    hide IntPart;
    if penalty > 1.0 {
      ScaleUp(a as real, b as real, penalty);
      IntPartMonotone(a as real * penalty, b as real * penalty);
    }
  }

  lemma WeightedMonotone(u: Usage, v: Usage, r: Ratios)
    requires Fair(r) && u.prompt <= v.prompt && u.completion <= v.completion && u.audioCompletion <= v.audioCompletion
    requires (u.cached, u.image, u.audio) == (v.cached, v.image, v.audio)
    ensures Weighted(u, r) <= Weighted(v, r)
  {
    PartGrows(u.completion, v.completion, r.completion);
    PartGrows(u.audioCompletion, v.audioCompletion, r.audioCompletion);
    hide Part;
  }

  /** More prompt, output or tool use never costs less, in either billing mode and under any penalty. */
  lemma MoreCostsNoLess(u: Usage, v: Usage, r: Ratios, price: Option<real>, penalty: real)
    requires Counts(u) && Fair(r)
    requires u.prompt <= v.prompt && u.completion <= v.completion && u.audioCompletion <= v.audioCompletion
    requires u.webSearches <= v.webSearches && u.fileSearches <= v.fileSearches
    requires (u.cached, u.image, u.audio) == (v.cached, v.image, v.audio)
    ensures CalculateQuota(u, r, price, penalty) <= CalculateQuota(v, r, price, penalty)
  {
    hide Weighted, Charge, PerCall, Penalised;
    WeightedMonotone(u, v, r);
    ChargeGrows(Weighted(u, r), Weighted(v, r), r);
    var first := if price.Some? then PerCall(price.value, r) else Charge(Weighted(u, r), r);
    var second := if price.Some? then PerCall(price.value, r) else Charge(Weighted(v, r), r);
    PenaltyGrows(first + Surcharge(u), second + Surcharge(v), penalty);
  }

  lemma NeverNegative(u: Usage, r: Ratios, price: Option<real>, penalty: real)
    requires Counts(u) && Fair(r) && (price.Some? ==> price.value >= 0.0)
    ensures CalculateQuota(u, r, price, penalty) >= 0
  {
    WeightedNonNegative(u, r);
    ChargeGrows(0.0, Weighted(u, r), r);
    if price.Some? {
      ScalePositive(price.value, QUOTA_PER_UNIT);
      ScalePositive(price.value * QUOTA_PER_UNIT, r.group);
      assert PerCall(price.value, r) >= 0;
    }
    assert Charge(0.0, r) == 0 && Penalised(0, penalty) == 0;
    hide Weighted, Charge, PerCall, Penalised;
    var first := if price.Some? then PerCall(price.value, r) else Charge(Weighted(u, r), r);
    PenaltyGrows(0, first + Surcharge(u), penalty);
  }

  // ---------------------------------------------------------------- splitting a request

  function Details(u: Usage): int { u.cached + u.image + u.audio }

  /** The details of a prompt are part of it. */
  predicate Fits(u: Usage) { Counts(u) && Details(u) <= u.prompt }

  function Plus(u: Usage, v: Usage): Usage {
    Usage(u.prompt + v.prompt, u.completion + v.completion, u.cached + v.cached, u.image + v.image, u.audio + v.audio,
          u.audioCompletion + v.audioCompletion, u.webSearches + v.webSearches, u.fileSearches + v.fileSearches)
  }

  const NOTHING := Usage(0, 0, 0, 0, 0, 0, 0, 0)

  function Whole(parts: seq<Usage>): Usage { if parts == [] then NOTHING else Plus(parts[0], Whole(parts[1..])) }

  /** Per-token billing without a penalty. */
  function Metered(u: Usage, r: Ratios): int { CalculateQuota(u, r, None, 1.0) }

  function Billed(parts: seq<Usage>, r: Ratios): int {
    if parts == [] then 0 else Metered(parts[0], r) + Billed(parts[1..], r)
  }

  /** Text left after the details, and details beyond the prompt; at most one of them is positive. */
  function Spare(u: Usage): int { if u.prompt > Details(u) then u.prompt - Details(u) else 0 }

  function Overflow(u: Usage): int { if Details(u) > u.prompt then Details(u) - u.prompt else 0 }

  function TotalSpare(parts: seq<Usage>): int { if parts == [] then 0 else Spare(parts[0]) + TotalSpare(parts[1..]) }

  function TotalOverflow(parts: seq<Usage>): int { if parts == [] then 0 else Overflow(parts[0]) + TotalOverflow(parts[1..]) }

  function Lesser(a: int, b: int): int { if a < b then a else b }

  /** Text that the parts bill and the whole does not, because there one part's overflow uses up another's spare text. */
  function Regained(parts: seq<Usage>): int { Lesser(TotalSpare(parts), TotalOverflow(parts)) }

  /** Everything weighted but the plain text. */
  function Extras(u: Usage, r: Ratios): real {
    Part(u.cached, r.cache) + Part(u.image, r.image) + Part(u.audio, r.audio)
    + Part(u.completion, r.completion) + Part(u.audioCompletion, r.audioCompletion)
  }

  lemma ExtrasAdd(u: Usage, v: Usage, r: Ratios)
    ensures Extras(Plus(u, v), r) == Extras(u, r) + Extras(v, r)
  {
    PartsAdd(u.cached, v.cached, r.cache);
    PartsAdd(u.image, v.image, r.image);
    PartsAdd(u.audio, v.audio, r.audio);
    PartsAdd(u.completion, v.completion, r.completion);
    PartsAdd(u.audioCompletion, v.audioCompletion, r.audioCompletion);
    hide Part;
  }

  lemma ExtrasNonNegative(u: Usage, r: Ratios)
    requires Counts(u) && Fair(r)
    ensures Extras(u, r) >= 0.0
  {
    ScalePositive(u.cached as real, r.cache);
    ScalePositive(u.image as real, r.image);
    ScalePositive(u.audio as real, r.audio);
    ScalePositive(u.completion as real, r.completion);
    ScalePositive(u.audioCompletion as real, r.audioCompletion);
  }

  lemma WeightedIs(u: Usage, r: Ratios)
    ensures Weighted(u, r) == Spare(u) as real + Extras(u, r)
  {
    hide Part;
    assert BasePrompt(u) == Spare(u);
  }

  lemma RatedAdds(x: real, y: real, r: Ratios)
    ensures Rated(x + y, r) == Rated(x, r) + Rated(y, r)
  {
    assert (x + y) * r.model == x * r.model + y * r.model;
  }

  lemma IntPartOfSum(x: real, y: real)
    requires x >= 0.0 && y >= 0.0
    ensures IntPart(x) + IntPart(y) <= IntPart(x + y) <= IntPart(x) + IntPart(y) + 1
  {}

  lemma ChargeAdds(x: real, y: real, r: Ratios)
    requires x >= 0.0 && y >= 0.0 && Fair(r)
    ensures Charge(x, r) + Charge(y, r) <= Charge(x + y, r) <= Charge(x, r) + Charge(y, r) + 1
  {
    RatedAdds(x, y, r);
    RatedGrows(0.0, x, r);
    RatedGrows(0.0, y, r);
    assert Rated(0.0, r) == 0.0;
    hide Rated;
    IntPartOfSum(Rated(x, r), Rated(y, r));
  }

  lemma {:induction false} WholeSpare(parts: seq<Usage>)
    requires forall p | p in parts :: Counts(p)
    ensures Counts(Whole(parts)) && TotalSpare(parts) >= 0 && TotalOverflow(parts) >= 0
    ensures Whole(parts).prompt - Details(Whole(parts)) == TotalSpare(parts) - TotalOverflow(parts)
  {
    if parts != [] {
      assert parts[0] in parts;
      WholeSpare(parts[1..]);
      PlusCounts(parts[0], Whole(parts[1..]));
      hide Counts;
    }
  }

  lemma PlusCounts(u: Usage, v: Usage)
    requires Counts(u) && Counts(v)
    ensures Counts(Plus(u, v)) && Surcharge(Plus(u, v)) == Surcharge(u) + Surcharge(v)
  {}

  lemma PlusNothing(u: Usage)
    ensures Plus(u, NOTHING) == u
  {}

  /** The weight of all parts together: their text one by one, everything else summed. */
  function Gross(parts: seq<Usage>, r: Ratios): real { TotalSpare(parts) as real + Extras(Whole(parts), r) }

  lemma GrossNonNegative(parts: seq<Usage>, r: Ratios)
    requires Fair(r) && forall p | p in parts :: Counts(p)
    ensures Gross(parts, r) >= 0.0
  {
    WholeSpare(parts);
    ExtrasNonNegative(Whole(parts), r);
  }

  lemma GrossStep(parts: seq<Usage>, r: Ratios)
    requires parts != []
    ensures Gross(parts, r) == Weighted(parts[0], r) + Gross(parts[1..], r)
    ensures |parts| == 1 ==> Gross(parts[1..], r) == 0.0
  {
    WeightedIs(parts[0], r);
    ExtrasAdd(parts[0], Whole(parts[1..]), r);
    if |parts| == 1 {
      assert parts[1..] == [];
      assert Extras(NOTHING, r) == 0.0;
    }
    hide Weighted, Extras, Spare;
  }

  lemma {:induction false} BilledIsGross(parts: seq<Usage>, r: Ratios)
    requires parts != [] && Fair(r) && forall p | p in parts :: Counts(p)
    ensures var all := Charge(Gross(parts, r), r) + Surcharge(Whole(parts));
            all - (|parts| - 1) <= Billed(parts, r) <= all
  {
    hide Gross, Charge, Counts, Weighted;
    assert parts[0] in parts;
    GrossStep(parts, r);
    if |parts| == 1 {
      assert parts[1..] == [];
      PlusNothing(parts[0]);
    } else {
      BilledIsGross(parts[1..], r);
      WeightedNonNegative(parts[0], r);
      GrossNonNegative(parts[1..], r);
      ChargeAdds(Weighted(parts[0], r), Gross(parts[1..], r), r);
      SurchargeAdds(parts);
      hide Surcharge, Whole;
    }
  }

  lemma SurchargeAdds(parts: seq<Usage>)
    requires parts != [] && forall p | p in parts :: Counts(p)
    ensures Surcharge(Whole(parts)) == Surcharge(parts[0]) + Surcharge(Whole(parts[1..]))
  {
    assert parts[0] in parts;
    WholeSpare(parts[1..]);
    PlusCounts(parts[0], Whole(parts[1..]));
    hide Counts, Surcharge, Plus;
  }

  /**
   For every way to split a request, whatever the ratios: the parts cost what the whole would cost with the
   regained text added, less at most one unit of rounding for each cut.
   */
  lemma SplitCosts(parts: seq<Usage>, r: Ratios)
    requires parts != [] && Fair(r) && forall p | p in parts :: Counts(p)
    ensures var all := Charge(Weighted(Whole(parts), r) + Regained(parts) as real, r) + Surcharge(Whole(parts));
            all - (|parts| - 1) <= Billed(parts, r) <= all
  {
    hide Charge, Counts, Surcharge, Extras;
    BilledIsGross(parts, r);
    WholeSpare(parts);
    WeightedIs(Whole(parts), r);
    hide Weighted, Billed;
    assert Spare(Whole(parts)) + Regained(parts) == TotalSpare(parts);
  }

  /** The parts never cost more than the whole, under any fair ratios, exactly when they regain no text. */
  lemma SplitNeverDearerIff(parts: seq<Usage>)
    requires parts != [] && forall p | p in parts :: Counts(p)
    ensures (forall r | Fair(r) :: Billed(parts, r) <= Metered(Whole(parts), r)) <==> Regained(parts) == 0
    ensures Regained(parts) == 0 <==>
              ((forall p | p in parts :: Details(p) <= p.prompt) || (forall p | p in parts :: Details(p) >= p.prompt))
  {
    hide Counts, Charge, Weighted, Surcharge;
    WholeSpare(parts);
    SpareOrOverflow(parts);
    if Regained(parts) == 0 {
      forall r | Fair(r)
        ensures Billed(parts, r) <= Metered(Whole(parts), r)
      {
        SplitCosts(parts, r);
      }
    }
    if forall r | Fair(r) :: Billed(parts, r) <= Metered(Whole(parts), r) {
      assert Fair(PAR);
      BilledAtPar(parts);
    }
  }

  lemma {:induction false} SpareOrOverflow(parts: seq<Usage>)
    ensures TotalSpare(parts) >= 0 && TotalOverflow(parts) >= 0
    ensures TotalOverflow(parts) == 0 <==> forall p | p in parts :: Details(p) <= p.prompt
    ensures TotalSpare(parts) == 0 <==> forall p | p in parts :: Details(p) >= p.prompt
  {
    if parts != [] {
      SpareOrOverflow(parts[1..]);
      assert forall p :: p in parts <==> p == parts[0] || p in parts[1..];
    }
  }

  /** Splitting a request whose details fit its prompts saves the user at most n - 1 units and never costs more. */
  lemma SplittingSavesOnlyRounding(parts: seq<Usage>, r: Ratios)
    requires parts != [] && Fair(r) && forall p | p in parts :: Fits(p)
    ensures Metered(Whole(parts), r) - (|parts| - 1) <= Billed(parts, r) <= Metered(Whole(parts), r)
  {
    SpareOrOverflow(parts);
    SplitCosts(parts, r);
    hide Charge, Weighted, Surcharge, Billed;
  }

  const PAR := Ratios(1.0, 1.0, 1.0, 1.0, 1.0, 1.0, 1.0)

  lemma MeteredAtPar(u: Usage)
    requires Counts(u)
    ensures Metered(u, PAR) == BasePrompt(u) + u.cached + u.image + u.audio + u.completion + u.audioCompletion + Surcharge(u)
  {
    var tokens := BasePrompt(u) + u.cached + u.image + u.audio + u.completion + u.audioCompletion;
    assert Weighted(u, PAR) == tokens as real;
    assert Charge(tokens as real, PAR) == tokens;
  }

  /** At whole model and group ratios and all kinds of token weighing one, nothing is rounded. */
  lemma MeteredWhole(u: Usage, model: nat, group: nat)
    requires Counts(u)
    ensures var r := Ratios(model as real, 1.0, 1.0, 1.0, 1.0, 1.0, group as real);
            Metered(u, r) == (BasePrompt(u) + u.cached + u.image + u.audio + u.completion + u.audioCompletion) * model * group + ToolFees(u)
  {
    var r := Ratios(model as real, 1.0, 1.0, 1.0, 1.0, 1.0, group as real);
    var tokens := BasePrompt(u) + u.cached + u.image + u.audio + u.completion + u.audioCompletion;
    assert Weighted(u, r) == tokens as real;
    hide Weighted;
    var units := tokens * model;
    assert units as real == tokens as real * model as real;
    assert (units * group) as real == units as real * group as real;
    assert Charge(tokens as real, r) == units * group;
  }

  /** At par there is no rounding: the regained text is the difference. */
  lemma BilledAtPar(parts: seq<Usage>)
    requires forall p | p in parts :: Counts(p)
    ensures Billed(parts, PAR) == Metered(Whole(parts), PAR) + Regained(parts)
  {
    BilledAtParIs(parts);
    WholeSpare(parts);
    MeteredAtPar(Whole(parts));
    hide Metered;
  }

  lemma PlusTokens(u: Usage, v: Usage)
    ensures var w := Plus(u, v);
            && Details(w) == Details(u) + Details(v) && w.completion == u.completion + v.completion
            && w.audioCompletion == u.audioCompletion + v.audioCompletion
    ensures BasePrompt(u) == Spare(u) && u.cached + u.image + u.audio == Details(u)
  {}

  lemma {:induction false} BilledAtParIs(parts: seq<Usage>)
    requires forall p | p in parts :: Counts(p)
    ensures var w := Whole(parts);
            Billed(parts, PAR) == TotalSpare(parts) + Details(w) + w.completion + w.audioCompletion + Surcharge(w)
  {
    hide Metered;
    if parts != [] {
      assert parts[0] in parts;
      BilledAtParIs(parts[1..]);
      MeteredAtPar(parts[0]);
      SurchargeAdds(parts);
      PlusTokens(parts[0], Whole(parts[1..]));
      hide Surcharge, Spare, BasePrompt, Counts, Plus, Details;
    }
  }

  // ---------------------------------------------------------------- does the hold cover the cost

  function Larger(a: int, b: int): int { if a > b then a else b }

  /** What a text request may use: so many prompt tokens, cached or not, so much output, and exactly these tool calls. */
  datatype Bounds = Bounds(prompt: int, completion: int, webSearches: int, fileSearches: int)

  predicate Within(u: Usage, b: Bounds) {
    && Fits(u) && u.image == 0 && u.audio == 0 && u.audioCompletion == 0
    && u.prompt <= b.prompt && u.completion <= b.completion
    && u.webSearches == b.webSearches && u.fileSearches == b.fileSearches
  }

  predicate ToolCounts(b: Bounds) { b.webSearches >= 0 && b.fileSearches >= 0 }

  predicate CanBeUsed(b: Bounds) { b.prompt >= 0 && b.completion >= 0 }

  /**
   Held for `limit` on both sides at the ratios of the requested model and the token's group; settled at those of
   the mapped model and the channel's group, or at that model's price per call.
   */
  ghost predicate HoldCovers(b: Bounds, limit: int, held: Ratios, r: Ratios, price: Option<real>, penalty: real) {
    forall u | Within(u, b) :: CalculateQuota(u, r, price, penalty) <= Estimate(limit, limit, 0, 0, held)
  }

  function Full(b: Bounds, cached: int): Usage {
    Usage(b.prompt, b.completion, cached, 0, 0, 0, b.webSearches, b.fileSearches)
  }

  /** Everything used up, the prompt cached throughout if that is dearer. */
  function Worst(b: Bounds, r: Ratios): Usage { Full(b, if r.cache > 1.0 then b.prompt else 0) }

  function WorstWeight(b: Bounds, r: Ratios): real {
    (if r.cache > 1.0 then Part(b.prompt, r.cache) else b.prompt as real) + Part(b.completion, r.completion)
  }

  lemma TextWeight(u: Usage, r: Ratios)
    requires Fits(u) && u.image == 0 && u.audio == 0 && u.audioCompletion == 0
    ensures Weighted(u, r) == (u.prompt - u.cached) as real + Part(u.cached, r.cache) + Part(u.completion, r.completion)
  {
    NoPart(r.image);
    NoPart(r.audio);
    NoPart(r.audioCompletion);
    hide Part;
  }

  lemma WithinWorst(u: Usage, b: Bounds, r: Ratios)
    requires Fair(r) && Within(u, b)
    ensures Weighted(u, r) <= WorstWeight(b, r)
  {
    TextWeight(u, r);
    PartGrows(u.completion, b.completion, r.completion);
    if r.cache > 1.0 {
      PartGrows(u.prompt, b.prompt, r.cache);
      PartsAdd(u.prompt - u.cached, u.cached, r.cache);
      PartAround(u.prompt - u.cached, r.cache);
    } else {
      PartAround(u.cached, r.cache);
    }
    hide Part, Weighted;
  }

  lemma WorstIs(b: Bounds, r: Ratios)
    requires CanBeUsed(b) && ToolCounts(b) && Fair(r)
    ensures Within(Worst(b, r), b) && Weighted(Worst(b, r), r) == WorstWeight(b, r)
  {
    TextWeight(Worst(b, r), r);
    NoPart(r.cache);
    hide Part, Weighted;
  }

  /**
   One usage decides, whatever the two sets of ratios, the price and the penalty: the hold covers everything within
   the bounds exactly when it covers the dearest request within them.
   */
  lemma HoldCoversIffWorst(b: Bounds, limit: int, held: Ratios, r: Ratios, price: Option<real>, penalty: real)
    requires Fair(r) && ToolCounts(b)
    ensures HoldCovers(b, limit, held, r, price, penalty) <==>
              !CanBeUsed(b) || CalculateQuota(Worst(b, r), r, price, penalty) <= Estimate(limit, limit, 0, 0, held)
  {
    hide Weighted, Charge, PerCall, Penalised, Estimate, WorstWeight;
    if CanBeUsed(b) {
      WorstIs(b, r);
      var worst := Worst(b, r);
      forall u | Within(u, b)
        ensures CalculateQuota(u, r, price, penalty) <= CalculateQuota(worst, r, price, penalty)
      {
        WithinWorst(u, b, r);
        ChargeGrows(Weighted(u, r), Weighted(worst, r), r);
        PenaltyGrows((if price.Some? then PerCall(price.value, r) else Charge(Weighted(u, r), r)) + Surcharge(u),
                     (if price.Some? then PerCall(price.value, r) else Charge(Weighted(worst, r), r)) + Surcharge(worst), penalty);
      }
    }
  }

  function HeldPrompt(limit: int): int { Larger(limit, MIN_ESTIMATE_TOKENS) }

  /** What the relay holds. */
  function Hold(limit: int, held: Ratios): int {
    Larger(1, Charge(HeldPrompt(limit) as real + Part(limit, held.completion), held))
  }

  /** What the dearest request costs before any penalty. */
  function WorstCost(b: Bounds, r: Ratios, price: Option<real>): int {
    (if price.Some? then PerCall(price.value, r) else Charge(WorstWeight(b, r), r)) + b.webSearches * 1000 + b.fileSearches * 100
  }

  lemma EstimateIsHold(limit: int, held: Ratios)
    ensures Estimate(limit, limit, 0, 0, held) == Hold(limit, held)
  {
    NoPart(held.image);
    NoPart(held.audio);
    hide Part, Charge;
  }

  /** The thresholds: without a penalty the dearest request must cost no more than the hold, with one it must still stay below the next unit. */
  lemma HoldCoversIff(b: Bounds, limit: int, held: Ratios, r: Ratios, price: Option<real>, penalty: real)
    requires Fair(r) && ToolCounts(b) && CanBeUsed(b)
    ensures penalty <= 1.0 ==> (HoldCovers(b, limit, held, r, price, penalty) <==> WorstCost(b, r, price) <= Hold(limit, held))
    ensures penalty > 1.0 ==>
              (HoldCovers(b, limit, held, r, price, penalty) <==> WorstCost(b, r, price) as real * penalty < (Hold(limit, held) + 1) as real)
  {
    hide HoldCovers, Estimate, Weighted, Charge, PerCall, WorstWeight;
    HoldCoversIffWorst(b, limit, held, r, price, penalty);
    WorstIs(b, r);
    EstimateIsHold(limit, held);
    assert Surcharge(Worst(b, r)) == b.webSearches * 1000 + b.fileSearches * 100;
  }

  /** Nothing bounds a prompt by the limit of the output, and no hold covers prompts of every length. */
  lemma NoHoldCoversEveryPrompt(b: Bounds, limit: int, held: Ratios, r: Ratios, penalty: real)
    requires Fair(r) && r.model > 0.0 && r.group > 0.0 && ToolCounts(b) && CanBeUsed(b)
    ensures exists prompt :: !HoldCovers(b.(prompt := prompt), limit, held, r, None, penalty)
  {
    var prompt := LongPrompt(b, Hold(limit, held), r);
    var longer := b.(prompt := prompt);
    hide HoldCovers, Hold, WorstCost;
    HoldCoversIff(longer, limit, held, r, None, penalty);
    if penalty > 1.0 {
      PenaltyKeepsAbove(WorstCost(longer, r, None), Hold(limit, held) + 1, penalty);
    }
    assert !HoldCovers(b.(prompt := prompt), limit, held, r, None, penalty);
  }

  lemma PenaltyKeepsAbove(cost: int, bound: int, penalty: real)
    requires cost >= bound >= 0 && penalty > 1.0
    ensures cost as real * penalty >= bound as real
  {
    ScaleUp(1.0, penalty, cost as real);
    assert cost as real * penalty == penalty * cost as real;
  }

  /** A prompt long enough to cost more than any given hold. */
  lemma LongPrompt(b: Bounds, hold: int, r: Ratios) returns (prompt: int)
    requires Fair(r) && r.model > 0.0 && r.group > 0.0 && ToolCounts(b) && CanBeUsed(b) && hold >= 0
    ensures prompt >= 0 && WorstCost(b.(prompt := prompt), r, None) >= hold + 1
  {
    var rate := Rated(1.0, r);
    assert rate > 0.0;
    prompt := ((hold + 1) as real / rate).Floor + 1;
    LongEnough(hold, rate, prompt);
    var longer := b.(prompt := prompt);
    WorstAtLeastPrompt(longer, r);
    ChargeGrows(prompt as real, WorstWeight(longer, r), r);
    RateOf(prompt as real, r);
    hide WorstWeight, Rated, Fair;
    assert IntPart(prompt as real * rate) >= hold + 1;
  }

  lemma RateOf(x: real, r: Ratios)
    ensures Rated(x, r) == x * Rated(1.0, r)
  {}

  lemma LongEnough(hold: int, rate: real, prompt: int)
    requires rate > 0.0 && hold >= 0 && prompt == ((hold + 1) as real / rate).Floor + 1
    ensures prompt >= 1 && prompt as real * rate >= (hold + 1) as real
  {
    var exact := (hold + 1) as real / rate;
    assert exact >= 0.0 && prompt as real >= exact;
    ScaleUp(exact, prompt as real, rate);
  }

  lemma WorstAtLeastPrompt(b: Bounds, r: Ratios)
    requires CanBeUsed(b) && Fair(r)
    ensures WorstWeight(b, r) >= b.prompt as real
  {
    PartAround(b.prompt, r.cache);
    ScalePositive(b.completion as real, r.completion);
  }

  // ---------------------------------------------------------------- the same ratios on both sides

  /** The model is not mapped, the group is the token's own, and the prompt stays within its estimate. */
  function Estimated(limit: int, webSearches: int, fileSearches: int): Bounds {
    Bounds(HeldPrompt(limit), limit, webSearches, fileSearches)
  }

  lemma HeldBelowWorst(limit: int, w: int, f: int, r: Ratios)
    requires Fair(r) && limit >= 0
    ensures var b := Estimated(limit, w, f); var plain := Charge(HeldPrompt(limit) as real + Part(limit, r.completion), r);
            && 0 <= plain <= Charge(WorstWeight(b, r), r)
            && (r.cache <= 1.0 ==> Charge(WorstWeight(b, r), r) == plain)
  {
    var b := Estimated(limit, w, f);
    var plain := HeldPrompt(limit) as real + Part(limit, r.completion);
    PartAround(HeldPrompt(limit), r.cache);
    ScalePositive(limit as real, r.completion);
    ChargeGrows(0.0, plain, r);
    assert Charge(0.0, r) == 0;
    ChargeGrows(plain, WorstWeight(b, r), r);
  }

  /** With the same ratios on both sides and per-token billing, a single tool call outruns the hold for every limit, ratios and penalty. */
  lemma ToolsOutrunTheHold(limit: int, w: int, f: int, r: Ratios, penalty: real)
    requires Fair(r) && limit >= 0 && w >= 0 && f >= 0 && w + f >= 1
    ensures !HoldCovers(Estimated(limit, w, f), limit, r, r, None, penalty)
  {
    hide HoldCovers, Charge, WorstWeight;
    var b := Estimated(limit, w, f);
    HoldCoversIff(b, limit, r, r, None, penalty);
    HeldBelowWorst(limit, w, f, r);
    if penalty > 1.0 {
      PenaltyKeepsAbove(WorstCost(b, r, None), Hold(limit, r) + 1, penalty);
    }
  }

  /** And with cached tokens no dearer and no penalty, tools are all that does. */
  lemma HoldCoversIffNoTools(limit: int, w: int, f: int, r: Ratios, penalty: real)
    requires Fair(r) && limit >= 0 && w >= 0 && f >= 0 && r.cache <= 1.0 && penalty <= 1.0
    ensures HoldCovers(Estimated(limit, w, f), limit, r, r, None, penalty) <==> w == 0 && f == 0
  {
    hide HoldCovers, Charge, WorstWeight;
    if w == 0 && f == 0 {
      HoldCoversIff(Estimated(limit, w, f), limit, r, r, None, penalty);
      HeldBelowWorst(limit, w, f, r);
    } else {
      ToolsOutrunTheHold(limit, w, f, r, penalty);
    }
  }
}
