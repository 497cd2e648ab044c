/** What a request costs (pkg/costcalc/calculator.go): tiered token prices,
    discounts, the audit snapshot, and cost-equivalent cached input. USD amounts
    are real numbers; token counts are rounded as the source rounds them. */
module Charges {
  import opened Text
  import opened Wrappers
  import opened Pricing

  const MILLION: real := 1_000_000.0

  function Times(a: real, f: real): real {
    a * f
  }

  // ----- the charge ----------------------------------------------------------------

  /** The prompt exceeds the tier threshold. */
  predicate HighTier(p: ModelPricing, inputTokens: int) {
    p.tierThreshold > 0 && inputTokens > p.tierThreshold
  }

  function InputCost(p: ModelPricing, inputTokens: int): real {
    if HighTier(p, inputTokens) && p.inputHigh > 0.0 then
      p.tierThreshold as real / MILLION * p.input + (inputTokens - p.tierThreshold) as real / MILLION * p.inputHigh
    else inputTokens as real / MILLION * p.input
  }

  function OutputRate(p: ModelPricing, inputTokens: int): real {
    if HighTier(p, inputTokens) && p.outputHigh > 0.0 then p.outputHigh else p.output
  }

  function Discounted(cost: real, discount: real): real {
    if discount > 0.0 then Times(cost, 1.0 - discount) else cost
  }

  function ClampTokens(n: int): nat {
    if n < 0 then 0 else n
  }

  /** `Calculate` once the price is resolved. */
  function Charge(p: ModelPricing, globalDiscount: real, inputTokens: int, outputTokens: int): real {
    var tokensIn, tokensOut := ClampTokens(inputTokens), ClampTokens(outputTokens);
    if tokensIn == 0 && tokensOut == 0 then 0.0
    else
      var base := InputCost(p, tokensIn) + tokensOut as real / MILLION * OutputRate(p, tokensIn);
      Discounted(Discounted(base, p.discount), globalDiscount)
  }

  /** `Calculate`: local models and unknown models are free. */
  function Calculate(t: Tables, globalDiscount: real, provider: string, model: string,
                     inputTokens: int, outputTokens: int, now: int): real
  {
    if Lower(provider) == "local" then 0.0
    else match Resolve(t, provider, model, now)
      case None => 0.0
      case Some(p) => Charge(p, globalDiscount, inputTokens, outputTokens)
  }

  // ----- the audit snapshot -------------------------------------------------------------

  /** `ResolveEffective` on the resolved price: the weighted input rate and the
      output rate that apply to a prompt of this size. */
  function Effective(p: ModelPricing, inputTokens: int): ModelPricing {
    if !HighTier(p, inputTokens) then p
    else
      var input := if p.inputHigh > 0.0
        then (p.tierThreshold as real * p.input + (inputTokens - p.tierThreshold) as real * p.inputHigh) / inputTokens as real
        else p.input;
      p.(input := input, output := if p.outputHigh > 0.0 then p.outputHigh else p.output)
  }

  function Factor(discount: real): real {
    if discount > 0.0 then 1.0 - discount else 1.0
  }

  /** Tokens times the effective rates. */
  function ListPrice(p: ModelPricing, inputTokens: nat, outputTokens: nat): real {
    AtRates(Effective(p, inputTokens), inputTokens, outputTokens)
  }

  function AtRates(e: ModelPricing, inputTokens: nat, outputTokens: nat): real {
    (inputTokens as real * e.input + outputTokens as real * e.output) / MILLION
  }

  lemma WeightedRate(total: real, sum: real)
    requires total > 0.0
    ensures total * (sum / total) == sum
  {
  }

  /** Charge and snapshot agree: the charge is tokens times snapshot rates times
      both discount factors. */
  lemma ChargeMatchesSnapshot(p: ModelPricing, globalDiscount: real, inputTokens: int, outputTokens: int)
    ensures Charge(p, globalDiscount, inputTokens, outputTokens)
         == Times(Times(ListPrice(p, ClampTokens(inputTokens), ClampTokens(outputTokens)), Factor(p.discount)), Factor(globalDiscount))
  {
    var tokensIn, tokensOut := ClampTokens(inputTokens), ClampTokens(outputTokens);
    var base := InputCost(p, tokensIn) + tokensOut as real / MILLION * OutputRate(p, tokensIn);
    assert base == ListPrice(p, tokensIn, tokensOut) by {
      if HighTier(p, tokensIn) && p.inputHigh > 0.0 {
        WeightedRate(tokensIn as real,
          p.tierThreshold as real * p.input + (tokensIn - p.tierThreshold) as real * p.inputHigh);
      }
    }
  }

  /** `ResolveEffective`. */
  function ResolveEffective(t: Tables, provider: string, model: string, inputTokens: int, now: int): Option<ModelPricing> {
    match Resolve(t, provider, model, now)
    case None => None
    case Some(p) => Some(Effective(p, inputTokens))
  }

  /** The recorded snapshot reproduces what was charged, for every priced cloud model. */
  lemma CalculateMatchesSnapshot(t: Tables, globalDiscount: real, provider: string, model: string,
                                 inputTokens: nat, outputTokens: nat, now: int)
    requires Lower(provider) != "local" && ResolveEffective(t, provider, model, inputTokens, now).Some?
    ensures var e := ResolveEffective(t, provider, model, inputTokens, now).value;
      Calculate(t, globalDiscount, provider, model, inputTokens, outputTokens, now)
      == Times(Times(AtRates(e, inputTokens, outputTokens), Factor(e.discount)), Factor(globalDiscount))
  {
    hide Resolve; hide Charge; hide Times; hide Lower; hide AtRates;
    var p := Resolve(t, provider, model, now).value;
    ChargeMatchesSnapshot(p, globalDiscount, inputTokens, outputTokens);
  }

  // ----- what a charge is ---------------------------------------------------------------------

  /** The price of input token number `i`, counted from one: the high rate beyond the
      threshold, where a threshold and a high rate are set. */
  function TokenPrice(p: ModelPricing, i: nat): real {
    if p.tierThreshold > 0 && i > p.tierThreshold && p.inputHigh > 0.0 then p.inputHigh else p.input
  }

  /** The prices of the first `n` input tokens, added up one by one. */
  ghost function TokenPrices(p: ModelPricing, n: nat): real {
    if n == 0 then 0.0 else TokenPrices(p, n - 1) + TokenPrice(p, n)
  }

  lemma {:induction false} TiersAreMarginal(p: ModelPricing, n: nat)
    ensures InputAmount(p, n) == TokenPrices(p, n)
  {
    if n > 0 {
      TiersAreMarginal(p, n - 1);
      var t := p.tierThreshold;
      if t > 0 && n > t && p.inputHigh > 0.0 {
        assert (n - t) as real * p.inputHigh == (n - 1 - t) as real * p.inputHigh + p.inputHigh;
      } else {
        assert n as real * p.input == (n - 1) as real * p.input + p.input;
      }
    }
  }

  /** The list price is the input tokens, each at its own rate, and the output tokens at
      the one rate the size of the prompt selects, per million. */
  lemma ListPriceIs(p: ModelPricing, inputTokens: nat, outputTokens: nat)
    ensures var rate := if p.tierThreshold > 0 && inputTokens > p.tierThreshold && p.outputHigh > 0.0 then p.outputHigh else p.output;
      ListPrice(p, inputTokens, outputTokens) == (TokenPrices(p, inputTokens) + outputTokens as real * rate) / 1_000_000.0
  {
    hide ListPrice; hide InputAmount; hide TokenPrices;
    ListPriceSplit(p, inputTokens, outputTokens);
    TiersAreMarginal(p, inputTokens);
  }

  /** A charge is the list price less both discounts, one after the other; negative
      counts are no tokens. */
  lemma ChargeIs(p: ModelPricing, globalDiscount: real, inputTokens: int, outputTokens: int)
    requires DiscountsOk(p, globalDiscount)
    ensures var i, o := if inputTokens < 0 then 0 else inputTokens, if outputTokens < 0 then 0 else outputTokens;
      Charge(p, globalDiscount, inputTokens, outputTokens) == ListPrice(p, i, o) * (1.0 - p.discount) * (1.0 - globalDiscount)
  {
    hide Charge; hide ListPrice;
    ChargeMatchesSnapshot(p, globalDiscount, inputTokens, outputTokens);
  }

  /** Local models and models nobody prices are free; every other model is charged. */
  lemma CalculateIs(t: Tables, globalDiscount: real, provider: string, model: string, inputTokens: int, outputTokens: int, now: int)
    ensures var cost := Calculate(t, globalDiscount, provider, model, inputTokens, outputTokens, now);
      && (Lower(provider) == "local" || Resolve(t, provider, model, now) == None ==> cost == 0.0)
      && (Lower(provider) != "local" && Resolve(t, provider, model, now).Some? ==>
           cost == Charge(Resolve(t, provider, model, now).value, globalDiscount, inputTokens, outputTokens))
  {
    hide Resolve; hide Charge; hide Lower;
  }

  // ----- bounds and monotonicity ------------------------------------------------------------

  ghost predicate RatesOk(p: ModelPricing) {
    p.input >= 0.0 && p.output >= 0.0
  }

  ghost predicate DiscountsOk(p: ModelPricing, globalDiscount: real) {
    0.0 <= p.discount <= 1.0 && 0.0 <= globalDiscount <= 1.0
  }

  lemma ProductMonotone(a: real, b: real, f: real)
    requires a <= b && 0.0 <= f
    ensures a * f <= b * f
  {
  }

  lemma TimesMonotone(a: real, b: real, f: real)
    requires a <= b && 0.0 <= f
    ensures Times(a, f) <= Times(b, f)
  {
  }

  lemma TimesMonotoneRight(a: real, f: real, g: real)
    requires 0.0 <= a && f <= g
    ensures Times(a, f) <= Times(a, g)
  {
  }

  lemma TimesStrict(a: real, b: real, f: real)
    requires a < b && 0.0 < f
    ensures Times(a, f) < Times(b, f)
  {
  }

  lemma TimesBelow(a: real, f: real)
    requires 0.0 <= a && 0.0 <= f <= 1.0
    ensures 0.0 <= Times(a, f) <= a
  {
  }

  lemma FactorRange(d: real)
    requires 0.0 <= d <= 1.0
    ensures 0.0 <= Factor(d) <= 1.0 && (d < 1.0 ==> 0.0 < Factor(d))
  {
  }

  lemma ListPriceNonneg(p: ModelPricing, inputTokens: nat, outputTokens: nat)
    requires RatesOk(p)
    ensures ListPrice(p, inputTokens, outputTokens) >= 0.0
  {
    ListPriceSplit(p, inputTokens, outputTokens);
    TimesMonotone(0.0, outputTokens as real, OutputRate(p, inputTokens));
    InputAmountMonotone(p, 0, inputTokens);
  }

  /** What the input tokens cost, in millionths of a dollar. */
  function InputAmount(p: ModelPricing, inputTokens: nat): real {
    if HighTier(p, inputTokens) && p.inputHigh > 0.0
    then p.tierThreshold as real * p.input + (inputTokens - p.tierThreshold) as real * p.inputHigh
    else inputTokens as real * p.input
  }

  lemma ListPriceSplit(p: ModelPricing, inputTokens: nat, outputTokens: nat)
    ensures ListPrice(p, inputTokens, outputTokens)
         == (InputAmount(p, inputTokens) + Times(outputTokens as real, OutputRate(p, inputTokens))) / MILLION
  {
    if HighTier(p, inputTokens) && p.inputHigh > 0.0 {
      WeightedRate(inputTokens as real, InputAmount(p, inputTokens));
    }
  }

  lemma InputAmountMonotone(p: ModelPricing, a: nat, b: nat)
    requires RatesOk(p) && a <= b
    ensures InputAmount(p, a) <= InputAmount(p, b)
  {
    var t := p.tierThreshold;
    if HighTier(p, b) && p.inputHigh > 0.0 {
      if HighTier(p, a) {
        ProductMonotone((a - t) as real, (b - t) as real, p.inputHigh);
      } else {
        ProductMonotone(a as real, t as real, p.input);
        ProductMonotone(0.0, (b - t) as real, p.inputHigh);
      }
    } else {
      ProductMonotone(a as real, b as real, p.input);
    }
  }

  /** Clamped discounts keep the charge between nothing and the list price. */
  lemma ChargeBetweenZeroAndList(p: ModelPricing, globalDiscount: real, inputTokens: int, outputTokens: int)
    requires RatesOk(p) && DiscountsOk(p, globalDiscount)
    ensures 0.0 <= Charge(p, globalDiscount, inputTokens, outputTokens)
                <= ListPrice(p, ClampTokens(inputTokens), ClampTokens(outputTokens))
  {
    hide Charge; hide ListPrice; hide Factor; hide Times;
    var list := ListPrice(p, ClampTokens(inputTokens), ClampTokens(outputTokens));
    FactorRange(p.discount);
    FactorRange(globalDiscount);
    ChargeMatchesSnapshot(p, globalDiscount, inputTokens, outputTokens);
    ListPriceNonneg(p, ClampTokens(inputTokens), ClampTokens(outputTokens));
    TimesBelow(list, Factor(p.discount));
    TimesBelow(Times(list, Factor(p.discount)), Factor(globalDiscount));
  }

  lemma ChargeFollowsListPrice(p: ModelPricing, globalDiscount: real, in1: nat, out1: nat, in2: nat, out2: nat)
    requires DiscountsOk(p, globalDiscount) && ListPrice(p, in1, out1) <= ListPrice(p, in2, out2)
    ensures Charge(p, globalDiscount, in1, out1) <= Charge(p, globalDiscount, in2, out2)
  {
    hide Charge; hide ListPrice; hide Factor; hide Times;
    FactorRange(p.discount);
    FactorRange(globalDiscount);
    ChargeMatchesSnapshot(p, globalDiscount, in1, out1);
    ChargeMatchesSnapshot(p, globalDiscount, in2, out2);
    var a, b, f := ListPrice(p, in1, out1), ListPrice(p, in2, out2), Factor(p.discount);
    TimesMonotone(a, b, f);
    TimesMonotone(Times(a, f), Times(b, f), Factor(globalDiscount));
  }

  /** More output never costs less. */
  lemma ChargeMonotoneInOutput(p: ModelPricing, globalDiscount: real, inputTokens: nat, a: nat, b: nat)
    requires RatesOk(p) && DiscountsOk(p, globalDiscount) && a <= b
    ensures Charge(p, globalDiscount, inputTokens, a) <= Charge(p, globalDiscount, inputTokens, b)
  {
    hide Charge; hide ListPrice; hide Times;
    ListPriceSplit(p, inputTokens, a);
    ListPriceSplit(p, inputTokens, b);
    TimesMonotone(a as real, b as real, OutputRate(p, inputTokens));
    ChargeFollowsListPrice(p, globalDiscount, inputTokens, a, inputTokens, b);
  }

  ghost predicate MonotoneInInput(p: ModelPricing, globalDiscount: real) {
    forall a: nat, b: nat, out: nat :: a <= b ==> Charge(p, globalDiscount, a, out) <= Charge(p, globalDiscount, b, out)
  }

  /** Crossing the tier does not cut the output rate. */
  ghost predicate NoOutputDrop(p: ModelPricing) {
    p.tierThreshold <= 0 || p.outputHigh <= 0.0 || p.outputHigh >= p.output
  }

  lemma InputMonotone(p: ModelPricing, globalDiscount: real, a: nat, b: nat, out: nat)
    requires RatesOk(p) && DiscountsOk(p, globalDiscount) && NoOutputDrop(p) && a <= b
    ensures Charge(p, globalDiscount, a, out) <= Charge(p, globalDiscount, b, out)
  {
    hide Charge; hide ListPrice; hide Times; hide InputAmount;
    ListPriceSplit(p, a, out);
    ListPriceSplit(p, b, out);
    InputAmountMonotone(p, a, b);
    TimesMonotoneRight(out as real, OutputRate(p, a), OutputRate(p, b));
    ChargeFollowsListPrice(p, globalDiscount, a, out, b, out);
  }

  /** One token over the threshold makes enough output cheaper when the output rate drops. */
  lemma DropBreaksMonotonicity(p: ModelPricing, globalDiscount: real) returns (out: nat)
    requires RatesOk(p) && 0.0 <= p.discount < 1.0 && 0.0 <= globalDiscount < 1.0 && !NoOutputDrop(p)
    ensures Charge(p, globalDiscount, p.tierThreshold + 1, out) < Charge(p, globalDiscount, p.tierThreshold, out)
  {
    var t, drop := p.tierThreshold, p.output - p.outputHigh;
    var step := InputAmount(p, t + 1) - InputAmount(p, t);
    InputAmountMonotone(p, t, t + 1);
    out := Enough(step, drop);
    DropShows(p, out);
    ChargeMatchesSnapshot(p, globalDiscount, t, out);
    ChargeMatchesSnapshot(p, globalDiscount, t + 1, out);
    hide Charge; hide ListPrice; hide Factor; hide Times;
    var lo, hi, f, g := ListPrice(p, t + 1, out), ListPrice(p, t, out), Factor(p.discount), Factor(globalDiscount);
    FactorRange(p.discount);
    FactorRange(globalDiscount);
    TimesStrict(lo, hi, f);
    TimesStrict(Times(lo, f), Times(hi, f), g);
  }

  lemma Enough(step: real, drop: real) returns (n: nat)
    requires step >= 0.0 && drop > 0.0
    ensures n as real * drop > step
  {
    n := (step / drop).Floor + 1;
    TimesStrict(step / drop, n as real, drop);
    WeightedRate(drop, step);
  }

  lemma DropShows(p: ModelPricing, out: nat)
    requires RatesOk(p) && !NoOutputDrop(p)
    requires out as real * (p.output - p.outputHigh) > InputAmount(p, p.tierThreshold + 1) - InputAmount(p, p.tierThreshold)
    ensures ListPrice(p, p.tierThreshold + 1, out) < ListPrice(p, p.tierThreshold, out)
  {
    hide ListPrice; hide InputAmount;
    var t := p.tierThreshold;
    ListPriceSplit(p, t, out);
    ListPriceSplit(p, t + 1, out);
  }

  /** A full discount makes everything free. */
  lemma FullDiscountIsFree(p: ModelPricing, globalDiscount: real, inputTokens: nat, outputTokens: nat)
    requires p.discount == 1.0 || globalDiscount == 1.0
    ensures Charge(p, globalDiscount, inputTokens, outputTokens) == 0.0
  {
    hide Charge; hide ListPrice;
    ChargeMatchesSnapshot(p, globalDiscount, inputTokens, outputTokens);
  }

  /** The exact condition: more input never costs less iff the high tier does not
      cut the output rate, or a discount makes everything free. */
  lemma MonotoneInInputIff(p: ModelPricing, globalDiscount: real)
    requires RatesOk(p) && DiscountsOk(p, globalDiscount)
    ensures MonotoneInInput(p, globalDiscount) <==> NoOutputDrop(p) || p.discount == 1.0 || globalDiscount == 1.0
  {
    hide Charge;
    if NoOutputDrop(p) || p.discount == 1.0 || globalDiscount == 1.0 {
      forall a: nat, b: nat, out: nat | a <= b
        ensures Charge(p, globalDiscount, a, out) <= Charge(p, globalDiscount, b, out)
      {
        if NoOutputDrop(p) {
          InputMonotone(p, globalDiscount, a, b, out);
        } else {
          FullDiscountIsFree(p, globalDiscount, a, out);
          FullDiscountIsFree(p, globalDiscount, b, out);
        }
      }
    } else {
      var out := DropBreaksMonotonicity(p, globalDiscount);
      var t: nat := p.tierThreshold;
      assert !(Charge(p, globalDiscount, t, out) <= Charge(p, globalDiscount, t + 1, out));
    }
  }

  // ----- cached input ----------------------------------------------------------------------------

  datatype CacheDiscount = CacheDiscount(read: real, create: real, inputIncludesCache: bool)

  const DEFAULT_DISCOUNTS: map<string, CacheDiscount> := map[
    "anthropic" := CacheDiscount(0.1, 1.25, false),
    "google" := CacheDiscount(0.1, 1.0, true),
    "openai" := CacheDiscount(0.5, 1.0, true)]

  /** `math.Round`: to the nearest integer, halves away from zero. */
  function Round(x: real): (r: int)
    ensures -0.5 <= r as real - x <= 0.5
    ensures if x >= 0.0 then r as real - x > -0.5 else r as real - x < 0.5
  {
    if x >= 0.0 then (x + 0.5).Floor else -((-x + 0.5).Floor)
  }

  predicate Contains(s: string, sub: string) {
    Index(s, sub) >= 0
  }

  function GoogleReadDiscount(model: string): real {
    var m := Lower(model);
    if Contains(m, "gemini-2.0") || Contains(m, "gemini-1.5") || Contains(m, "gemini-1.0") then 0.25 else 0.1
  }

  /** The multipliers in force for a canonical provider and model. */
  function Multipliers(cfg: CacheDiscount, canonical: string, model: string, extendedTTL: bool): CacheDiscount {
    cfg.(read := if canonical == "google" && cfg.read == DEFAULT_DISCOUNTS["google"].read then GoogleReadDiscount(model) else cfg.read,
         create := if extendedTTL && canonical == "anthropic" then 2.0 else cfg.create)
  }

  function FreshTokens(c: CacheDiscount, rawInput: int, cacheRead: int, cacheCreate: int): int {
    if !c.inputIncludesCache then rawInput
    else ClampTokens(rawInput - cacheRead - cacheCreate)
  }

  /** The provider whose cache pricing applies. */
  function CacheProvider(provider: string): string {
    if Lower(provider) in ALIASES then ALIASES[Lower(provider)] else Lower(provider)
  }

  lemma CacheProviderIs(provider: string)
    ensures CacheProvider(provider) == Lower(CanonicalProvider(provider))
  {
    AliasesResolve(provider);
    assert Lower("anthropic") == "anthropic" && Lower("google") == "google";
  }

  /** `NormalizeCachedInputWithTTL`. */
  function NormalizeCachedInput(discounts: map<string, CacheDiscount>, provider: string, model: string,
                                rawInput: int, cacheRead: int, cacheCreate: int, extendedTTL: bool): int
  {
    var canonical := CacheProvider(provider);
    if (cacheRead <= 0 && cacheCreate <= 0) || canonical !in discounts then rawInput
    else
      var c := Multipliers(discounts[canonical], canonical, model, extendedTTL);
      FreshTokens(c, rawInput, cacheRead, cacheCreate)
      + Round(Times(cacheRead as real, c.read)) + Round(Times(cacheCreate as real, c.create))
  }

  /** Rounding costs at most one token against the exact real value. */
  lemma NormalizationWithinOneToken(discounts: map<string, CacheDiscount>, provider: string, model: string,
                                    rawInput: int, cacheRead: int, cacheCreate: int, extendedTTL: bool)
    requires cacheRead > 0 || cacheCreate > 0
    requires CacheProvider(provider) in discounts
    ensures var canonical := CacheProvider(provider);
      var c := Multipliers(discounts[canonical], canonical, model, extendedTTL);
      var exact := FreshTokens(c, rawInput, cacheRead, cacheCreate) as real + Times(cacheRead as real, c.read) + Times(cacheCreate as real, c.create);
      -1.0 <= NormalizeCachedInput(discounts, provider, model, rawInput, cacheRead, cacheCreate, extendedTTL) as real - exact <= 1.0
  {
    hide CacheProvider; hide Multipliers; hide FreshTokens; hide Round;
  }

  /** The configured multipliers, and when they do not apply as they are. */
  lemma MultipliersInForce(cfg: CacheDiscount, canonical: string, model: string, extendedTTL: bool)
    ensures var c := Multipliers(cfg, canonical, model, extendedTTL);
      var dated := exists family :: family in {"gemini-2.0", "gemini-1.5", "gemini-1.0"} && Index(Lower(model), family) >= 0;
      && c.inputIncludesCache == cfg.inputIncludesCache
      && c.create == (if canonical == "anthropic" && extendedTTL then 2.0 else cfg.create)
      && c.read == (if canonical == "google" && cfg.read == 0.1 && dated then 0.25 else cfg.read)
  {
    hide Index; hide Lower;
    var m := Lower(model);
    assert "gemini-2.0" in {"gemini-2.0", "gemini-1.5", "gemini-1.0"} && "gemini-1.5" in {"gemini-2.0", "gemini-1.5", "gemini-1.0"}
      && "gemini-1.0" in {"gemini-2.0", "gemini-1.5", "gemini-1.0"};
  }

  /** Every token is counted once: cached tokens at full price add up to all input tokens,
      whichever way the provider counts, and free ones leave the fresh tokens alone. */
  lemma EveryTokenOnce(discounts: map<string, CacheDiscount>, provider: string, model: string,
                       rawInput: nat, cacheRead: nat, cacheCreate: nat, extendedTTL: bool)
    requires CacheProvider(provider) in discounts
    requires discounts[CacheProvider(provider)].inputIncludesCache ==> cacheRead + cacheCreate <= rawInput
    ensures var canonical := CacheProvider(provider);
      var c := Multipliers(discounts[canonical], canonical, model, extendedTTL);
      var counted := NormalizeCachedInput(discounts, provider, model, rawInput, cacheRead, cacheCreate, extendedTTL);
      && (c.read == 1.0 && c.create == 1.0 ==> counted == if c.inputIncludesCache then rawInput else rawInput + cacheRead + cacheCreate)
      && (c.read == 0.0 && c.create == 0.0 && (cacheRead > 0 || cacheCreate > 0) ==>
            counted == if c.inputIncludesCache then rawInput - cacheRead - cacheCreate else rawInput)
  {
    hide CacheProvider;
    var canonical := CacheProvider(provider);
    MultipliersInForce(discounts[canonical], canonical, model, extendedTTL);
    hide Multipliers;
  }

  /** Without cached tokens, or without cache pricing for the provider, nothing changes. */
  lemma UncachedUnchanged(discounts: map<string, CacheDiscount>, provider: string, model: string,
                          rawInput: int, cacheRead: int, cacheCreate: int, extendedTTL: bool)
    requires (cacheRead <= 0 && cacheCreate <= 0) || CacheProvider(provider) !in discounts
    ensures NormalizeCachedInput(discounts, provider, model, rawInput, cacheRead, cacheCreate, extendedTTL) == rawInput
  {
    hide CacheProvider; hide Multipliers;
  }

  lemma RoundBelow(n: nat, f: real)
    requires 0.0 <= f <= 1.0
    ensures 0 <= Round(Times(n as real, f)) <= n
  {
    TimesBelow(n as real, f);
  }

  /** For providers whose input count includes the cache, discounts never raise it. */
  lemma InclusiveNeverExceedsRaw(discounts: map<string, CacheDiscount>, provider: string, model: string,
                                 rawInput: nat, cacheRead: nat, cacheCreate: nat, extendedTTL: bool)
    requires cacheRead + cacheCreate <= rawInput
    requires var canonical := CacheProvider(provider);
      canonical in discounts ==>
        var c := Multipliers(discounts[canonical], canonical, model, extendedTTL);
        c.inputIncludesCache && 0.0 <= c.read <= 1.0 && 0.0 <= c.create <= 1.0
    ensures 0 <= NormalizeCachedInput(discounts, provider, model, rawInput, cacheRead, cacheCreate, extendedTTL) <= rawInput
  {
    hide CacheProvider; hide Multipliers; hide Round; hide Times;
    var canonical := CacheProvider(provider);
    if canonical in discounts {
      var c := Multipliers(discounts[canonical], canonical, model, extendedTTL);
      RoundBelow(cacheRead, c.read);
      RoundBelow(cacheCreate, c.create);
    }
  }
}
