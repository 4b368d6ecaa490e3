/** The price table and the cost of one call, in integer micro-euros. */
module UsagePricing {

  /** Micro-euros per million tokens. */
  datatype ModelPrice = ModelPrice(input: int, output: int, cached: int)

  datatype TokenUsage = TokenUsage(input: int, output: int, cached: int)

  const PRICES: map<(string, string), ModelPrice> := map[
    ("mistral", "mistral-small-latest") := ModelPrice(200_000, 600_000, 200_000),
    ("mistral", "mistral-large-latest") := ModelPrice(2_000_000, 6_000_000, 2_000_000),
    ("mistral", "mistral-embed") := ModelPrice(100_000, 0, 100_000),
    ("anthropic", "claude-3-5-haiku-latest") := ModelPrice(800_000, 4_000_000, 80_000),
    ("anthropic", "claude-3-5-sonnet-latest") := ModelPrice(3_000_000, 15_000_000, 300_000),
    ("openai", "gpt-4o-mini") := ModelPrice(150_000, 600_000, 75_000),
    ("openai", "gpt-4o") := ModelPrice(2_500_000, 10_000_000, 1_250_000),
    ("openai", "text-embedding-3-small") := ModelPrice(20_000, 0, 20_000)]

  const MILLION := 1_000_000

  /** The undivided price of a usage; cached tokens are part of the input tokens. */
  function Weight(price: ModelPrice, u: TokenUsage): int {
    (if u.input > u.cached then u.input - u.cached else 0) * price.input + u.cached * price.cached
      + u.output * price.output
  }

  /** An unknown model costs nothing. The division rounds down, as the source's floor division does. */
  function EstimateCost(provider: string, model: string, u: TokenUsage): int {
    if (provider, model) !in PRICES then 0 else Weight(PRICES[(provider, model)], u) / MILLION
  }

  function SumUsage(usages: seq<TokenUsage>): TokenUsage {
    if usages == [] then TokenUsage(0, 0, 0)
    else
      var rest := SumUsage(usages[1..]);
      TokenUsage(usages[0].input + rest.input, usages[0].output + rest.output, usages[0].cached + rest.cached)
  }

  function SumCosts(provider: string, model: string, usages: seq<TokenUsage>): int {
    if usages == [] then 0
    else EstimateCost(provider, model, usages[0]) + SumCosts(provider, model, usages[1..])
  }

  /** The cost of the summed usage against the sum of the costs of `n` calls. */
  predicate Bounded(provider: string, model: string, usages: seq<TokenUsage>) {
    var whole := EstimateCost(provider, model, SumUsage(usages));
    SumCosts(provider, model, usages) <= whole <= SumCosts(provider, model, usages) + |usages| - 1
  }

  /** No call has more cached than input tokens, or none has fewer. */
  ghost predicate OneSided(usages: seq<TokenUsage>) {
    || (forall u :: u in usages ==> u.cached <= u.input)
    || (forall u :: u in usages ==> u.cached >= u.input)
  }

  // --- Before rounding ---

  function SumWeights(price: ModelPrice, usages: seq<TokenUsage>): int {
    if usages == [] then 0 else Weight(price, usages[0]) + SumWeights(price, usages[1..])
  }

  function Max(a: int, b: int): int {
    if a < b then b else a
  }

  /** The input tokens billed in full over the calls, and the cached tokens in excess of the input ones. */
  function Billed(usages: seq<TokenUsage>): nat {
    if usages == [] then 0 else Max(usages[0].input - usages[0].cached, 0) + Billed(usages[1..])
  }

  function Excess(usages: seq<TokenUsage>): nat {
    if usages == [] then 0 else Max(usages[0].cached - usages[0].input, 0) + Excess(usages[1..])
  }

  lemma Distribute(a: int, b: int, c: int)
    ensures (a + b) * c == a * c + b * c
  {
  }

  lemma {:induction false} SumWeightsForm(price: ModelPrice, usages: seq<TokenUsage>)
    ensures SumWeights(price, usages)
            == Billed(usages) * price.input + SumUsage(usages).cached * price.cached
              + SumUsage(usages).output * price.output
    decreases |usages|
  {
    if usages != [] {
      var u, rest := usages[0], usages[1..];
      SumWeightsForm(price, rest);
      Distribute(Max(u.input - u.cached, 0), Billed(rest), price.input);
      Distribute(u.cached, SumUsage(rest).cached, price.cached);
      Distribute(u.output, SumUsage(rest).output, price.output);
    }
  }

  lemma {:induction false} BilledOrExcess(usages: seq<TokenUsage>)
    ensures SumUsage(usages).input - SumUsage(usages).cached == Billed(usages) - Excess(usages)
    ensures Excess(usages) == 0 <==> forall u :: u in usages ==> u.cached <= u.input
    ensures Billed(usages) == 0 <==> forall u :: u in usages ==> u.cached >= u.input
    decreases |usages|
  {
    if usages != [] {
      BilledOrExcess(usages[1..]);
      assert forall u :: u in usages <==> u == usages[0] || u in usages[1..];
    }
  }

  /** Summing the usage first never weighs more, and weighs the same exactly when the calls are one-sided. */
  lemma WeightsAddIffOneSided(price: ModelPrice, usages: seq<TokenUsage>)
    requires price.input > 0
    ensures Weight(price, SumUsage(usages)) <= SumWeights(price, usages)
    ensures Weight(price, SumUsage(usages)) == SumWeights(price, usages) <==> OneSided(usages)
  {
    var lost := if Billed(usages) < Excess(usages) then Billed(usages) else Excess(usages);
    SumWeightsForm(price, usages);
    BilledOrExcess(usages);
    Distribute(Billed(usages) - lost, lost, price.input);
    assert lost * price.input >= 0 && (lost * price.input == 0 <==> lost == 0);
  }

  // --- Rounding ---

  lemma FloorAdds(a: int, b: int)
    ensures a / MILLION + b / MILLION <= (a + b) / MILLION <= a / MILLION + b / MILLION + 1
  {
  }

  lemma {:induction false} FloorsAdd(provider: string, model: string, usages: seq<TokenUsage>)
    requires usages != [] && (provider, model) in PRICES
    ensures var whole := SumWeights(PRICES[(provider, model)], usages) / MILLION;
            SumCosts(provider, model, usages) <= whole <= SumCosts(provider, model, usages) + |usages| - 1
    decreases |usages|
  {
    var price, rest := PRICES[(provider, model)], usages[1..];
    if rest == [] {
      assert SumWeights(price, rest) == 0 && SumCosts(provider, model, rest) == 0;
    } else {
      FloorsAdd(provider, model, rest);
      FloorAdds(Weight(price, usages[0]), SumWeights(price, rest));
    }
  }

  lemma {:induction false} UnknownCostsNothing(provider: string, model: string, usages: seq<TokenUsage>)
    requires (provider, model) !in PRICES
    ensures SumCosts(provider, model, usages) == 0
    decreases |usages|
  {
    if usages != [] {
      UnknownCostsNothing(provider, model, usages[1..]);
    }
  }

  lemma PricesArePositive(key: (string, string))
    requires key in PRICES
    ensures PRICES[key].input > 0
  {
  }

  /** Rounding each call down never charges more than the summed usage, and loses under a micro-euro per call. */
  lemma RoundingDrift(provider: string, model: string, usages: seq<TokenUsage>)
    requires usages != [] && OneSided(usages)
    ensures Bounded(provider, model, usages)
  {
    if (provider, model) in PRICES {
      PricesArePositive((provider, model));
      FloorsAdd(provider, model, usages);
      WeightsAddIffOneSided(PRICES[(provider, model)], usages);
    } else {
      UnknownCostsNothing(provider, model, usages);
    }
  }

  // --- The exact condition ---

  /** The same calls with every count multiplied. */
  function Scaled(usages: seq<TokenUsage>, k: nat): seq<TokenUsage> {
    if usages == [] then []
    else [TokenUsage(k * usages[0].input, k * usages[0].output, k * usages[0].cached)] + Scaled(usages[1..], k)
  }

  lemma WeightScales(price: ModelPrice, u: TokenUsage)
    ensures Weight(price, TokenUsage(MILLION * u.input, MILLION * u.output, MILLION * u.cached))
            == MILLION * Weight(price, u)
  {
    var billed := Max(u.input - u.cached, 0);
    assert (MILLION * billed) * price.input == MILLION * (billed * price.input);
    assert (MILLION * u.cached) * price.cached == MILLION * (u.cached * price.cached);
    assert (MILLION * u.output) * price.output == MILLION * (u.output * price.output);
    assert Max(MILLION * u.input - MILLION * u.cached, 0) == MILLION * billed;
  }

  /** At the scale of the division nothing is rounded. */
  lemma {:induction false} ScaledCosts(provider: string, model: string, usages: seq<TokenUsage>)
    requires (provider, model) in PRICES
    ensures var price, scaled := PRICES[(provider, model)], Scaled(usages, MILLION);
            && SumCosts(provider, model, scaled) == SumWeights(price, usages)
            && SumUsage(scaled) == TokenUsage(MILLION * SumUsage(usages).input, MILLION * SumUsage(usages).output,
                                              MILLION * SumUsage(usages).cached)
    decreases |usages|
  {
    if usages != [] {
      ScaledCosts(provider, model, usages[1..]);
      WeightScales(PRICES[(provider, model)], usages[0]);
      assert Scaled(usages, MILLION)[1..] == Scaled(usages[1..], MILLION);
    }
  }

  lemma ScaleKeepsOrder(a: int, b: int, k: nat)
    requires a <= b
    ensures k * a <= k * b
  {
  }

  lemma ScaledAt(usages: seq<TokenUsage>, k: nat)
    ensures |Scaled(usages, k)| == |usages|
    ensures forall i :: 0 <= i < |usages| ==>
              Scaled(usages, k)[i] == TokenUsage(k * usages[i].input, k * usages[i].output, k * usages[i].cached)
  {
  }

  lemma ScaledOneSided(usages: seq<TokenUsage>, k: nat)
    requires OneSided(usages)
    ensures OneSided(Scaled(usages, k)) && |Scaled(usages, k)| == |usages|
  {
    ScaledAt(usages, k);
    if forall u :: u in usages ==> u.cached <= u.input {
      forall i | 0 <= i < |usages|
        ensures Scaled(usages, k)[i].cached <= Scaled(usages, k)[i].input
      {
        ScaleKeepsOrder(usages[i].cached, usages[i].input, k);
      }
    } else {
      forall i | 0 <= i < |usages|
        ensures Scaled(usages, k)[i].cached >= Scaled(usages, k)[i].input
      {
        ScaleKeepsOrder(usages[i].input, usages[i].cached, k);
      }
    }
  }

  /**
   The bound holds of the calls at every scale exactly when they are one-sided, or the model has no
   price. Calls with more cached than input tokens are billed no negative input, so beside calls
   with less they cost more than their sum.
   */
  lemma DriftBoundedIffOneSided(provider: string, model: string, usages: seq<TokenUsage>)
    requires usages != []
    ensures (forall k :: Bounded(provider, model, Scaled(usages, k)))
            <==> (provider, model) !in PRICES || OneSided(usages)
  {
    if (provider, model) !in PRICES || OneSided(usages) {
      forall k
        ensures Bounded(provider, model, Scaled(usages, k))
      {
        ScaledAt(usages, k);
        if (provider, model) in PRICES {
          ScaledOneSided(usages, k);
          RoundingDrift(provider, model, Scaled(usages, k));
        } else {
          UnknownCostsNothing(provider, model, Scaled(usages, k));
        }
      }
    } else {
      var price := PRICES[(provider, model)];
      PricesArePositive((provider, model));
      WeightsAddIffOneSided(price, usages);
      ScaledCosts(provider, model, usages);
      WeightScales(price, SumUsage(usages));
      ScaledAt(usages, MILLION);
      assert !Bounded(provider, model, Scaled(usages, MILLION));
    }
  }
}
