/** Cost calculation: the longest-prefix lookup of model prices and the price of a
    request, over real arithmetic. */
module Meter {
  import opened Common

  datatype ModelPricing = ModelPricing(inputPerMTok: real, outputPerMTok: real)

  type Table = map<string, ModelPricing>

  /** `key` is a non-empty table key that `model` starts with. */
  predicate Candidate(table: Table, model: string, key: string) {
    key in table && key != "" && key <= model
  }

  ghost predicate IsLongest(table: Table, model: string, key: string) {
    Candidate(table, model, key) && forall k :: Candidate(table, model, k) ==> |k| <= |key|
  }

  /** Reference lookup: try the prefixes of the model from length `n` down to 1. */
  function LongestPrefix(table: Table, model: string, n: nat): (r: Option<string>)
    requires n <= |model|
    ensures r.Some? ==> r.value in table && r.value <= model
  {
    if n == 0 then None
    else if model[..n] in table then Some(model[..n])
    else LongestPrefix(table, model, n - 1)
  }

  /** The key whose price applies to `model`, if any. */
  function PricingKey(table: Table, model: string): Option<string> {
    if model in table then Some(model) else LongestPrefix(table, model, |model|)
  }

  /** The reference lookup finds the longest candidate, and nothing iff there is none. */
  lemma {:induction false} LongestPrefixMeaning(table: Table, model: string, n: nat)
    requires n <= |model|
    requires forall k :: Candidate(table, model, k) ==> |k| <= n
    ensures LongestPrefix(table, model, n).Some? ==> IsLongest(table, model, LongestPrefix(table, model, n).value)
    ensures LongestPrefix(table, model, n).None? ==> forall k :: !Candidate(table, model, k)
  {
    if n != 0 && model[..n] !in table {
      forall k | Candidate(table, model, k)
        ensures |k| <= n - 1
      {
        assert k == model[..|k|];
      }
      LongestPrefixMeaning(table, model, n - 1);
    }
  }

  lemma LongestUnique(table: Table, model: string, a: string, b: string)
    requires IsLongest(table, model, a) && IsLongest(table, model, b)
    ensures a == b
  {
  }

  /** For a non-empty model the exact-match shortcut is the longest-prefix rule. */
  lemma PricingKeyIsLongest(table: Table, model: string)
    requires model != ""
    ensures PricingKey(table, model).Some? <==> exists k :: Candidate(table, model, k)
    ensures PricingKey(table, model).Some? ==> IsLongest(table, model, PricingKey(table, model).value)
    ensures PricingKey(table, model) == LongestPrefix(table, model, |model|)
  {
    LongestPrefixMeaning(table, model, |model|);
    if model in table {
      assert Candidate(table, model, model);
      assert model[..|model|] == model;
    }
  }

  /** The source's search over the table in whatever order the map is iterated. */
  method FindPricing(table: Table, model: string) returns (found: Option<ModelPricing>)
    ensures found.Some? <==> PricingKey(table, model).Some?
    ensures found.Some? ==>
              PricingKey(table, model).value in table && found.value == table[PricingKey(table, model).value]
  {
    if model in table {
      return Some(table[model]);
    }
    var bestKey, bestPricing := "", ModelPricing(0.0, 0.0);
    var todo := table.Keys;
    while todo != {}
      invariant todo <= table.Keys
      invariant bestKey != "" ==> Candidate(table, model, bestKey) && bestPricing == table[bestKey]
      invariant forall k :: Candidate(table, model, k) && k !in todo ==> |k| <= |bestKey|
    {
      var key :| key in todo;
      if key <= model && |key| > |bestKey| {
        bestKey, bestPricing := key, table[key];
      }
      todo := todo - {key};
    }
    LongestPrefixMeaning(table, model, |model|);
    if bestKey != "" {
      LongestUnique(table, model, bestKey, PricingKey(table, model).value);
      return Some(bestPricing);
    }
    found := None;
  }

  function Price(table: Table, model: string): ModelPricing {
    var k := PricingKey(table, model);
    if k.Some? then table[k.value] else ModelPricing(0.0, 0.0)
  }

  function TokenCost(tokens: int, perMTok: real): real {
    tokens as real / 1000000.0 * perMTok
  }

  /** Cost in USD; an unknown model costs nothing. */
  function Calculate(table: Table, model: string, inputTokens: int, outputTokens: int): real {
    var p := Price(table, model);
    TokenCost(inputTokens, p.inputPerMTok) + TokenCost(outputTokens, p.outputPerMTok)
  }

  ghost predicate NonnegativePrices(table: Table) {
    forall k :: k in table ==> table[k].inputPerMTok >= 0.0 && table[k].outputPerMTok >= 0.0
  }

  lemma TokenCostSign(a: int, p: real)
    requires a >= 0 && p >= 0.0
    ensures TokenCost(a, p) >= 0.0
  {
  }

  lemma TokenCostMonotone(a: int, b: int, p: real, q: real)
    requires 0 <= a <= b && 0.0 <= p <= q
    ensures TokenCost(a, p) <= TokenCost(b, q)
  {
  }

  /** At a positive price some number of tokens costs at least any given amount. */
  lemma TokensWorth(p: real, amount: real) returns (n: nat)
    requires p > 0.0 && amount >= 0.0
    ensures TokenCost(n, p) >= amount
  {
    var q := amount / p;
    assert q * p == amount && q >= 0.0;
    n := (q * 1000000.0).Floor + 1;
    var x := n as real / 1000000.0;
    assert x >= q;
    assert x * p - q * p == (x - q) * p;
    assert (x - q) * p >= 0.0;
  }

  lemma PriceNonnegative(table: Table, model: string)
    requires NonnegativePrices(table)
    ensures Price(table, model).inputPerMTok >= 0.0 && Price(table, model).outputPerMTok >= 0.0
  {
  }

  /** A million tokens cost the price of the longest table key that the model starts with,
      or nothing if there is none; with additivity this fixes every cost. */
  lemma CalculateUnit(table: Table, model: string, key: string)
    requires model != ""
    ensures IsLongest(table, model, key) ==>
              && Calculate(table, model, 1000000, 0) == table[key].inputPerMTok
              && Calculate(table, model, 0, 1000000) == table[key].outputPerMTok
    ensures (forall k :: !Candidate(table, model, k)) ==>
              Calculate(table, model, 1000000, 0) == Calculate(table, model, 0, 1000000) == 0.0
  {
    PricingKeyIsLongest(table, model);
    if IsLongest(table, model, key) {
      LongestUnique(table, model, key, PricingKey(table, model).value);
    }
  }

  /** The cost of two usages together is the sum of their costs. */
  lemma CalculateAdditive(table: Table, model: string, i1: int, o1: int, i2: int, o2: int)
    ensures Calculate(table, model, i1 + i2, o1 + o2)
            == Calculate(table, model, i1, o1) + Calculate(table, model, i2, o2)
  {
  }

  /** More tokens never cost less. */
  lemma CalculateMonotone(table: Table, model: string, i1: int, o1: int, i2: int, o2: int)
    requires NonnegativePrices(table) && i1 <= i2 && o1 <= o2
    ensures Calculate(table, model, i1, o1) <= Calculate(table, model, i2, o2)
  {
  }
}
