/**
 The per-tenant cost gate: price table, conservative estimate, and the allow / downgrade / deny decision.
 Decimal amounts are modelled as reals.
 */
module CostGate {

  import opened Options

  /** USD per 1,000 tokens. */
  datatype Price = Price(input: real, output: real)

  const PRICES: map<string, Price> := map[
    "ollama/llama3.1:8b" := Price(0.0, 0.0),
    "ollama/nomic-embed-text" := Price(0.0, 0.0),
    "openai/gpt-4o" := Price(0.0050, 0.0150),
    "openai/gpt-4o-mini" := Price(0.00015, 0.0006),
    "openai/text-embedding-3-small" := Price(0.00002, 0.0),
    "anthropic/claude-3-5-sonnet" := Price(0.003, 0.015),
    "anthropic/claude-3-5-haiku" := Price(0.0008, 0.004)
  ]

  const DOWNGRADE_LADDER: map<string, string> := map[
    "openai/gpt-4o" := "openai/gpt-4o-mini",
    "anthropic/claude-3-5-sonnet" := "anthropic/claude-3-5-haiku",
    "ollama/llama3.1:8b" := "ollama/llama3.1:8b"
  ]

  /** Unknown models are priced like the dearest known one. */
  function PriceOf(model: string): Price {
    if model in PRICES then PRICES[model] else Price(0.0050, 0.0150)
  }

  function EstimateCompletionCost(model: string, inputTokens: nat, maxOutputTokens: nat): (usd: real)
    ensures usd >= 0.0
  {
    var p := PriceOf(model);
    assert p.input >= 0.0 && p.output >= 0.0;
    p.input * inputTokens as real / 1000.0 + p.output * maxOutputTokens as real / 1000.0
  }

  /** A tenant's active budget row. A policy entry that is not a string is `None`. */
  datatype Budget = Budget(limit: real, softPct: nat, hardPct: nat, downgradePolicy: map<string, Option<string>>)
  {
    function SoftLimit(): real { limit * softPct as real / 100.0 }
    function HardLimit(): real { limit * hardPct as real / 100.0 }
  }

  datatype Action = Allow | Downgrade(target: string) | Deny

  function ResolveDowngrade(budget: Budget, model: string): Option<string> {
    if model in budget.downgradePolicy && budget.downgradePolicy[model].Some? then budget.downgradePolicy[model]
    else if model in DOWNGRADE_LADDER then Some(DOWNGRADE_LADDER[model])
    else None
  }

  function CheckBudget(budget: Option<Budget>, spend: real, reserved: real, estimate: real, model: string): (action: Action)
  {
    if budget.None? then Allow else
    var projected := spend + reserved + estimate;
    if projected >= budget.value.HardLimit() then Deny
    else if projected >= budget.value.SoftLimit() then
      var target := ResolveDowngrade(budget.value, model);
      if target.Some? && target.value != "" && target.value != model then Downgrade(target.value) else Allow
    else Allow
  }

  /** The model the request runs on, or `None` when the gate raises. */
  function EnforceOrRaise(action: Action, model: string): Option<string> {
    match action
    case Deny => None
    case Downgrade(target) => Some(if target != "" then target else model)
    case Allow => Some(model)
  }

  /** A request passes the gate exactly when no budget is active or its projection stays under the hard cap. */
  lemma AdmittedIffUnderHardCap(budget: Option<Budget>, spend: real, reserved: real, estimate: real, model: string)
    ensures EnforceOrRaise(CheckBudget(budget, spend, reserved, estimate, model), model).Some?
            <==> (budget.Some? ==> spend + reserved + estimate < budget.value.HardLimit())
  {}

  /** Priced per token: additive in both sizes, and a thousand tokens cost the table's price. */
  lemma PricedPerToken(model: string, i: nat, o: nat, i': nat, o': nat)
    ensures EstimateCompletionCost(model, i + i', o + o') == EstimateCompletionCost(model, i, o) + EstimateCompletionCost(model, i', o')
    ensures EstimateCompletionCost(model, 1000, 0) == PriceOf(model).input
    ensures EstimateCompletionCost(model, 0, 1000) == PriceOf(model).output
    ensures model !in PRICES ==> PriceOf(model) == PRICES["openai/gpt-4o"]
  {
    var p := PriceOf(model);
    assert PRICES["openai/gpt-4o"] == Price(0.0050, 0.0150);
    assert p.input * (i + i') as real == p.input * i as real + p.input * i' as real;
    assert p.output * (o + o') as real == p.output * o as real + p.output * o' as real;
  }

  /**
   The three bands of a tenant's utilization, in percent of the limit: denied from the hard threshold on, on another
   model between the soft and the hard threshold where a different target is named, and unchanged otherwise.
   */
  lemma GateBands(budget: Budget, spend: real, reserved: real, estimate: real, model: string)
    ensures var used := 100.0 * (spend + reserved + estimate);
            var runsOn := EnforceOrRaise(CheckBudget(Some(budget), spend, reserved, estimate, model), model);
            && (runsOn == None <==> used >= budget.hardPct as real * budget.limit)
            && (runsOn.Some? && runsOn != Some(model) ==>
                  used >= budget.softPct as real * budget.limit && runsOn == ResolveDowngrade(budget, model))
            && (forall target: string | ResolveDowngrade(budget, model) == Some(target) && target != "" && target != model ::
                  budget.softPct as real * budget.limit <= used < budget.hardPct as real * budget.limit ==> runsOn == Some(target))
  {
    Percent(budget.limit, budget.hardPct);
    Percent(budget.limit, budget.softPct);
    hide ResolveDowngrade;
  }

  lemma Percent(limit: real, pct: nat)
    ensures 100.0 * (limit * pct as real / 100.0) == pct as real * limit
  {}

  /** A tenant's policy wins over the ladder, the ladder stands in where the policy names no model. */
  lemma PolicyBeforeLadder(budget: Budget, model: string, target: string)
    ensures model in budget.downgradePolicy && budget.downgradePolicy[model] == Some(target) ==>
              ResolveDowngrade(budget, model) == Some(target)
    ensures (model !in budget.downgradePolicy || budget.downgradePolicy[model] == None) && model in DOWNGRADE_LADDER ==>
              ResolveDowngrade(budget, model) == Some(DOWNGRADE_LADDER[model])
    ensures (model !in budget.downgradePolicy || budget.downgradePolicy[model] == None) && model !in DOWNGRADE_LADDER ==>
              ResolveDowngrade(budget, model) == None
  {}

  // ---------------------------------------------------------------- is a downgrade cheaper?

  ghost predicate NeverDearer(model: string, other: string) {
    forall i: nat, o: nat :: EstimateCompletionCost(other, i, o) <= EstimateCompletionCost(model, i, o)
  }

  lemma Scale(a: real, b: real, n: nat)
    requires 0.0 <= a <= b
    ensures a * n as real / 1000.0 <= b * n as real / 1000.0
  {
    assert a * n as real <= b * n as real;
  }

  /** For every request size, exactly when both unit prices are no higher. */
  lemma NeverDearerIffPricesBelow(model: string, other: string)
    ensures NeverDearer(model, other)
            <==> PriceOf(other).input <= PriceOf(model).input && PriceOf(other).output <= PriceOf(model).output
  {
    var p, q := PriceOf(model), PriceOf(other);
    if q.input <= p.input && q.output <= p.output {
      forall i: nat, o: nat ensures EstimateCompletionCost(other, i, o) <= EstimateCompletionCost(model, i, o) {
        Scale(q.input, p.input, i);
        Scale(q.output, p.output, o);
      }
    }
    assert EstimateCompletionCost(other, 1000, 0) == q.input && EstimateCompletionCost(model, 1000, 0) == p.input;
    assert EstimateCompletionCost(other, 0, 1000) == q.output && EstimateCompletionCost(model, 0, 1000) == p.output;
  }

  /** Without a tenant override, a downgraded request never costs more than was estimated for it. */
  lemma DefaultDowngradeNeverDearer(budget: Budget, spend: real, reserved: real, estimate: real, model: string)
    requires model !in budget.downgradePolicy || budget.downgradePolicy[model].None?
    requires CheckBudget(Some(budget), spend, reserved, estimate, model).Downgrade?
    ensures NeverDearer(model, CheckBudget(Some(budget), spend, reserved, estimate, model).target)
  {
    NeverDearerIffPricesBelow(model, DOWNGRADE_LADDER[model]);
  }

  /** A tenant policy may name any model, so an override can raise the cost. */
  lemma OverrideCanBeDearer(limit: real)
    requires limit > 0.0
    ensures var budget := Budget(limit, 50, 100, map["ollama/llama3.1:8b" := Some("openai/gpt-4o")]);
            var action := CheckBudget(Some(budget), limit * 0.75, 0.0, 0.0, "ollama/llama3.1:8b");
            action == Downgrade("openai/gpt-4o") && !NeverDearer("ollama/llama3.1:8b", action.target)
  {
    NeverDearerIffPricesBelow("ollama/llama3.1:8b", "openai/gpt-4o");
  }
}
