/**
 The budget protocol read off its events alone: what has been spent after any run is the sum of what its events
 booked, and no reservation outlives the request that placed it.
 */
module BudgetLedger {
  import opened CostGate
  import opened BudgetProtocol

  // ---------------------------------------------------------------- what a run's events say

  /** The requests in the order they came. */
  function Arrivals(events: seq<Event>): (arrivals: seq<Event>)
    ensures forall i | 0 <= i < |arrivals| :: arrivals[i].Arrive?
  {
    if events == [] then []
    else Arrivals(events[..|events| - 1]) + if events[|events| - 1].Arrive? then [events[|events| - 1]] else []
  }

  /** What one event adds to the tenant's committed spend. */
  function Charge(arrivals: seq<Event>, e: Event): real
    requires forall i | 0 <= i < |arrivals| :: arrivals[i].Arrive?
  {
    match e
    case Commit(i) => if i < |arrivals| then arrivals[i].actual else 0.0
    case Abstain(cost) => cost
    case _ => 0.0
  }

  /** The sum of all charges: each committed request's actual cost, and each abstention's. */
  function Ledger(events: seq<Event>): real {
    if events == [] then 0.0
    else
      var init := events[..|events| - 1];
      Ledger(init) + Charge(Arrivals(init), events[|events| - 1])
  }

  /** Every request carries what it arrived with. */
  ghost predicate CarriesTerms(rs: seq<Request>, arrivals: seq<Event>) {
    && |rs| == |arrivals|
    && forall i | 0 <= i < |rs| :: arrivals[i] == Arrive(rs[i].estimate, rs[i].actual, rs[i].model)
  }

  lemma {:induction false} SumCommittedUpdate(rs: seq<Request>, i: nat, r: Request)
    requires i < |rs|
    ensures SumCommitted(rs[i := r]) == SumCommitted(rs) - CommittedCost(rs[i]) + CommittedCost(r)
  {
    hide CommittedCost;
    var n := |rs| - 1;
    if i == n {
      assert rs[i := r][..n] == rs[..n];
    } else {
      assert rs[i := r][..n] == rs[..n][i := r];
      SumCommittedUpdate(rs[..n], i, r);
    }
  }

  lemma ChargeStep(s: State, e: Event, budget: Budget, arrivals: seq<Event>)
    requires Enabled(s, e) && CarriesTerms(s.requests, arrivals)
    ensures CommittedSpend(Apply(s, e, budget)) == CommittedSpend(s) + Charge(arrivals, e)
  {
    hide CheckBudget, EnforceOrRaise, SumCommitted, CommittedIds;
    var s' := Apply(s, e, budget);
    match e
    case Arrive(_, _, _) => assert s'.requests[..|s.requests|] == s.requests; LastCounts(s'.requests);
    case Expire(_) =>
    case Abstain(_) =>
    case _ => SumCommittedUpdate(s.requests, e.i, s'.requests[e.i]);
  }

  lemma LastCounts(rs: seq<Request>)
    requires rs != []
    ensures SumCommitted(rs) == SumCommitted(rs[..|rs| - 1]) + CommittedCost(rs[|rs| - 1])
  {}

  lemma TermsStep(s: State, e: Event, budget: Budget, arrivals: seq<Event>)
    requires Enabled(s, e) && CarriesTerms(s.requests, arrivals)
    ensures CarriesTerms(Apply(s, e, budget).requests, arrivals + if e.Arrive? then [e] else [])
  {
    hide CheckBudget, EnforceOrRaise, CommittedSpend, CommittedIds;
  }

  /**
   In every run the committed spend is the spend it began with plus its ledger, and every request still carries
   the terms it arrived with: nothing is booked twice, early, or for a run that did not commit.
   */
  lemma {:induction false} LedgerBalances(states: seq<State>, events: seq<Event>, budget: Budget, k: nat)
    requires Behaviour(states, events, budget) && k < |states|
    ensures CommittedSpend(states[k]) == states[0].base + Ledger(events[..k])
    ensures CarriesTerms(states[k].requests, Arrivals(events[..k]))
  {
    hide CommittedCost;
    if k > 0 {
      LedgerBalances(states, events, budget, k - 1);
      var s, e, init := states[k - 1], events[k - 1], events[..k - 1];
      assert Enabled(s, e) && states[k] == Apply(s, e, budget);
      assert events[..k][..k - 1] == init;
      hide Apply, CarriesTerms, CommittedSpend, Enabled;
      ChargeStep(s, e, budget, Arrivals(init));
      TermsStep(s, e, budget, Arrivals(init));
    }
  }

  /** What a check reads as spend is the ledger at that moment. */
  lemma SpendReadIsTheLedger(states: seq<State>, events: seq<Event>, budget: Budget, k: nat, i: nat)
    requires Behaviour(states, events, budget) && k < |events| && events[k] == ReadSpend(i)
    ensures var check := states[k + 1].requests[i].phase; check.Checking? && check.spend == states[0].base + Ledger(events[..k])
  {
    hide CommittedSpend, CommittedIds;
    LedgerBalances(states, events, budget, k);
    assert Enabled(states[k], events[k]) && states[k + 1] == Apply(states[k], events[k], budget);
  }

  // ---------------------------------------------------------------- what Redis holds

  /** The request reserved a positive estimate, and has not released it or seen it expire since. */
  predicate Placed(events: seq<Event>, key: nat) {
    events != [] &&
    var init := events[..|events| - 1];
    match events[|events| - 1]
    case Reserve(i) => Placed(init, key) || (i == key && i < |Arrivals(init)| && Arrivals(init)[i].estimate > 0.0)
    case Release(i) => Placed(init, key) && i != key
    case Expire(k) => Placed(init, key) && k != key
    case _ => Placed(init, key)
  }

  /** The reservation of a request as its arrival set it. */
  predicate Worth(redis: map<nat, real>, arrivals: seq<Event>, key: nat)
    requires forall i | 0 <= i < |arrivals| :: arrivals[i].Arrive?
  {
    key in redis ==> key < |arrivals| && redis[key] == arrivals[key].estimate
  }

  lemma PlacedStep(s: State, e: Event, budget: Budget, init: seq<Event>, key: nat)
    requires Enabled(s, e) && CarriesTerms(s.requests, Arrivals(init))
    requires (key in s.redis <==> Placed(init, key)) && Worth(s.redis, Arrivals(init), key)
    ensures key in Apply(s, e, budget).redis <==> Placed(init + [e], key)
    ensures Worth(Apply(s, e, budget).redis, Arrivals(init + [e]), key)
  {
    hide CheckBudget, EnforceOrRaise, CommittedSpend, CommittedIds;
    assert (init + [e])[..|init|] == init;
  }

  /** Redis holds exactly the reservations the events placed, each worth its request's estimate. */
  lemma {:induction false} RedisHoldsWhatWasPlaced(states: seq<State>, events: seq<Event>, budget: Budget, k: nat, key: nat)
    requires Behaviour(states, events, budget) && k < |states|
    ensures key in states[k].redis <==> Placed(events[..k], key)
    ensures Worth(states[k].redis, Arrivals(events[..k]), key)
  {
    if k > 0 {
      var s, e := states[k - 1], events[k - 1];
      assert events[..k] == events[..k - 1] + [e];
      RedisHoldsWhatWasPlaced(states, events, budget, k - 1, key);
      LedgerBalances(states, events, budget, k - 1);
      assert Enabled(s, e) && states[k] == Apply(s, e, budget);
      hide Apply, Placed, Worth, Arrivals, CarriesTerms, Enabled;
      PlacedStep(s, e, budget, events[..k - 1], key);
    }
  }

  // ---------------------------------------------------------------- who holds a key

  /** Between its reservation and its release. */
  predicate MayHold(p: Phase) { p.Generating? || p.Booked? || p.Unwinding? }

  predicate Held(s: State, key: nat) {
    Has(s, key) && MayHold(s.requests[key].phase)
  }

  lemma HeldStep(s: State, e: Event, budget: Budget, key: nat)
    requires Enabled(s, e) && (key in s.redis ==> Held(s, key)) && e != ReleaseFails(key)
    ensures key in Apply(s, e, budget).redis ==> Held(Apply(s, e, budget), key)
  {
    hide CheckBudget, EnforceOrRaise, CommittedSpend, CommittedIds;
  }

  /** Unless its release failed, a key in Redis belongs to a request that has reserved and not yet released. */
  lemma {:induction false} KeysAreHeld(states: seq<State>, events: seq<Event>, budget: Budget, k: nat, key: nat)
    requires Behaviour(states, events, budget) && k < |states| && ReleaseFails(key) !in events[..k]
    ensures key in states[k].redis ==> Held(states[k], key)
  {
    if k > 0 {
      var s, e := states[k - 1], events[k - 1];
      assert events[..k] == events[..k - 1] + [e];
      KeysAreHeld(states, events, budget, k - 1, key);
      assert Enabled(s, e) && states[k] == Apply(s, e, budget);
      hide Apply, Held;
      HeldStep(s, e, budget, key);
    }
  }

  predicate AtRest(p: Phase) { p.Committed? || p.Failed? || p.Denied? }

  /** When every request has ended and every release got through, Redis holds nothing of the tenant. */
  lemma RestIsEmpty(states: seq<State>, events: seq<Event>, budget: Budget, k: nat)
    requires Behaviour(states, events, budget) && k < |states|
    requires forall e | e in events[..k] :: !e.ReleaseFails?
    requires forall i | 0 <= i < |states[k].requests| :: AtRest(states[k].requests[i].phase)
    ensures states[k].redis == map[]
  {
    forall key ensures key !in states[k].redis {
      KeysAreHeld(states, events, budget, k, key);
    }
  }
}
