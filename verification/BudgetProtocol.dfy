/**
 Concurrent requests of one tenant against the cost gate, with Redis reservations and the usage ledger.

 A check is not atomic: it reads the committed spend, then walks the reservation keys with SCAN, then
 decides.  Reserving is a later step, and a finished request releases its reservation before its
 database transaction commits.  Every Redis or database round trip is one step; steps interleave freely.
 */
module BudgetProtocol {
  import opened CostGate
  import opened Options

  /** `counted` and `seen` record what a check has read; no guard depends on them. */
  datatype Phase =
    | Arrived
    | Checking(spend: real, total: real, counted: set<nat>, seen: set<nat>)
    | Admitted                  // gate passed, reservation not attempted yet
    | Generating
    | Booked                    // usage rows written in the open transaction
    | Released                  // reservation dropped, transaction still open
    | Committed
    | Unwinding                 // exception path, before release
    | Unwound                   // exception path, after release
    | Failed                    // rolled back
    | Denied

  datatype Request = Request(estimate: real, actual: real, model: string, phase: Phase)

  /** `base` is the spend committed before the run, `ungated` what abstaining requests have booked since. */
  datatype State = State(base: real, ungated: real, redis: map<nat, real>, requests: seq<Request>)

  datatype Event =
    | Arrive(estimate: real, actual: real, model: string)
    | ReadSpend(i: nat)
    | ReadKey(i: nat, key: nat)        // one value returned by SCAN + MGET
    | ScanError(i: nat)                // total_reserved falls back to zero
    | Decide(i: nat)
    | Reserve(i: nat)
    | ReserveFails(i: nat)
    | Book(i: nat)
    | Release(i: nat)
    | ReleaseFails(i: nat)
    | Commit(i: nat)
    | Raise(i: nat)
    | Rollback(i: nat)
    | Expire(key: nat)
    | Abstain(cost: real)              // embedding cost booked without passing the gate

  // ---------------------------------------------------------------- sums over requests

  function CommittedCost(r: Request): real {
    if r.phase.Committed? then r.actual else 0.0
  }

  predicate Outstanding(p: Phase) {
    p.Admitted? || p.Generating? || p.Booked? || p.Released? || p.Unwinding? || p.Unwound?
  }

  function Exposed(r: Request): real {
    if r.phase.Committed? then r.actual else if Outstanding(r.phase) then r.estimate else 0.0
  }

  function SumCommitted(rs: seq<Request>): real {
    if rs == [] then 0.0 else SumCommitted(rs[..|rs| - 1]) + CommittedCost(rs[|rs| - 1])
  }

  function SumExposed(rs: seq<Request>): real {
    if rs == [] then 0.0 else SumExposed(rs[..|rs| - 1]) + Exposed(rs[|rs| - 1])
  }

  function CommittedSpend(s: State): real {
    s.base + s.ungated + SumCommitted(s.requests)
  }

  /** Committed spend plus the estimates of every admitted request that has not settled. */
  function Exposure(s: State): real {
    s.base + s.ungated + SumExposed(s.requests)
  }

  function CommittedIds(rs: seq<Request>): set<nat> {
    set i: nat | i < |rs| && rs[i].phase.Committed?
  }

  // ---------------------------------------------------------------- steps

  predicate Has(s: State, i: nat) { i < |s.requests| }

  predicate Enabled(s: State, e: Event) {
    match e
    case Arrive(estimate, actual, _) => estimate >= 0.0 && actual >= 0.0
    case ReadSpend(i) => Has(s, i) && s.requests[i].phase.Arrived?
    case ReadKey(i, key) => Has(s, i) && s.requests[i].phase.Checking? && key in s.redis
    case ScanError(i) => Has(s, i) && s.requests[i].phase.Checking?
    case Decide(i) => Has(s, i) && s.requests[i].phase.Checking?
    case Reserve(i) => Has(s, i) && s.requests[i].phase.Admitted?
    case ReserveFails(i) => Has(s, i) && s.requests[i].phase.Admitted?
    case Book(i) => Has(s, i) && s.requests[i].phase.Generating?
    case Release(i) => Has(s, i) && (s.requests[i].phase.Booked? || s.requests[i].phase.Unwinding?)
    case ReleaseFails(i) => Has(s, i) && (s.requests[i].phase.Booked? || s.requests[i].phase.Unwinding?)
    case Commit(i) => Has(s, i) && s.requests[i].phase.Released?
    case Raise(i) => Has(s, i) && (s.requests[i].phase.Generating? || s.requests[i].phase.Booked?)
    case Rollback(i) => Has(s, i) && (s.requests[i].phase.Unwound? || s.requests[i].phase.Released?)
    case Expire(key) => key in s.redis
    case Abstain(cost) => cost >= 0.0
  }

  function To(s: State, i: nat, p: Phase): State
    requires Has(s, i)
  {
    s.(requests := s.requests[i := s.requests[i].(phase := p)])
  }

  function Apply(s: State, e: Event, budget: Budget): State
    requires Enabled(s, e)
  {
    match e
    case Arrive(estimate, actual, model) => s.(requests := s.requests + [Request(estimate, actual, model, Arrived)])
    case ReadSpend(i) => To(s, i, Checking(CommittedSpend(s), 0.0, CommittedIds(s.requests), {}))
    case ReadKey(i, key) =>
      var p := s.requests[i].phase;
      To(s, i, p.(total := p.total + s.redis[key], seen := p.seen + {key}))
    case ScanError(i) => To(s, i, s.requests[i].phase.(total := 0.0, seen := {}))
    case Decide(i) =>
      var r := s.requests[i];
      var action := CheckBudget(Some(budget), r.phase.spend, r.phase.total, r.estimate, r.model);
      To(s, i, if EnforceOrRaise(action, r.model).Some? then Admitted else Denied)
    case Reserve(i) =>
      var s' := To(s, i, Generating);
      if s.requests[i].estimate > 0.0 then s'.(redis := s.redis[i := s.requests[i].estimate]) else s'
    case ReserveFails(i) => To(s, i, Generating)
    case Book(i) => To(s, i, Booked)
    case Release(i) => To(s, i, if s.requests[i].phase.Booked? then Released else Unwound).(redis := s.redis - {i})
    case ReleaseFails(i) => To(s, i, if s.requests[i].phase.Booked? then Released else Unwound)
    case Commit(i) => To(s, i, Committed)
    case Raise(i) => To(s, i, Unwinding)
    case Rollback(i) => To(s, i, Failed)
    case Expire(key) => s.(redis := s.redis - {key})
    case Abstain(cost) => s.(ungated := s.ungated + cost)
  }

  // ---------------------------------------------------------------- behaviours and hypotheses

  predicate Initial(s: State) {
    s.requests == [] && s.redis == map[] && s.ungated == 0.0
  }

  ghost predicate Behaviour(states: seq<State>, events: seq<Event>, budget: Budget) {
    && |states| == |events| + 1
    && Initial(states[0])
    && forall k | 0 <= k < |events| :: Enabled(states[k], events[k]) && states[k + 1] == Apply(states[k], events[k], budget)
  }

  /** Costs money, passed the gate, and this check has read it neither as usage nor as a reservation. */
  predicate BlindTo(r: Request, j: nat, check: Phase)
    requires check.Checking?
  {
    r.estimate > 0.0 && (Outstanding(r.phase) || r.phase.Committed?) && j !in check.counted && j !in check.seen
  }

  function BlindCount(rs: seq<Request>, check: Phase): nat
    requires check.Checking?
  {
    if rs == [] then 0
    else BlindCount(rs[..|rs| - 1], check) + if BlindTo(rs[|rs| - 1], |rs| - 1, check) then 1 else 0
  }

  /** Actual cost within the estimate, estimates within `ceiling`. */
  predicate HonestEstimate(e: Event, ceiling: real) {
    e.Arrive? ==> e.actual <= e.estimate <= ceiling
  }

  predicate BlindAtMost(s: State, e: Event, blind: nat) {
    e.Decide? && Enabled(s, e) ==> BlindCount(s.requests, s.requests[e.i].phase) <= blind
  }

  ghost predicate Hypotheses(states: seq<State>, events: seq<Event>, ceiling: real, blind: nat)
    requires |states| == |events| + 1
  {
    forall k | 0 <= k < |events| :: HonestEstimate(events[k], ceiling) && BlindAtMost(states[k], events[k], blind)
  }

  // ---------------------------------------------------------------- the invariant

  function CountedCost(rs: seq<Request>, counted: set<nat>): real {
    if rs == [] then 0.0
    else CountedCost(rs[..|rs| - 1], counted) + if |rs| - 1 in counted then rs[|rs| - 1].actual else 0.0
  }

  function SeenEstimates(rs: seq<Request>, seen: set<nat>): real {
    if rs == [] then 0.0
    else SeenEstimates(rs[..|rs| - 1], seen) + if |rs| - 1 in seen then rs[|rs| - 1].estimate else 0.0
  }

  predicate CheckOk(s: State, p: Phase)
    requires p.Checking?
  {
    && p.spend >= s.base + CountedCost(s.requests, p.counted)
    && p.total >= SeenEstimates(s.requests, p.seen)
    && (forall j | j in p.counted :: j < |s.requests| && s.requests[j].phase.Committed?)
    && (forall j | j in p.seen :: j < |s.requests|)
  }

  ghost predicate Inv(s: State, ceiling: real) {
    && s.ungated >= 0.0
    && (forall i | 0 <= i < |s.requests| ::
          0.0 <= s.requests[i].actual <= s.requests[i].estimate <= ceiling)
    && (forall key | key in s.redis :: key < |s.requests| && s.redis[key] == s.requests[key].estimate)
    && (forall i | 0 <= i < |s.requests| && s.requests[i].phase.Checking? :: CheckOk(s, s.requests[i].phase))
  }

  /** Requests with equal estimates and actual costs; only phases may differ. */
  predicate SameCosts(rs: seq<Request>, rs': seq<Request>) {
    |rs| == |rs'| && forall i | 0 <= i < |rs| :: rs[i].actual == rs'[i].actual && rs[i].estimate == rs'[i].estimate
  }

  lemma {:induction false} ReadingsKeep(rs: seq<Request>, rs': seq<Request>, counted: set<nat>, seen: set<nat>)
    requires SameCosts(rs, rs')
    ensures CountedCost(rs, counted) == CountedCost(rs', counted)
    ensures SeenEstimates(rs, seen) == SeenEstimates(rs', seen)
  {
    if rs != [] {
      ReadingsKeep(rs[..|rs| - 1], rs'[..|rs| - 1], counted, seen);
    }
  }

  /** A request that arrived after the reads has not been read. */
  lemma ReadingsIgnoreNew(rs: seq<Request>, r: Request, counted: set<nat>, seen: set<nat>)
    ensures |rs| !in counted ==> CountedCost(rs + [r], counted) == CountedCost(rs, counted)
    ensures |rs| !in seen ==> SeenEstimates(rs + [r], seen) == SeenEstimates(rs, seen)
  {
    assert (rs + [r])[..|rs|] == rs;
  }

  lemma {:induction false} SeeOneMore(rs: seq<Request>, seen: set<nat>, key: nat)
    requires forall i | 0 <= i < |rs| :: rs[i].estimate >= 0.0
    ensures SeenEstimates(rs, seen + {key}) <= SeenEstimates(rs, seen) + if key < |rs| then rs[key].estimate else 0.0
  {
    if rs != [] {
      SeeOneMore(rs[..|rs| - 1], seen, key);
    }
  }

  lemma {:induction false} SeenNothing(rs: seq<Request>)
    ensures SeenEstimates(rs, {}) == 0.0
  {
    if rs != [] { SeenNothing(rs[..|rs| - 1]); }
  }

  lemma {:induction false} CountCommitted(rs: seq<Request>, counted: set<nat>)
    requires forall i | 0 <= i < |rs| :: i in counted <==> rs[i].phase.Committed?
    ensures CountedCost(rs, counted) == SumCommitted(rs)
  {
    if rs != [] { CountCommitted(rs[..|rs| - 1], counted); }
  }

  lemma {:induction false} SumExposedUpdate(rs: seq<Request>, i: nat, r: Request)
    requires i < |rs|
    ensures SumExposed(rs[i := r]) == SumExposed(rs) - Exposed(rs[i]) + Exposed(r)
  {
    var n := |rs| - 1;
    if i == n {
      assert rs[i := r][..n] == rs[..n];
    } else {
      assert rs[i := r][..n] == rs[..n][i := r];
      SumExposedUpdate(rs[..n], i, r);
    }
  }

  /** What one request exposes was counted, or seen, or the check is blind to it. */
  lemma ExposedByVisibility(r: Request, j: nat, check: Phase, ceiling: real)
    requires check.Checking? && 0.0 <= r.actual <= r.estimate <= ceiling
    requires j in check.counted ==> r.phase.Committed?
    ensures Exposed(r) <= (if j in check.counted then r.actual else 0.0) + (if j in check.seen then r.estimate else 0.0)
                          + (if BlindTo(r, j, check) then ceiling else 0.0)
  {}

  /** `ceiling` once per request the check is blind to. */
  function BlindAllowance(rs: seq<Request>, check: Phase, ceiling: real): real
    requires check.Checking?
  {
    if rs == [] then 0.0
    else BlindAllowance(rs[..|rs| - 1], check, ceiling) + if BlindTo(rs[|rs| - 1], |rs| - 1, check) then ceiling else 0.0
  }

  lemma {:induction false} AllowanceIsCount(rs: seq<Request>, check: Phase, ceiling: real)
    requires check.Checking?
    ensures BlindAllowance(rs, check, ceiling) == BlindCount(rs, check) as real * ceiling
  {
    if rs != [] { AllowanceIsCount(rs[..|rs| - 1], check, ceiling); }
  }

  /** What is exposed was counted, or seen, or is one of the blind ones. */
  lemma {:induction false} ExposureByVisibility(rs: seq<Request>, check: Phase, ceiling: real)
    requires check.Checking?
    requires forall i | 0 <= i < |rs| :: 0.0 <= rs[i].actual <= rs[i].estimate <= ceiling
    requires forall i | 0 <= i < |rs| && i in check.counted :: rs[i].phase.Committed?
    ensures SumExposed(rs) <= CountedCost(rs, check.counted) + SeenEstimates(rs, check.seen)
                              + BlindAllowance(rs, check, ceiling)
  {
    if rs != [] {
      var n := |rs| - 1;
      ExposureByVisibility(rs[..n], check, ceiling);
      ExposedByVisibility(rs[n], n, check, ceiling);
    }
  }

  /** A check whose own step this is not keeps its readings. */
  lemma CheckStays(s: State, s': State, p: Phase)
    requires p.Checking? && CheckOk(s, p)
    requires s'.base == s.base && SameCosts(s.requests, s'.requests)
    requires forall j | 0 <= j < |s.requests| && s.requests[j].phase.Committed? :: s'.requests[j].phase.Committed?
    ensures CheckOk(s', p)
  {
    ReadingsKeep(s.requests, s'.requests, p.counted, p.seen);
  }

  lemma CheckStaysOnArrival(s: State, r: Request, p: Phase)
    requires p.Checking? && CheckOk(s, p)
    ensures CheckOk(s.(requests := s.requests + [r]), p)
  {
    ReadingsIgnoreNew(s.requests, r, p.counted, p.seen);
  }

  lemma CheckStarts(s: State)
    requires s.ungated >= 0.0
    ensures CheckOk(s, Checking(CommittedSpend(s), 0.0, CommittedIds(s.requests), {}))
  {
    SeenNothing(s.requests);
    CountCommitted(s.requests, CommittedIds(s.requests));
  }

  lemma CheckReads(s: State, p: Phase, key: nat, ceiling: real)
    requires Inv(s, ceiling) && p.Checking? && CheckOk(s, p) && key in s.redis
    ensures CheckOk(s, p.(total := p.total + s.redis[key], seen := p.seen + {key}))
  {
    SeeOneMore(s.requests, p.seen, key);
  }

  /** What a check in progress has read stays below what it adds up, whatever happens next. */
  lemma CheckSurvives(s: State, e: Event, budget: Budget, ceiling: real, i: nat)
    requires Inv(s, ceiling) && Enabled(s, e)
    requires i < |Apply(s, e, budget).requests| && Apply(s, e, budget).requests[i].phase.Checking?
    ensures CheckOk(Apply(s, e, budget), Apply(s, e, budget).requests[i].phase)
  {
    hide CheckBudget, EnforceOrRaise, CountedCost, SeenEstimates, SumCommitted;
    var s' := Apply(s, e, budget);
    var p := s'.requests[i].phase;
    if e.Arrive? {
      assert CheckOk(s, s.requests[i].phase);
      CheckStaysOnArrival(s, s'.requests[|s.requests|], p);
    } else {
      if e.ReadSpend? && e.i == i {
        CheckStarts(s);
      } else if e.ReadKey? && e.i == i {
        CheckReads(s, s.requests[i].phase, e.key, ceiling);
      } else if e.ScanError? && e.i == i {
        assert CheckOk(s, s.requests[i].phase);
        SeenNothing(s.requests);
      } else {
        assert CheckOk(s, s.requests[i].phase);
      }
      CheckStays(s, s', p);
    }
  }

  lemma InvStep(s: State, e: Event, budget: Budget, ceiling: real)
    requires Inv(s, ceiling) && Enabled(s, e) && HonestEstimate(e, ceiling)
    ensures Inv(Apply(s, e, budget), ceiling)
  {
    var s' := Apply(s, e, budget);
    forall i | 0 <= i < |s'.requests| && s'.requests[i].phase.Checking? ensures CheckOk(s', s'.requests[i].phase) {
      CheckSurvives(s, e, budget, ceiling, i);
    }
  }

  // ---------------------------------------------------------------- the bound

  /** Either still below the starting exposure, or strictly under the cap. */
  predicate Bounded(s: State, start: real, cap: real) {
    || Exposure(s) - s.ungated <= start
    || Exposure(s) - s.ungated < cap
  }

  function Cap(hard: real, ceiling: real, blind: nat): real {
    hard + blind as real * ceiling
  }

  lemma Admission(s: State, i: nat, hard: real, ceiling: real, blind: nat)
    requires Inv(s, ceiling) && ceiling >= 0.0
    requires Enabled(s, Decide(i)) && BlindAtMost(s, Decide(i), blind)
    requires s.requests[i].phase.spend + s.requests[i].phase.total + s.requests[i].estimate < hard
    ensures Exposure(s) + s.requests[i].estimate < Cap(hard, ceiling, blind) + s.ungated
  {
    hide BlindCount, BlindAllowance, CountedCost, SeenEstimates, SumExposed;
    var check := s.requests[i].phase;
    assert CheckOk(s, check);
    ExposureByVisibility(s.requests, check, ceiling);
    AllowanceIsCount(s.requests, check, ceiling);
    AllowanceGrows(BlindCount(s.requests, check), blind, ceiling);
  }

  lemma AllowanceGrows(a: nat, b: nat, ceiling: real)
    ensures a <= b && ceiling >= 0.0 ==> a as real * ceiling <= b as real * ceiling
  {}

  /** Apart from decisions, a step of one request never raises what it exposes. */
  lemma SettlingOnly(s: State, e: Event, budget: Budget, ceiling: real)
    requires Inv(s, ceiling) && Enabled(s, e)
    requires !e.Arrive? && !e.Expire? && !e.Abstain? && !e.Decide?
    ensures Exposure(Apply(s, e, budget)) <= Exposure(s) && Apply(s, e, budget).ungated == s.ungated
  {
    var r' := Apply(s, e, budget).requests[e.i];
    assert Exposed(r') <= Exposed(s.requests[e.i]);
    SumExposedUpdate(s.requests, e.i, r');
  }

  lemma BoundStep(s: State, e: Event, budget: Budget, start: real, ceiling: real, blind: nat)
    requires Inv(s, ceiling) && ceiling >= 0.0 && Enabled(s, e) && BlindAtMost(s, e, blind)
    requires Bounded(s, start, Cap(budget.HardLimit(), ceiling, blind))
    ensures Bounded(Apply(s, e, budget), start, Cap(budget.HardLimit(), ceiling, blind))
  {
    var s' := Apply(s, e, budget);
    if e.Arrive? {
      assert s'.requests[..|s.requests|] == s.requests;
    } else if e.Decide? {
      SumExposedUpdate(s.requests, e.i, s'.requests[e.i]);
      if s'.requests[e.i].phase.Admitted? {
        var r := s.requests[e.i];
        AdmittedIffUnderHardCap(Some(budget), r.phase.spend, r.phase.total, r.estimate, r.model);
        Admission(s, e.i, budget.HardLimit(), ceiling, blind);
      }
    } else if !e.Expire? && !e.Abstain? {
      SettlingOnly(s, e, budget, ceiling);
    }
  }

  lemma {:induction false} InvReached(states: seq<State>, events: seq<Event>, budget: Budget, ceiling: real, blind: nat, k: nat)
    requires Behaviour(states, events, budget) && Hypotheses(states, events, ceiling, blind)
    requires ceiling >= 0.0 && k < |states|
    ensures Inv(states[k], ceiling) && Bounded(states[k], states[0].base, Cap(budget.HardLimit(), ceiling, blind))
  {
    if k > 0 {
      InvReached(states, events, budget, ceiling, blind, k - 1);
      assert HonestEstimate(events[k - 1], ceiling) && BlindAtMost(states[k - 1], events[k - 1], blind);
      InvStep(states[k - 1], events[k - 1], budget, ceiling);
      BoundStep(states[k - 1], events[k - 1], budget, states[0].base, ceiling, blind);
    }
  }

  lemma {:induction false} CommittedWithinExposed(rs: seq<Request>)
    requires forall i | 0 <= i < |rs| :: rs[i].estimate >= 0.0
    ensures SumCommitted(rs) <= SumExposed(rs)
  {
    if rs != [] { CommittedWithinExposed(rs[..|rs| - 1]); }
  }

  function Max(a: real, b: real): real { if a < b then b else a }

  /**
   In every interleaving: spend plus outstanding estimates stays within the starting spend or the hard cap
   plus one estimate ceiling per blind request, apart from what abstaining requests booked ungated.
   */
  lemma SpendBound(states: seq<State>, events: seq<Event>, budget: Budget, ceiling: real, blind: nat, k: nat)
    requires Behaviour(states, events, budget) && Hypotheses(states, events, ceiling, blind)
    requires ceiling >= 0.0 && k < |states|
    ensures CommittedSpend(states[k]) <= Exposure(states[k])
    ensures Exposure(states[k])
              <= Max(states[0].base, Cap(budget.HardLimit(), ceiling, blind)) + states[k].ungated
  {
    InvReached(states, events, budget, ceiling, blind, k);
    CommittedWithinExposed(states[k].requests);
  }

  /** The exact hard cap: with no blind request at any decision, a tenant under its cap stays strictly under it. */
  lemma HardCapHolds(states: seq<State>, events: seq<Event>, budget: Budget, ceiling: real, k: nat)
    requires Behaviour(states, events, budget) && Hypotheses(states, events, ceiling, 0)
    requires ceiling >= 0.0 && k < |states|
    requires states[0].base < budget.HardLimit()
    ensures CommittedSpend(states[k]) <= Exposure(states[k])
    ensures Exposure(states[k]) - states[k].ungated < budget.HardLimit()
  {
    InvReached(states, events, budget, ceiling, 0, k);
    CommittedWithinExposed(states[k].requests);
  }

  // ---------------------------------------------------------------- the bound is tight

  ghost predicate Run(states: seq<State>, events: seq<Event>, budget: Budget, ceiling: real, blind: nat) {
    Behaviour(states, events, budget) && Hypotheses(states, events, ceiling, blind)
  }

  lemma Extend(states: seq<State>, events: seq<Event>, budget: Budget, ceiling: real, blind: nat, e: Event)
    returns (states': seq<State>, events': seq<Event>)
    requires Run(states, events, budget, ceiling, blind)
    requires Enabled(states[|states| - 1], e)
    requires HonestEstimate(e, ceiling) && BlindAtMost(states[|states| - 1], e, blind)
    ensures Run(states', events', budget, ceiling, blind)
    ensures states != [] && states'[0] == states[0]
    ensures states' == states + [Apply(states[|states| - 1], e, budget)] && events' == events + [e]
  {
    states', events' := states + [Apply(states[|states| - 1], e, budget)], events + [e];
  }

  /** `n` equal requests past the gate, the first `done` of them committed and the others not yet reserved. */
  function Fleet(base: real, cost: real, n: nat, done: nat): State {
    State(base, 0.0, map[], seq(n, i => Request(cost, cost, "m", if i < done then Committed else Admitted)))
  }

  lemma {:induction false} FleetSpend(rs: seq<Request>, cost: real, done: nat)
    requires done <= |rs|
    requires forall i | 0 <= i < |rs| :: rs[i].actual == cost && (rs[i].phase.Committed? <==> i < done)
    ensures SumCommitted(rs) == done as real * cost
  {
    if rs == [] {
    } else if done == |rs| {
      FleetSpend(rs[..|rs| - 1], cost, done - 1);
      assert done as real * cost == (done - 1) as real * cost + cost;
    } else {
      FleetSpend(rs[..|rs| - 1], cost, done);
    }
  }

  lemma {:induction false} BlindAtMostAll(rs: seq<Request>, check: Phase)
    requires check.Checking?
    ensures BlindCount(rs, check) <= |rs|
  {
    if rs != [] { BlindAtMostAll(rs[..|rs| - 1], check); }
  }

  predicate Passes(budget: Budget, spend: real, cost: real) {
    EnforceOrRaise(CheckBudget(Some(budget), spend, 0.0, cost, "m"), "m").Some?
  }

  /** The fleet and one more request in a given phase. */
  function Joined(base: real, cost: real, m: nat, p: Phase): State {
    State(base, 0.0, map[], Fleet(base, cost, m, 0).requests + [Request(cost, cost, "m", p)])
  }

  lemma NextReads(base: real, cost: real, m: nat, budget: Budget) returns (check: Phase)
    ensures Enabled(Joined(base, cost, m, Arrived), ReadSpend(m)) && check.Checking? && check.spend == base && check.total == 0.0
    ensures Apply(Joined(base, cost, m, Arrived), ReadSpend(m), budget) == Joined(base, cost, m, check)
  {
    var s := Joined(base, cost, m, Arrived);
    FleetSpend(s.requests, cost, 0);
    hide SumCommitted, CommittedIds;
    check := Checking(base, 0.0, CommittedIds(s.requests), {});
    assert Apply(s, ReadSpend(m), budget).requests == Joined(base, cost, m, check).requests;
  }

  lemma NextDecides(base: real, cost: real, m: nat, budget: Budget, check: Phase)
    requires cost > 0.0 && Passes(budget, base, cost) && check.Checking? && check.spend == base && check.total == 0.0
    ensures var s := Joined(base, cost, m, check); Enabled(s, Decide(m)) && BlindAtMost(s, Decide(m), m)
    ensures Apply(Joined(base, cost, m, check), Decide(m), budget) == Fleet(base, cost, m + 1, 0)
  {
    var s := Joined(base, cost, m, check);
    assert s.requests[..m] == Fleet(base, cost, m, 0).requests;
    BlindAtMostAll(s.requests[..m], check);
    hide CheckBudget, EnforceOrRaise;
    assert Apply(s, Decide(m), budget).requests == Fleet(base, cost, m + 1, 0).requests;
  }

  lemma AdmitNext(base: real, cost: real, m: nat, budget: Budget) returns (arrived: State, checking: State)
    requires cost > 0.0 && Passes(budget, base, cost)
    ensures arrived == Apply(Fleet(base, cost, m, 0), Arrive(cost, cost, "m"), budget)
    ensures Enabled(arrived, ReadSpend(m)) && checking == Apply(arrived, ReadSpend(m), budget)
    ensures Enabled(checking, Decide(m)) && BlindAtMost(checking, Decide(m), m)
    ensures Apply(checking, Decide(m), budget) == Fleet(base, cost, m + 1, 0)
  {
    arrived := Joined(base, cost, m, Arrived);
    assert arrived == Apply(Fleet(base, cost, m, 0), Arrive(cost, cost, "m"), budget);
    hide Apply, Enabled, BlindAtMost, Joined, Passes;
    var check := NextReads(base, cost, m, budget);
    NextDecides(base, cost, m, budget, check);
    checking := Joined(base, cost, m, check);
  }

  lemma FleetStarts(base: real, cost: real, blind: nat, budget: Budget) returns (states: seq<State>, events: seq<Event>)
    ensures Run(states, events, budget, cost, blind)
    ensures states[0].base == base && states[|states| - 1] == Fleet(base, cost, 0, 0)
  {
    states, events := [State(base, 0.0, map[], [])], [];
    assert states[0] == Fleet(base, cost, 0, 0);
  }

  lemma BlindMore(s: State, e: Event, blind: nat, more: nat)
    ensures BlindAtMost(s, e, blind) && blind <= more ==> BlindAtMost(s, e, more)
    ensures !e.Decide? ==> BlindAtMost(s, e, more)
  {}

  lemma {:induction false} AdmitFleet(base: real, cost: real, n: nat, blind: nat, budget: Budget)
    returns (states: seq<State>, events: seq<Event>)
    requires n <= blind + 1 && cost > 0.0 && Passes(budget, base, cost)
    ensures Run(states, events, budget, cost, blind)
    ensures states[0].base == base && states[|states| - 1] == Fleet(base, cost, n, 0)
  {
    hide Apply, BlindAtMost, Passes, Fleet, Behaviour, Hypotheses;
    if n == 0 {
      states, events := FleetStarts(base, cost, blind, budget);
    } else {
      states, events := AdmitFleet(base, cost, n - 1, blind, budget);
      var m, arrive := n - 1, Arrive(cost, cost, "m");
      var fleet := Fleet(base, cost, m, 0);
      var arrived, checking := AdmitNext(base, cost, m, budget);
      BlindMore(fleet, arrive, 0, blind);
      BlindMore(arrived, ReadSpend(m), 0, blind);
      BlindMore(checking, Decide(m), m, blind);
      states, events := Extend(states, events, budget, cost, blind, arrive);
      states, events := Extend(states, events, budget, cost, blind, ReadSpend(m));
      states, events := Extend(states, events, budget, cost, blind, Decide(m));
    }
  }

  lemma {:induction false} CommitFleet(base: real, cost: real, n: nat, done: nat, blind: nat, budget: Budget)
    returns (states: seq<State>, events: seq<Event>)
    requires done <= n <= blind + 1 && cost > 0.0 && Passes(budget, base, cost)
    ensures Run(states, events, budget, cost, blind)
    ensures states[0].base == base && states[|states| - 1] == Fleet(base, cost, n, done)
  {
    if done == 0 {
      states, events := AdmitFleet(base, cost, n, blind, budget);
    } else {
      var i := done - 1;
      states, events := CommitFleet(base, cost, n, i, blind, budget);
      states, events := Extend(states, events, budget, cost, blind, Reserve(i));
      states, events := Extend(states, events, budget, cost, blind, Book(i));
      states, events := Extend(states, events, budget, cost, blind, Release(i));
      states, events := Extend(states, events, budget, cost, blind, Commit(i));
      assert states[|states| - 1].redis == map[];
      assert states[|states| - 1] == Fleet(base, cost, n, done);
    }
  }

  /**
   Both terms are real: for every number of blind requests, estimate, margin and ungated amount there is a run
   without an under-estimated request that commits the hard cap plus the allowance, less the margin, and on top
   of that the whole amount that requests which abstain book without passing the gate.
   */
  lemma BoundIsTight(budget: Budget, cost: real, blind: nat, margin: real, ungated: real)
    returns (states: seq<State>, events: seq<Event>)
    requires cost > 0.0 && margin > 0.0 && ungated >= 0.0
    ensures Run(states, events, budget, cost, blind)
    ensures states[0].base < budget.HardLimit()
    ensures states[|states| - 1].ungated == ungated
    ensures CommittedSpend(states[|states| - 1]) == Cap(budget.HardLimit(), cost, blind) - margin + ungated
  {
    var base := budget.HardLimit() - cost - margin;
    AdmittedIffUnderHardCap(Some(budget), base, 0.0, cost, "m");
    states, events := CommitFleet(base, cost, blind + 1, blind + 1, blind, budget);
    FleetSpend(states[|states| - 1].requests, cost, blind + 1);
    assert (blind + 1) as real * cost == blind as real * cost + cost;
    hide SumCommitted;
    states, events := Extend(states, events, budget, cost, blind, Abstain(ungated));
  }

  /** Request `j` has dropped its reservation and its transaction is still open. */
  predicate InCommitWindow(s: State, j: nat) {
    Has(s, j) && s.requests[j].phase.Released? && s.requests[j].estimate > 0.0 && j !in s.redis
  }

  /**
   The blind window between release and commit is inherent: in every behaviour, a check that starts and
   decides while a paid request is in that window is blind to it, however promptly everyone reserves.
   */
  lemma {:induction false} CommitWindowIsBlind(states: seq<State>, events: seq<Event>, budget: Budget,
                                               start: nat, now: nat, i: nat, j: nat)
    requires Behaviour(states, events, budget)
    requires start < now < |states| && events[start] == ReadSpend(i)
    requires forall k | start < k <= now :: Has(states[k], i) && states[k].requests[i].phase.Checking?
    requires forall k | start <= k <= now :: InCommitWindow(states[k], j)
    ensures InCommitWindow(states[now], j) && Has(states[now], i) && states[now].requests[i].phase.Checking?
    ensures BlindTo(states[now].requests[j], j, states[now].requests[i].phase)
  {
    assert states[now] == Apply(states[now - 1], events[now - 1], budget);
    assert InCommitWindow(states[now - 1], j);
    if start + 1 < now {
      CommitWindowIsBlind(states, events, budget, start, now - 1, i, j);
    }
  }
}
