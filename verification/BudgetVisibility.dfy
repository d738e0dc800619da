/**
 What a budget check sees. A reservation placed before the check and held through it is read, so it counts against
 the cap; what was lost, expired, broken off or released early is not.
 */
module BudgetVisibility {
  import opened CostGate
  import opened Options
  import opened BudgetProtocol

  /** From its reservation on, request `j` holds it: generating or booked, and the key does not expire. */
  ghost predicate Holds(states: seq<State>, events: seq<Event>, j: nat, from: nat, now: nat)
    requires |states| == |events| + 1
  {
    && from < now < |states| && events[from] == Reserve(j)
    && (forall k | from < k <= now :: Holding(states[k], j))
    && (forall k | from <= k < now :: events[k] != Expire(j))
  }

  /** The estimate is fixed at arrival. */
  lemma {:induction false} CostsStay(states: seq<State>, events: seq<Event>, budget: Budget, m: nat, k: nat, j: nat)
    requires Behaviour(states, events, budget) && m <= k < |states| && Has(states[m], j)
    ensures Has(states[k], j) && states[k].requests[j].estimate == states[m].requests[j].estimate
  {
    if m < k {
      CostsStay(states, events, budget, m, k - 1, j);
      assert states[k] == Apply(states[k - 1], events[k - 1], budget);
    }
  }

  predicate Holding(s: State, j: nat) {
    Has(s, j) && (s.requests[j].phase.Generating? || s.requests[j].phase.Booked?)
  }

  lemma HoldingStep(s: State, e: Event, budget: Budget, j: nat)
    requires Enabled(s, e) && Holding(s, j) && Holding(Apply(s, e, budget), j) && e != Expire(j) && j in s.redis
    ensures j in Apply(s, e, budget).redis && Apply(s, e, budget).redis[j] == s.redis[j]
  {
    hide CheckBudget, EnforceOrRaise, CommittedSpend, CommittedIds;
  }

  lemma ReserveStep(s: State, budget: Budget, j: nat)
    requires Enabled(s, Reserve(j)) && s.requests[j].estimate > 0.0
    ensures var s' := Apply(s, Reserve(j), budget); j in s'.redis && s'.redis[j] == s.requests[j].estimate
  {}

  /** A reservation that was placed is in Redis, with its amount, for as long as its request holds it. */
  lemma {:induction false} HeldKeyIsThere(states: seq<State>, events: seq<Event>, budget: Budget, j: nat, from: nat, now: nat)
    requires Behaviour(states, events, budget) && Holds(states, events, j, from, now)
    requires states[now].requests[j].estimate > 0.0
    ensures j in states[now].redis && states[now].redis[j] == states[now].requests[j].estimate
    decreases now
  {
    hide Apply;
    var s, e := states[now - 1], events[now - 1];
    assert Enabled(s, e) && states[now] == Apply(s, e, budget);
    assert Holding(states[now], j);
    if from + 1 < now {
      assert Holding(s, j);
      CostsStay(states, events, budget, now - 1, now, j);
      HeldKeyIsThere(states, events, budget, j, from, now - 1);
      HoldingStep(s, e, budget, j);
    } else {
      CostsStay(states, events, budget, now - 1, now, j);
      ReserveStep(s, budget, j);
    }
  }

  /** Request `i` started its check at `start` and is still at it, having read every key that was there throughout. */
  ghost predicate FullScan(states: seq<State>, events: seq<Event>, i: nat, start: nat, now: nat)
    requires |states| == |events| + 1
  {
    && start < now < |states| && events[start] == ReadSpend(i)
    && (forall k | start < k <= now :: Has(states[k], i) && states[k].requests[i].phase.Checking?)
    && (forall key | ThereThroughout(states, key, start, now) :: key in states[now].requests[i].phase.seen)
  }

  ghost predicate ThereThroughout(states: seq<State>, key: nat, start: nat, now: nat)
    requires start < now < |states|
  {
    forall k | start <= k <= now :: key in states[k].redis
  }

  /** A request that reserved before the check began, and holds its reservation, is seen. */
  lemma HolderIsSeen(states: seq<State>, events: seq<Event>, budget: Budget, i: nat, j: nat, from: nat, start: nat, now: nat)
    requires Behaviour(states, events, budget) && Holds(states, events, j, from, now) && from < start
    requires FullScan(states, events, i, start, now) && states[now].requests[j].estimate > 0.0
    ensures j in states[now].requests[i].phase.seen
    ensures !BlindTo(states[now].requests[j], j, states[now].requests[i].phase)
  {
    forall k | start <= k <= now ensures j in states[k].redis {
      CostsStay(states, events, budget, k, now, j);
      HeldKeyIsThere(states, events, budget, j, from, k);
    }
    assert ThereThroughout(states, j, start, now);
  }

  /** What was committed when the check began is counted, for as long as the check lasts. */
  lemma {:induction false} CommittedIsCounted(states: seq<State>, events: seq<Event>, budget: Budget, i: nat, j: nat, start: nat, now: nat)
    requires Behaviour(states, events, budget) && start < now < |states| && events[start] == ReadSpend(i)
    requires forall k | start < k <= now :: Has(states[k], i) && states[k].requests[i].phase.Checking?
    requires Has(states[start], j) && states[start].requests[j].phase.Committed?
    ensures Has(states[now], i) && states[now].requests[i].phase.Checking? && j in states[now].requests[i].phase.counted
    ensures Has(states[now], j) && !BlindTo(states[now].requests[j], j, states[now].requests[i].phase)
  {
    assert Enabled(states[now - 1], events[now - 1]) && states[now] == Apply(states[now - 1], events[now - 1], budget);
    CostsStay(states, events, budget, start, now, j);
    if start + 1 < now { CommittedIsCounted(states, events, budget, i, j, start, now - 1); }
  }

  lemma {:induction false} SeenCovers(rs: seq<Request>, seen: set<nat>, j: nat)
    requires j < |rs| && j in seen && forall i | 0 <= i < |rs| :: rs[i].estimate >= 0.0
    ensures SeenEstimates(rs, seen) >= rs[j].estimate
  {
    if j < |rs| - 1 { SeenCovers(rs[..|rs| - 1], seen, j); } else { SeenNotNegative(rs[..|rs| - 1], seen); }
  }

  lemma {:induction false} SeenNotNegative(rs: seq<Request>, seen: set<nat>)
    requires forall i | 0 <= i < |rs| :: rs[i].estimate >= 0.0
    ensures SeenEstimates(rs, seen) >= 0.0
  {
    if rs != [] { SeenNotNegative(rs[..|rs| - 1], seen); }
  }

  lemma {:induction false} CountedNotNegative(rs: seq<Request>, counted: set<nat>)
    requires forall i | 0 <= i < |rs| :: rs[i].actual >= 0.0
    ensures CountedCost(rs, counted) >= 0.0
  {
    if rs != [] { CountedNotNegative(rs[..|rs| - 1], counted); }
  }

  /**
   In every behaviour: a held reservation that, with the starting spend and the new estimate, reaches the hard cap
   makes a full check deny.
   */
  lemma HolderBlocks(states: seq<State>, events: seq<Event>, budget: Budget, ceiling: real, blind: nat,
                     i: nat, j: nat, from: nat, start: nat, now: nat)
    requires Behaviour(states, events, budget) && Hypotheses(states, events, ceiling, blind) && ceiling >= 0.0
    requires Holds(states, events, j, from, now) && from < start && FullScan(states, events, i, start, now)
    requires states[now].requests[j].estimate > 0.0
    requires states[0].base + states[now].requests[j].estimate + states[now].requests[i].estimate >= budget.HardLimit()
    ensures Enabled(states[now], Decide(i)) && Apply(states[now], Decide(i), budget).requests[i].phase == Denied
  {
    var s := states[now];
    var check, r := s.requests[i].phase, s.requests[i];
    HolderIsSeen(states, events, budget, i, j, from, start, now);
    InvReached(states, events, budget, ceiling, blind, now);
    BaseStays(states, events, budget, now);
    hide BlindAtMost, Hypotheses, Bounded;
    assert CheckOk(s, check);
    SeenCovers(s.requests, check.seen, j);
    CountedNotNegative(s.requests, check.counted);
    AdmittedIffUnderHardCap(Some(budget), check.spend, check.total, r.estimate, r.model);
    hide SeenEstimates, CountedCost, CheckBudget, EnforceOrRaise;
    assert check.spend + check.total + r.estimate >= budget.HardLimit();
  }

  lemma {:induction false} BaseStays(states: seq<State>, events: seq<Event>, budget: Budget, k: nat)
    requires Behaviour(states, events, budget) && k < |states|
    ensures states[k].base == states[0].base
  {
    if k > 0 {
      BaseStays(states, events, budget, k - 1);
      assert states[k] == Apply(states[k - 1], events[k - 1], budget);
    }
  }

  // ---------------------------------------------------------------- failed runs are never counted

  predicate Lost(p: Phase) { p.Unwinding? || p.Unwound? || p.Failed? || p.Denied? }

  lemma LostStep(s: State, e: Event, budget: Budget, j: nat)
    requires Enabled(s, e) && Has(s, j) && Lost(s.requests[j].phase)
    ensures Has(Apply(s, e, budget), j) && Lost(Apply(s, e, budget).requests[j].phase)
  {
    hide CheckBudget, EnforceOrRaise, CommittedSpend, CommittedIds;
  }

  /** A request that raised or was denied never commits, so it adds nothing to the committed spend. */
  lemma {:induction false} LostStaysLost(states: seq<State>, events: seq<Event>, budget: Budget, m: nat, k: nat, j: nat)
    requires Behaviour(states, events, budget) && m <= k < |states| && Has(states[m], j) && Lost(states[m].requests[j].phase)
    ensures Has(states[k], j) && Lost(states[k].requests[j].phase) && CommittedCost(states[k].requests[j]) == 0.0
  {
    hide Apply;
    if m < k {
      LostStaysLost(states, events, budget, m, k - 1, j);
      assert Enabled(states[k - 1], events[k - 1]) && states[k] == Apply(states[k - 1], events[k - 1], budget);
      LostStep(states[k - 1], events[k - 1], budget, j);
    }
  }

  // ---------------------------------------------------------------- orderly runs keep the cap

  /** Nothing for the check to miss: `j` costs nothing, had committed when the check began, or has held its key since before. */
  ghost predicate InView(states: seq<State>, events: seq<Event>, j: nat, start: nat, now: nat)
    requires |states| == |events| + 1 && start < now < |states| && Has(states[now], j)
  {
    var r := states[now].requests[j];
    || r.estimate <= 0.0 || !(Outstanding(r.phase) || r.phase.Committed?)
    || (Has(states[start], j) && states[start].requests[j].phase.Committed?)
    || exists from: nat :: from < start && Holds(states, events, j, from, now)
  }

  /** The decision at `now` follows a full scan, begun at `start`, with every request in view. */
  ghost predicate ClearCheck(states: seq<State>, events: seq<Event>, i: nat, start: nat, now: nat)
    requires |states| == |events| + 1
  {
    FullScan(states, events, i, start, now) && forall j | 0 <= j < |states[now].requests| :: InView(states, events, j, start, now)
  }

  /** No admission, release or commit of another request falls between the parts of a check. */
  ghost predicate Orderly(states: seq<State>, events: seq<Event>)
    requires |states| == |events| + 1
  {
    forall now | 0 <= now < |events| && events[now].Decide? :: exists start :: ClearCheck(states, events, events[now].i, start, now)
  }

  lemma InViewIsNotBlind(states: seq<State>, events: seq<Event>, budget: Budget, i: nat, j: nat, start: nat, now: nat)
    requires Behaviour(states, events, budget) && FullScan(states, events, i, start, now)
    requires Has(states[now], j) && InView(states, events, j, start, now)
    ensures !BlindTo(states[now].requests[j], j, states[now].requests[i].phase)
  {
    assert |states| == |events| + 1;
    hide Behaviour, FullScan, Holds;
    ScanIsCheck(states, events, i, start, now);
    if BlindTo(states[now].requests[j], j, states[now].requests[i].phase) {
      if Has(states[start], j) && states[start].requests[j].phase.Committed? {
        CommittedIsCounted(states, events, budget, i, j, start, now);
      } else {
        var from: nat :| from < start && Holds(states, events, j, from, now);
        HolderIsSeen(states, events, budget, i, j, from, start, now);
      }
    }
  }

  lemma ScanIsCheck(states: seq<State>, events: seq<Event>, i: nat, start: nat, now: nat)
    requires |states| == |events| + 1 && FullScan(states, events, i, start, now)
    ensures start < now < |states| && events[start] == ReadSpend(i)
    ensures forall k | start < k <= now :: Has(states[k], i) && states[k].requests[i].phase.Checking?
  {}

  lemma {:induction false} NoneBlind(rs: seq<Request>, check: Phase)
    requires check.Checking? && forall j | 0 <= j < |rs| :: !BlindTo(rs[j], j, check)
    ensures BlindCount(rs, check) == 0
  {
    hide BlindTo;
    if rs != [] { NoneBlind(rs[..|rs| - 1], check); }
  }

  lemma OrderlyIsNeverBlind(states: seq<State>, events: seq<Event>, budget: Budget, ceiling: real)
    requires Behaviour(states, events, budget) && Orderly(states, events)
    requires forall k | 0 <= k < |events| :: HonestEstimate(events[k], ceiling)
    ensures Hypotheses(states, events, ceiling, 0)
  {
    assert |states| == |events| + 1;
    hide BlindTo, BlindCount, InView, FullScan, HonestEstimate, Behaviour, Enabled;
    forall k | 0 <= k < |events| ensures BlindAtMost(states[k], events[k], 0) {
      if events[k].Decide? {
        var i := events[k].i;
        var start :| ClearCheck(states, events, i, start, k);
        ScanIsCheck(states, events, i, start, k);
        forall j | 0 <= j < |states[k].requests| ensures !BlindTo(states[k].requests[j], j, states[k].requests[i].phase) {
          InViewIsNotBlind(states, events, budget, i, j, start, k);
        }
        NoneBlind(states[k].requests, states[k].requests[i].phase);
      }
    }
  }

  /**
   The hard cap, from the order of events alone: where every check scans fully and no other request is admitted,
   released or committed around it, a tenant under its cap stays strictly under it, apart from ungated bookings.
   */
  lemma OrderlyRunsKeepTheCap(states: seq<State>, events: seq<Event>, budget: Budget, ceiling: real, k: nat)
    requires Behaviour(states, events, budget) && Orderly(states, events) && ceiling >= 0.0 && k < |states|
    requires forall m | 0 <= m < |events| :: HonestEstimate(events[m], ceiling)
    requires states[0].base < budget.HardLimit()
    ensures CommittedSpend(states[k]) <= Exposure(states[k])
    ensures Exposure(states[k]) - states[k].ungated < budget.HardLimit()
  {
    hide Behaviour, Orderly, Hypotheses;
    OrderlyIsNeverBlind(states, events, budget, ceiling);
    HardCapHolds(states, events, budget, ceiling, k);
  }

  // ---------------------------------------------------------------- two requests, one after the other

  /** What happens to the first request's reservation before the second request's check has read it. */
  datatype Glimpse = Sees | ReserveLost | Expired | ScanBroken | ReleasedEarly

  function Before(glimpse: Glimpse): seq<Event> {
    match glimpse
    case Sees => [Reserve(0)]
    case ReserveLost => [ReserveFails(0)]
    case Expired => [Reserve(0), Expire(0)]
    case ScanBroken => [Reserve(0)]
    case ReleasedEarly => [Reserve(0), Book(0), Release(0)]
  }

  function During(glimpse: Glimpse): seq<Event> {
    match glimpse
    case Sees => [ReadKey(1, 0)]
    case ScanBroken => [ReadKey(1, 0), ScanError(1)]
    case _ => []
  }

  function Story(first: real, second: real, glimpse: Glimpse): seq<Event> {
    [Arrive(first, first, "m"), ReadSpend(0), Decide(0)] + Before(glimpse)
    + [Arrive(second, second, "m"), ReadSpend(1)] + During(glimpse)
  }

  /** The state the events lead to, when each is enabled in turn. */
  ghost predicate Leads(s: State, events: seq<Event>, budget: Budget, s': State)
    decreases |events|
  {
    if events == [] then s == s'
    else Enabled(s, events[0]) && Leads(Apply(s, events[0], budget), events[1..], budget, s')
  }

  lemma {:induction false} LeadsOn(s: State, a: seq<Event>, m: State, b: seq<Event>, t: State, budget: Budget)
    requires Leads(s, a, budget, m) && Leads(m, b, budget, t)
    ensures Leads(s, a + b, budget, t)
    decreases |a|
  {
    if a == [] {
      assert a + b == b;
    } else {
      LeadsOn(Apply(s, a[0], budget), a[1..], m, b, t, budget);
      assert (a + b)[1..] == a[1..] + b;
    }
  }

  /** What the second check has added up besides the base: the first estimate exactly when it saw the reservation. */
  function Noticed(first: real, glimpse: Glimpse): real { if glimpse.Sees? then first else 0.0 }

  lemma LeadsNext(s: State, events: seq<Event>, m: State, e: Event, budget: Budget)
    requires Leads(s, events, budget, m) && Enabled(m, e)
    ensures Leads(s, events + [e], budget, Apply(m, e, budget))
  {
    hide Apply;
    assert [e][1..] == [] && Leads(m, [e], budget, Apply(m, e, budget));
    LeadsOn(s, events, m, [e], Apply(m, e, budget), budget);
  }

  lemma {:induction false} NoneCommitted(rs: seq<Request>)
    requires forall i | 0 <= i < |rs| :: !rs[i].phase.Committed?
    ensures SumCommitted(rs) == 0.0
  {
    if rs != [] { NoneCommitted(rs[..|rs| - 1]); }
  }

  /** A lone request that is checked: it reads the base and is admitted under the cap. */
  lemma FirstStates(base: real, first: real, budget: Budget) returns (s1: State, s2: State)
    requires first > 0.0 && base + first < budget.HardLimit()
    ensures Apply(State(base, 0.0, map[], []), Arrive(first, first, "m"), budget) == s1
    ensures Enabled(s1, ReadSpend(0)) && Apply(s1, ReadSpend(0), budget) == s2
    ensures Enabled(s2, Decide(0))
    ensures Apply(s2, Decide(0), budget) == State(base, 0.0, map[], [Request(first, first, "m", Admitted)])
  {
    s1 := State(base, 0.0, map[], [Request(first, first, "m", Arrived)]);
    NoneCommitted(s1.requests);
    hide SumCommitted, CommittedIds;
    var check := Checking(base, 0.0, CommittedIds(s1.requests), {});
    s2 := State(base, 0.0, map[], [Request(first, first, "m", check)]);
    assert Apply(s1, ReadSpend(0), budget).requests == s2.requests;
    AdmittedIffUnderHardCap(Some(budget), base, 0.0, first, "m");
    hide CheckBudget, EnforceOrRaise;
    assert Apply(s2, Decide(0), budget).requests == [Request(first, first, "m", Admitted)];
  }

  lemma FirstAdmitted(base: real, first: real, budget: Budget)
    requires first > 0.0 && base + first < budget.HardLimit()
    ensures Leads(State(base, 0.0, map[], []), [Arrive(first, first, "m"), ReadSpend(0), Decide(0)], budget,
                  State(base, 0.0, map[], [Request(first, first, "m", Admitted)]))
  {
    hide Apply;
    var s0, arrive := State(base, 0.0, map[], []), Arrive(first, first, "m");
    assert Leads(s0, [], budget, s0);
    hide Leads;
    var s1, s2 := FirstStates(base, first, budget);
    LeadsNext(s0, [], s0, arrive, budget);
    LeadsNext(s0, [] + [arrive], s1, ReadSpend(0), budget);
    LeadsNext(s0, [] + [arrive] + [ReadSpend(0)], s2, Decide(0), budget);
    assert [] + [arrive] + [ReadSpend(0)] + [Decide(0)] == [arrive, ReadSpend(0), Decide(0)];
  }

  function Held(glimpse: Glimpse): Phase { if glimpse.ReleasedEarly? then Released else Generating }

  function Keys(first: real, glimpse: Glimpse): map<nat, real> {
    if glimpse.Sees? || glimpse.ScanBroken? then map[0 := first] else map[]
  }

  lemma ReservationFate(base: real, first: real, glimpse: Glimpse, budget: Budget)
    requires first > 0.0
    ensures Leads(State(base, 0.0, map[], [Request(first, first, "m", Admitted)]), Before(glimpse), budget,
                  State(base, 0.0, Keys(first, glimpse), [Request(first, first, "m", Held(glimpse))]))
  {
    var s, b := State(base, 0.0, map[], [Request(first, first, "m", Admitted)]), Before(glimpse);
    var s1 := Apply(s, b[0], budget);
    assert s1.requests == [Request(first, first, "m", Generating)];
    assert Leads(s, [], budget, s);
    LeadsNext(s, [], s, b[0], budget);
    assert [] + [b[0]] == [b[0]];
    if glimpse.Expired? {
      assert Apply(s1, b[1], budget).redis == map[];
      LeadsNext(s, [b[0]], s1, b[1], budget);
    } else if glimpse.ReleasedEarly? {
      var s2 := Apply(s1, b[1], budget);
      assert s2.requests == [Request(first, first, "m", Booked)];
      var s3 := Apply(s2, b[2], budget);
      assert s3.requests == [Request(first, first, "m", Released)] && s3.redis == map[];
      LeadsNext(s, [b[0]], s1, b[1], budget);
      LeadsNext(s, [b[0]] + [b[1]], s2, b[2], budget);
    }
  }

  lemma SecondChecks(base: real, first: real, second: real, glimpse: Glimpse, budget: Budget) returns (check: Phase)
    requires first > 0.0 && second >= 0.0
    ensures check.Checking? && check.spend == base && check.total == Noticed(first, glimpse)
    ensures Leads(State(base, 0.0, Keys(first, glimpse), [Request(first, first, "m", Held(glimpse))]),
                  [Arrive(second, second, "m"), ReadSpend(1)] + During(glimpse), budget,
                  State(base, 0.0, Keys(first, glimpse), [Request(first, first, "m", Held(glimpse)), Request(second, second, "m", check)]))
  {
    var r0, arrive := Request(first, first, "m", Held(glimpse)), Arrive(second, second, "m");
    var s := State(base, 0.0, Keys(first, glimpse), [r0]);
    var s1 := Apply(s, arrive, budget);
    assert s1.requests == [r0, Request(second, second, "m", Arrived)];
    NoneCommitted(s1.requests);
    hide SumCommitted, CommittedIds;
    var s2 := Apply(s1, ReadSpend(1), budget);
    check := s2.requests[1].phase;
    assert s2.requests == [r0, Request(second, second, "m", check)];
    assert Leads(s, [], budget, s);
    hide Leads;
    LeadsNext(s, [], s, arrive, budget);
    LeadsNext(s, [] + [arrive], s1, ReadSpend(1), budget);
    var head := [arrive, ReadSpend(1)];
    assert [] + [arrive] + [ReadSpend(1)] == head == head + [];
    if glimpse.Sees? || glimpse.ScanBroken? {
      var s3 := Apply(s2, ReadKey(1, 0), budget);
      check := s3.requests[1].phase;
      assert s3.requests == [r0, Request(second, second, "m", check)];
      LeadsNext(s, head, s2, ReadKey(1, 0), budget);
      if glimpse.ScanBroken? {
        var s4 := Apply(s3, ScanError(1), budget);
        check := s4.requests[1].phase;
        assert s4.requests == [r0, Request(second, second, "m", check)];
        LeadsNext(s, head + [ReadKey(1, 0)], s3, ScanError(1), budget);
        assert head + [ReadKey(1, 0)] + [ScanError(1)] == head + During(glimpse);
      }
    }
  }

  /**
   Of two requests one after the other, the second is admitted exactly when both estimates and the spend stay below
   the hard cap; and each way to miss the first reservation admits it although they do not.
   */
  lemma SecondAdmittedIff(base: real, first: real, second: real, glimpse: Glimpse, budget: Budget) returns (s: State)
    requires first > 0.0 && second >= 0.0 && base + first < budget.HardLimit()
    ensures Leads(State(base, 0.0, map[], []), Story(first, second, glimpse), budget, s) && Enabled(s, Decide(1))
    ensures Apply(s, Decide(1), budget).requests[1].phase
            == if base + Noticed(first, glimpse) + second < budget.HardLimit() then Admitted else Denied
  {
    hide Leads, Noticed, Keys, Held;
    var s0, s1 := State(base, 0.0, map[], []), State(base, 0.0, map[], [Request(first, first, "m", Admitted)]);
    var s2 := State(base, 0.0, Keys(first, glimpse), [Request(first, first, "m", Held(glimpse))]);
    var begin := [Arrive(first, first, "m"), ReadSpend(0), Decide(0)];
    FirstAdmitted(base, first, budget);
    ReservationFate(base, first, glimpse, budget);
    LeadsOn(s0, begin, s1, Before(glimpse), s2, budget);
    var check := SecondChecks(base, first, second, glimpse, budget);
    s := State(base, 0.0, Keys(first, glimpse), [Request(first, first, "m", Held(glimpse)), Request(second, second, "m", check)]);
    var rest := [Arrive(second, second, "m"), ReadSpend(1)] + During(glimpse);
    LeadsOn(s0, begin + Before(glimpse), s2, rest, s, budget);
    assert begin + Before(glimpse) + rest == Story(first, second, glimpse);
    AdmittedIffUnderHardCap(Some(budget), check.spend, check.total, second, "m");
  }
}
