/**
 The Idempotency-Key protocol of `POST /query`, seen from one Redis key.

 Any number of requests carry the same cache key.  Each one looks the key up, polls while it holds
 the pending marker, tries to claim it, and runs the orchestrator either as the claimant or, when
 its second look-up gives up, without a claim.  Every Redis round trip is one atomic step; the steps
 of different requests interleave freely and time passes between them.

 Times are in milliseconds.
 */
module Idempotency {

  const POLL_INTERVAL := 250
  const POLL_MAX_TICKS := 240
  const PENDING_TTL := 90_000
  const RESULT_TTL := 86_400_000

  // A response body, by identity.
  type Response = nat

  /** What Redis stores under the key, with its expiry time. */
  datatype Cell =
    | Absent
    | Pending(expires: nat)
    | Stored(response: Response, expires: nat)

  /** Where one request stands. `round` is 1 before the claim attempt and 2 after a lost one. */
  datatype Position =
    | Resolving(round: nat)
    | Polling(round: nat, polls: nat, notBefore: nat)
    | Claiming
    | Running(claimed: bool, since: nat)
    | Storing(claimed: bool, response: Response, since: nat)
    | Releasing
    | Deleting
    | Returned(response: Response)
    | Raised

  /** `executions` counts orchestrator runs started, `produced` the responses they computed. */
  datatype State = State(
    now: nat,
    cell: Cell,
    requests: seq<Position>,
    executions: nat,
    produced: set<Response>)

  datatype Event =
    | Elapse(duration: nat)
    | Advance(request: nat)
    | Finish(request: nat, response: Response)
    | Fail(request: nat)

  // ---------------------------------------------------------------- steps

  /** A Redis read: an entry past its expiry is gone. */
  function Read(s: State): Cell {
    match s.cell
    case Absent => Absent
    case Pending(e) => if s.now < e then s.cell else Absent
    case Stored(_, e) => if s.now < e then s.cell else Absent
  }

  function Move(s: State, i: nat, p: Position): State
    requires i < |s.requests|
  {
    s.(requests := s.requests[i := p])
  }

  /** The look-up found nothing: the first round goes on to the claim, the second one runs unclaimed. */
  function Miss(s: State, i: nat, round: nat): State
    requires i < |s.requests|
  {
    if round == 1 then Move(s, i, Claiming)
    else Move(s, i, Running(false, s.now)).(executions := s.executions + 1)
  }

  predicate Enabled(s: State, e: Event) {
    match e
    case Elapse(_) => true
    case Finish(i, _) => i < |s.requests| && s.requests[i].Running?
    case Fail(i) => i < |s.requests| && s.requests[i].Running?
    case Advance(i) =>
      i < |s.requests| &&
      match s.requests[i]
      case Polling(_, _, notBefore) => notBefore <= s.now
      case Running(_, _) => false
      case Returned(_) => false
      case Raised => false
      case _ => true
  }

  function Apply(s: State, e: Event): State
    requires Enabled(s, e)
  {
    match e
    case Elapse(d) => s.(now := s.now + d)
    case Finish(i, r) =>
      var Running(claimed, since) := s.requests[i];
      Move(s, i, Storing(claimed, r, since)).(produced := s.produced + {r})
    case Fail(i) => Move(s, i, Releasing)
    case Advance(i) => Proceed(s, i)
  }

  function Proceed(s: State, i: nat): State
    requires Enabled(s, Advance(i))
  {
    match s.requests[i]
    case Resolving(round) =>
      (match Read(s)
       case Absent => Miss(s, i, round)
       case Pending(_) => Move(s, i, Polling(round, 0, s.now))
       case Stored(r, _) => Move(s, i, Returned(r)))
    case Polling(round, polls, _) =>
      if polls >= POLL_MAX_TICKS then Miss(s, i, round) else
      (match Read(s)
       case Absent => Miss(s, i, round)
       case Pending(_) => Move(s, i, Polling(round, polls + 1, s.now + POLL_INTERVAL))
       case Stored(r, _) => Move(s, i, Returned(r)))
    case Claiming =>
      if Read(s).Absent? then
        Move(s, i, Running(true, s.now)).(cell := Pending(s.now + PENDING_TTL), executions := s.executions + 1)
      else Move(s, i, Resolving(2))
    case Storing(_, r, _) => Move(s, i, Returned(r)).(cell := Stored(r, s.now + RESULT_TTL))
    case Releasing => Move(s, i, if Read(s).Pending? then Deleting else Raised)
    case Deleting => Move(s, i, Raised).(cell := Absent)
  }

  // ---------------------------------------------------------------- behaviours

  predicate Initial(s: State) {
    && s.cell == Absent
    && s.executions == 0
    && s.produced == {}
    && forall i | 0 <= i < |s.requests| :: s.requests[i] == Resolving(1)
  }

  ghost predicate Steps(states: seq<State>, events: seq<Event>) {
    && |states| == |events| + 1
    && forall k | 0 <= k < |events| :: Enabled(states[k], events[k]) && states[k + 1] == Apply(states[k], events[k])
  }

  ghost predicate Behaviour(states: seq<State>, events: seq<Event>) {
    Steps(states, events) && Initial(states[0])
  }

  /** A claimant settles within `latency` of its claim. */
  predicate Timely(s: State, latency: nat) {
    forall i | 0 <= i < |s.requests| ::
      && (s.requests[i].Running? && s.requests[i].claimed ==> s.now <= s.requests[i].since + latency)
      && (s.requests[i].Storing? && s.requests[i].claimed ==> s.now <= s.requests[i].since + latency)
  }

  predicate ClaimantRaises(s: State, e: Event) {
    e.Fail? && e.request < |s.requests| && s.requests[e.request].Running? && s.requests[e.request].claimed
  }

  predicate ResultLive(s: State) {
    s.cell.Stored? ==> s.now < s.cell.expires
  }

  /** The leader-time bound: claimants settle within `latency`, none raises, no stored result expires. */
  ghost predicate WellTimed(states: seq<State>, events: seq<Event>, latency: nat)
    requires Steps(states, events)
  {
    && (forall k | 0 <= k < |states| :: Timely(states[k], latency) && ResultLive(states[k]))
    && (forall k | 0 <= k < |events| :: !ClaimantRaises(states[k], events[k]))
  }

  predicate Settled(s: State) {
    forall i | 0 <= i < |s.requests| :: s.requests[i].Returned? || s.requests[i].Raised?
  }

  /** One execution at most, every reply handed out is the same, and when all is done there was exactly one. */
  predicate SingleExecution(s: State) {
    && s.executions <= 1
    && (forall i, j | 0 <= i < |s.requests| && 0 <= j < |s.requests| && s.requests[i].Returned? && s.requests[j].Returned? ::
          s.requests[i].response == s.requests[j].response)
    && (forall i | 0 <= i < |s.requests| && s.requests[i].Returned? :: s.produced == {s.requests[i].response})
    && (Settled(s) && |s.requests| > 0 ==>
          s.executions == 1 && forall i | 0 <= i < |s.requests| :: s.requests[i].Returned?)
  }

  // ---------------------------------------------------------------- the invariant

  /** The key's life under a timely leader: unclaimed, led by `leader` since `claimedAt`, or resolved. */
  datatype Epoch =
    | Unclaimed
    | Led(leader: nat, claimedAt: nat)
    | Resolved(result: Response)

  predicate WaiterOk(p: Position, claimedAt: nat) {
    match p
    case Resolving(_) => true
    case Claiming => true
    case Polling(_, polls, notBefore) =>
      polls < POLL_MAX_TICKS && claimedAt + polls * POLL_INTERVAL <= notBefore
    case _ => false
  }

  predicate InEpoch(s: State, epoch: Epoch) {
    match epoch
    case Unclaimed =>
      && s.cell == Absent && s.executions == 0 && s.produced == {}
      && forall i | 0 <= i < |s.requests| :: s.requests[i] == Resolving(1) || s.requests[i] == Claiming
    case Led(leader, t) =>
      && s.cell == Pending(t + PENDING_TTL) && s.executions == 1
      && leader < |s.requests| && t <= s.now
      && (match s.requests[leader]
          case Running(claimed, since) => claimed && since == t && s.produced == {}
          case Storing(claimed, r, since) => claimed && since == t && s.produced == {r}
          case _ => false)
      && forall i | 0 <= i < |s.requests| && i != leader :: WaiterOk(s.requests[i], t)
    case Resolved(r) =>
      && s.cell.Stored? && s.cell.response == r && s.executions == 1 && s.produced == {r}
      && (exists i :: 0 <= i < |s.requests| && s.requests[i] == Returned(r))
      && forall i | 0 <= i < |s.requests| ::
        match s.requests[i]
        case Resolving(_) => true
        case Claiming => true
        case Polling(_, polls, _) => polls < POLL_MAX_TICKS
        case Returned(r') => r' == r
        case _ => false
  }

  lemma UnclaimedStep(s: State, e: Event) returns (epoch': Epoch)
    requires Enabled(s, e) && InEpoch(s, Unclaimed)
    ensures InEpoch(Apply(s, e), epoch')
  {
    epoch' := if e.Advance? && s.requests[e.request].Claiming? then Led(e.request, s.now) else Unclaimed;
  }

  /** The last poll of a waiter comes 239 intervals after the claim, so a timely leader has stored by then. */
  lemma LedStep(s: State, e: Event, leader: nat, t: nat, latency: nat) returns (epoch': Epoch)
    requires Enabled(s, e) && InEpoch(s, Led(leader, t))
    requires latency < (POLL_MAX_TICKS - 1) * POLL_INTERVAL
    requires Timely(s, latency) && !ClaimantRaises(s, e)
    ensures InEpoch(Apply(s, e), epoch')
  {
    assert s.now <= t + latency;
    epoch' := Led(leader, t);
    if e.Finish? {
      assert forall j | 0 <= j < |s.requests| && j != leader :: !s.requests[j].Running?;
    } else if e.Advance? && e.request == leader {
      epoch' := Resolved(s.requests[leader].response);
      assert Apply(s, e).requests[leader] == Returned(epoch'.result);
    } else if e.Advance? {
      assert WaiterOk(s.requests[e.request], t) && Read(s).Pending?;
      assert s.requests[e.request].Polling? ==> s.requests[e.request].polls < POLL_MAX_TICKS - 1;
    }
  }

  lemma ResolvedStep(s: State, e: Event, r: Response)
    requires Enabled(s, e) && InEpoch(s, Resolved(r)) && ResultLive(s)
    ensures InEpoch(Apply(s, e), Resolved(r))
  {
    var i :| 0 <= i < |s.requests| && s.requests[i] == Returned(r);
    assert Apply(s, e).requests[i] == Returned(r);
  }

  lemma EpochStep(s: State, e: Event, epoch: Epoch, latency: nat) returns (epoch': Epoch)
    requires Enabled(s, e) && InEpoch(s, epoch)
    requires latency < (POLL_MAX_TICKS - 1) * POLL_INTERVAL
    requires Timely(s, latency) && ResultLive(s) && !ClaimantRaises(s, e)
    ensures InEpoch(Apply(s, e), epoch')
  {
    hide InEpoch, Apply;
    match epoch {
      case Unclaimed => epoch' := UnclaimedStep(s, e);
      case Led(leader, t) => epoch' := LedStep(s, e, leader, t, latency);
      case Resolved(r) =>
        epoch' := epoch;
        ResolvedStep(s, e, r);
    }
  }

  lemma {:induction false} EpochReached(states: seq<State>, events: seq<Event>, latency: nat, k: nat) returns (epoch: Epoch)
    requires Behaviour(states, events) && WellTimed(states, events, latency)
    requires latency < (POLL_MAX_TICKS - 1) * POLL_INTERVAL
    requires k < |states|
    ensures InEpoch(states[k], epoch)
  {
    if k == 0 {
      epoch := Unclaimed;
    } else {
      var before := EpochReached(states, events, latency, k - 1);
      epoch := EpochStep(states[k - 1], events[k - 1], before, latency);
    }
  }

  /** Every interleaving under the leader-time bound executes once and answers every request alike. */
  lemma TimelyLeaderRunsOnce(states: seq<State>, events: seq<Event>, latency: nat, k: nat)
    requires Behaviour(states, events) && WellTimed(states, events, latency)
    requires latency < (POLL_MAX_TICKS - 1) * POLL_INTERVAL
    requires k < |states|
    ensures SingleExecution(states[k])
  {
    var s := states[k];
    var epoch := EpochReached(states, events, latency, k);
    match epoch {
      case Unclaimed => assert |s.requests| > 0 ==> !s.requests[0].Returned? && !s.requests[0].Raised?;
      case Led(leader, _) => assert !s.requests[leader].Returned? && !s.requests[leader].Raised?;
      case Resolved(_) =>
    }
  }

  // ---------------------------------------------------------------- the bound is exact

  lemma Extend(states: seq<State>, events: seq<Event>, e: Event) returns (states': seq<State>, events': seq<Event>)
    requires Steps(states, events) && Enabled(states[|states| - 1], e)
    ensures Steps(states', events') && states'[0] == states[0]
    ensures states' == states + [Apply(states[|states| - 1], e)] && events' == events + [e]
  {
    states', events' := states + [Apply(states[|states| - 1], e)], events + [e];
  }

  /** Request 0 leads from time 0; request 1 lost the claim and has polled `polls` times, all on the marker. */
  function Waiting(polls: nat): State {
    State(if polls == 0 then 0 else (polls - 1) * POLL_INTERVAL, Pending(PENDING_TTL),
          [Running(true, 0), Polling(2, polls, polls * POLL_INTERVAL)], 1, {})
  }

  ghost predicate Admissible(states: seq<State>, events: seq<Event>, latency: nat) {
    Behaviour(states, events) && WellTimed(states, events, latency)
  }

  lemma ExtendAdmissible(states: seq<State>, events: seq<Event>, e: Event, latency: nat)
    returns (states': seq<State>, events': seq<Event>)
    requires Admissible(states, events, latency)
    requires Enabled(states[|states| - 1], e) && !ClaimantRaises(states[|states| - 1], e)
    requires Timely(Apply(states[|states| - 1], e), latency) && ResultLive(Apply(states[|states| - 1], e))
    ensures Admissible(states', events', latency)
    ensures states' == states + [Apply(states[|states| - 1], e)]
  {
    states', events' := Extend(states, events, e);
  }

  lemma LostRace(latency: nat) returns (states: seq<State>, events: seq<Event>)
    ensures Admissible(states, events, latency) && states[|states| - 1] == Waiting(0)
  {
    states, events := BothMiss(latency);
    states, events := ExtendAdmissible(states, events, Advance(0), latency);
    states, events := ExtendAdmissible(states, events, Advance(1), latency);
    states, events := ExtendAdmissible(states, events, Advance(1), latency);
    assert states[|states| - 1] == Waiting(0);
  }

  lemma BothMiss(latency: nat) returns (states: seq<State>, events: seq<Event>)
    ensures Admissible(states, events, latency)
    ensures states[|states| - 1] == State(0, Absent, [Claiming, Claiming], 0, {})
  {
    states, events := [State(0, Absent, [Resolving(1), Resolving(1)], 0, {})], [];
    assert Admissible(states, events, latency);
    states, events := ExtendAdmissible(states, events, Advance(0), latency);
    states, events := ExtendAdmissible(states, events, Advance(1), latency);
  }

  lemma {:induction false} PollAll(polls: nat, latency: nat) returns (states: seq<State>, events: seq<Event>)
    requires polls <= POLL_MAX_TICKS && (POLL_MAX_TICKS - 1) * POLL_INTERVAL <= latency
    ensures Admissible(states, events, latency) && states[|states| - 1] == Waiting(polls)
  {
    if polls == 0 {
      states, events := LostRace(latency);
    } else {
      states, events := PollAll(polls - 1, latency);
      var wait := if polls == 1 then 0 else POLL_INTERVAL;
      states, events := ExtendAdmissible(states, events, Elapse(wait), latency);
      states, events := ExtendAdmissible(states, events, Advance(1), latency);
      assert states[|states| - 1] == Waiting(polls);
    }
  }

  /** A leader that takes 239 intervals or more can be overtaken: its follower gives up and runs too. */
  lemma LateLeaderRunsTwice(latency: nat) returns (states: seq<State>, events: seq<Event>)
    requires (POLL_MAX_TICKS - 1) * POLL_INTERVAL <= latency
    ensures Admissible(states, events, latency)
    ensures states[|states| - 1].executions == 2
  {
    states, events := PollAll(POLL_MAX_TICKS, latency);
    states, events := ExtendAdmissible(states, events, Finish(0, 7), latency);
    states, events := ExtendAdmissible(states, events, Advance(0), latency);
    states, events := ExtendAdmissible(states, events, Elapse(POLL_INTERVAL), latency);
    states, events := ExtendAdmissible(states, events, Advance(1), latency);
  }

  ghost predicate AlwaysSingle(latency: nat) {
    forall states, events | Admissible(states, events, latency) ::
      forall k | 0 <= k < |states| :: SingleExecution(states[k])
  }

  /** Single execution is guaranteed exactly for leader latencies below 239 poll intervals. */
  lemma SingleExecutionIffTimely(latency: nat)
    ensures AlwaysSingle(latency) <==> latency < (POLL_MAX_TICKS - 1) * POLL_INTERVAL
  {
    if latency < (POLL_MAX_TICKS - 1) * POLL_INTERVAL {
      forall states, events, k | Admissible(states, events, latency) && 0 <= k < |states|
        ensures SingleExecution(states[k])
      {
        TimelyLeaderRunsOnce(states, events, latency, k);
      }
    } else {
      var states, events := LateLeaderRunsTwice(latency);
      assert !SingleExecution(states[|states| - 1]);
    }
  }

  // ---------------------------------------------------------------- with any timing and any failure

  predicate RepliesProduced(s: State) {
    && (s.cell.Stored? ==> s.cell.response in s.produced)
    && (forall i | 0 <= i < |s.requests| ::
          && (s.requests[i].Returned? ==> s.requests[i].response in s.produced)
          && (s.requests[i].Storing? ==> s.requests[i].response in s.produced))
  }

  /** Expiry, failures and slow leaders included, a reply is always one that some run for this key computed. */
  lemma {:induction false} RepliesAreComputed(states: seq<State>, events: seq<Event>, k: nat)
    requires Behaviour(states, events) && k < |states|
    ensures RepliesProduced(states[k])
  {
    if k > 0 {
      RepliesAreComputed(states, events, k - 1);
      assert states[k] == Apply(states[k - 1], events[k - 1]);
    }
  }

  /** Past its claim and not yet answered. */
  predicate Active(p: Position) {
    p.Running? || p.Storing? || p.Releasing? || p.Deleting?
  }

  predicate NoOverlap(s: State) {
    forall i, j | 0 <= i < j < |s.requests| :: !(Active(s.requests[i]) && Active(s.requests[j]))
  }

  function ActiveCount(requests: seq<Position>): nat {
    if requests == [] then 0
    else ActiveCount(requests[..|requests| - 1]) + if Active(requests[|requests| - 1]) then 1 else 0
  }

  lemma {:induction false} ActiveAtMostAll(requests: seq<Position>)
    ensures ActiveCount(requests) <= |requests|
  {
    if requests != [] { ActiveAtMostAll(requests[..|requests| - 1]); }
  }

  lemma {:induction false} ActiveIsCounted(requests: seq<Position>, i: nat)
    requires i < |requests| && Active(requests[i])
    ensures ActiveCount(requests) >= 1
  {
    if i < |requests| - 1 { ActiveIsCounted(requests[..|requests| - 1], i); }
  }

  lemma {:induction false} TwoAreCounted(requests: seq<Position>, i: nat, j: nat)
    requires i < j < |requests| && Active(requests[i]) && Active(requests[j])
    ensures ActiveCount(requests) >= 2
  {
    if j < |requests| - 1 {
      TwoAreCounted(requests[..|requests| - 1], i, j);
    } else {
      ActiveIsCounted(requests[..|requests| - 1], i);
    }
  }

  lemma {:induction false} RequestsStay(states: seq<State>, events: seq<Event>, k: nat)
    requires Steps(states, events) && k < |states|
    ensures |states[k].requests| == |states[0].requests|
  {
    if k > 0 {
      RequestsStay(states, events, k - 1);
      assert states[k] == Apply(states[k - 1], events[k - 1]);
    }
  }

  /** A behaviour in which at most `n` requests are past their claim at any time. */
  ghost predicate AtMostActive(states: seq<State>, events: seq<Event>, n: nat) {
    Behaviour(states, events) && forall k | 0 <= k < |states| :: ActiveCount(states[k].requests) <= n
  }

  lemma OneAtATime(states: seq<State>, events: seq<Event>, k: nat)
    requires AtMostActive(states, events, 1) && k < |states|
    ensures NoOverlap(states[k])
  {
    var rs := states[k].requests;
    assert ActiveCount(rs) <= 1;
    forall i, j | 0 <= i < j < |rs| ensures !(Active(rs[i]) && Active(rs[j])) {
      if Active(rs[i]) && Active(rs[j]) { TwoAreCounted(rs, i, j); }
    }
  }

  /** The release of request `i` is about to remove a stored result. */
  predicate Clobbers(s: State, i: nat) {
    i < |s.requests| && s.requests[i].Deleting? && s.cell.Stored?
  }

  /** While at most one request is past its claim, `release_claim` never removes a stored result ... */
  lemma {:induction false} ReleaseKeepsResults(states: seq<State>, events: seq<Event>, k: nat, i: nat)
    requires AtMostActive(states, events, 1) && k < |states|
    ensures !Clobbers(states[k], i)
  {
    if k > 0 && i < |states[k].requests| && states[k].requests[i].Deleting? {
      var s, e := states[k - 1], events[k - 1];
      assert states[k] == Apply(s, e);
      OneAtATime(states, events, k);
      OneAtATime(states, events, k - 1);
      ReleaseKeepsResults(states, events, k - 1, i);
    }
  }

  /** The first claim outlives its marker, and the second request claims the expired key. */
  lemma ClaimedTwice() returns (states: seq<State>, events: seq<Event>)
    ensures Behaviour(states, events) && |states[0].requests| == 2
    ensures states[|states| - 1]
            == State(PENDING_TTL, Pending(2 * PENDING_TTL), [Running(true, 0), Running(true, PENDING_TTL)], 2, {})
  {
    states, events := [State(0, Absent, [Resolving(1), Resolving(1)], 0, {})], [];
    states, events := Extend(states, events, Advance(0));
    states, events := Extend(states, events, Advance(0));
    states, events := Extend(states, events, Elapse(PENDING_TTL));
    states, events := Extend(states, events, Advance(1));
    states, events := Extend(states, events, Advance(1));
  }

  /** ... but with overlap it can: get and delete are two round trips, and another run stores in between. */
  lemma ReleaseCanClobber() returns (states: seq<State>, events: seq<Event>)
    ensures Behaviour(states, events)
    ensures Clobbers(states[|states| - 1], 0) && |states[0].requests| == 2
    ensures Apply(states[|states| - 1], Advance(0)).cell == Absent
  {
    states, events := ClaimedTwice();
    states, events := Extend(states, events, Fail(0));
    states, events := Extend(states, events, Advance(0));
    states, events := Extend(states, events, Finish(1, 7));
    states, events := Extend(states, events, Advance(1));
  }

  ghost predicate NeverClobbers(n: nat) {
    forall states, events | AtMostActive(states, events, n) ::
      forall k, i: nat | 0 <= k < |states| :: !Clobbers(states[k], i)
  }

  /** `release_claim` is sure to keep stored results exactly when at most one request can be past its claim. */
  lemma ReleaseIsSafeIffAlone(n: nat)
    ensures NeverClobbers(n) <==> n <= 1
  {
    if n <= 1 {
      forall states, events, k, i: nat | AtMostActive(states, events, n) && 0 <= k < |states| ensures !Clobbers(states[k], i) {
        assert AtMostActive(states, events, 1);
        ReleaseKeepsResults(states, events, k, i);
      }
    } else {
      var states, events := ReleaseCanClobber();
      forall k | 0 <= k < |states| ensures ActiveCount(states[k].requests) <= n {
        RequestsStay(states, events, k);
        ActiveAtMostAll(states[k].requests);
      }
      assert AtMostActive(states, events, n) && Clobbers(states[|states| - 1], 0);
    }
  }
}
