/**
 The pending marker never outlives the request that works behind it: whatever the timing, failures and overlaps, a
 request that comes after the last active one can claim at once.
 */
module ClaimLiveness {
  import opened Idempotency

  predicate SomeActive(s: State) {
    exists i :: 0 <= i < |s.requests| && Active(s.requests[i])
  }

  predicate MarkerHasOwner(s: State) {
    Read(s).Pending? ==> SomeActive(s)
  }

  /** Steps that keep request `i` active. */
  lemma ActiveStays(s: State, e: Event, i: nat)
    requires Enabled(s, e) && i < |s.requests| && Active(s.requests[i])
    ensures i < |Apply(s, e).requests|
    ensures Active(Apply(s, e).requests[i]) || !Read(Apply(s, e)).Pending?
  {}

  lemma MarkerStep(s: State, e: Event)
    requires Enabled(s, e) && MarkerHasOwner(s)
    ensures MarkerHasOwner(Apply(s, e))
  {
    var s' := Apply(s, e);
    if Read(s').Pending? {
      if Read(s).Pending? {
        var i :| 0 <= i < |s.requests| && Active(s.requests[i]);
        ActiveStays(s, e, i);
      } else {
        assert e.Advance? && Active(s'.requests[e.request]);
      }
    }
  }

  /** In every behaviour, a live marker means that some request is past its claim and not yet answered. */
  lemma {:induction false} LiveMarkerHasOwner(states: seq<State>, events: seq<Event>, k: nat)
    requires Behaviour(states, events) && k < |states|
    ensures MarkerHasOwner(states[k])
  {
    if k > 0 {
      hide Apply, MarkerHasOwner;
      LiveMarkerHasOwner(states, events, k - 1);
      MarkerStep(states[k - 1], events[k - 1]);
      assert states[k] == Apply(states[k - 1], events[k - 1]);
    } else {
      assert states[0].cell == Absent;
    }
  }

  /**
   So once no request is active, retries do not wait: a look-up either returns a stored result or goes on to claim,
   a claim succeeds unless a result is stored, and a waiter's next poll ends its wait: with the result, with a claim,
   or, when it has lost a claim before, by running unclaimed.
   */
  lemma NoWaitingOnADeadLeader(states: seq<State>, events: seq<Event>, k: nat, i: nat)
    requires Behaviour(states, events) && k < |states| && !SomeActive(states[k]) && i < |states[k].requests|
    ensures states[k].requests[i] == Claiming && !Read(states[k]).Stored? ==>
              && Apply(states[k], Advance(i)).requests[i] == Running(true, states[k].now)
              && Apply(states[k], Advance(i)).cell == Pending(states[k].now + 90_000)
              && Apply(states[k], Advance(i)).executions == states[k].executions + 1
    ensures states[k].requests[i] == Resolving(1) ==>
              Apply(states[k], Advance(i)).requests[i] == match Read(states[k]) case Stored(r, _) => Returned(r) case _ => Claiming
    ensures states[k].requests[i].Polling? && Enabled(states[k], Advance(i)) ==>
              var Polling(round, polls, _) := states[k].requests[i];
              Apply(states[k], Advance(i)).requests[i]
              == if Read(states[k]).Stored? && polls < 240 then Returned(Read(states[k]).response)
                 else if round == 1 then Claiming else Running(false, states[k].now)
  {
    LiveMarkerHasOwner(states, events, k);
  }

  /** A claim that raises is gone after its get and delete, so that the same request's retry claims again. */
  lemma RaisedClaimIsFreed() returns (states: seq<State>, events: seq<Event>)
    ensures Behaviour(states, events)
    ensures states[|states| - 1] == State(0, Absent, [Raised, Claiming], 1, {})
  {
    states, events := [State(0, Absent, [Resolving(1), Resolving(1)], 0, {})], [];
    states, events := Extend(states, events, Advance(0));
    states, events := Extend(states, events, Advance(0));
    states, events := Extend(states, events, Fail(0));
    states, events := Extend(states, events, Advance(0));
    states, events := Extend(states, events, Advance(0));
    states, events := Extend(states, events, Advance(1));
  }

  /** A claimant that dies without releasing blocks others for exactly ninety seconds. */
  lemma DeadClaimBlocksForTheTtl(s: State, i: nat, claimedAt: nat)
    requires i < |s.requests| && s.requests[i] == Claiming && s.cell == Pending(claimedAt + PENDING_TTL)
    ensures Apply(s, Advance(i)).requests[i] == Running(true, s.now) <==> s.now >= claimedAt + 90_000
  {}

  /** A stored result answers every look-up for exactly a day. */
  lemma ResultAnswersForADay(s: State, i: nat, j: nat, wait: nat)
    requires i < |s.requests| && j < |s.requests| && i != j && s.requests[i].Storing? && s.requests[j] == Resolving(1)
    ensures var stored := Apply(s, Advance(i)); var later := Apply(stored, Elapse(wait));
            stored.requests[i] == Returned(s.requests[i].response)
            && (Apply(later, Advance(j)).requests[j] == Returned(s.requests[i].response) <==> wait < 86_400_000)
  {}
}
