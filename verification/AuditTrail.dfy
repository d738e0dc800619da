/**
 The audit events of one query run, through the dual write: the primary row shares the request's transaction, the
 archive copy does not.
 */
module AuditTrail {
  import opened Options
  import opened Orchestrator
  import D = DualWrite
  import R = Reconciliation

  /** The event id of the audit effect at position `i` of a run whose ids start at `base`. */
  function EventId(base: nat, i: nat): R.Id { base + i }

  /** Among the dual writer's steps are the run's: each audit event recorded, then decided with its transaction. */
  ghost predicate Leaves(log: seq<Effect>, base: nat, committed: bool, events: seq<D.Event>) {
    forall i | 0 <= i < |log| && log[i].Audited? ::
      (if committed then D.Commit(EventId(base, i)) else D.Rollback(EventId(base, i))) in events
  }

  /** Every task and transaction has settled. */
  predicate Quiet(s: D.State) {
    s.inflight == {} && s.undecided == {}
  }

  lemma Decided(log: seq<Effect>, base: nat, committed: bool, states: seq<D.State>, events: seq<D.Event>, i: nat)
    requires D.Behaviour(states, events) && Leaves(log, base, committed, events)
    requires i < |log| && log[i].Audited?
    ensures var s, id := states[|states| - 1], EventId(base, i);
            id in s.recorded && (id in s.committed <==> committed)
  {
    var decision := if committed then D.Commit(EventId(base, i)) else D.Rollback(EventId(base, i));
    assert decision in events;
    var m :| 0 <= m < |events| && events[m] == decision;
    D.DecisionStays(states, events, m, |states| - 1, EventId(base, i));
  }

  /**
   Every audit event of a run is in Postgres exactly when the run returned and its session committed. When it did
   not, the event is in the archive exactly when its one archive write succeeded, and no number of
   reconciliation runs changes that.
   */
  lemma AuditOutlivesItsRunIff(w: World, log: seq<Effect>, committed: bool, base: nat,
                               states: seq<D.State>, events: seq<D.Event>, i: nat, sink: nat, cap: nat, runs: nat)
    requires Served(w, log, committed)
    requires D.Behaviour(states, events) && Leaves(log, base, committed, events) && Quiet(states[|states| - 1])
    requires i < |log| && log[i].Audited? && sink < |states[|states| - 1].held|
    ensures var s, id := states[|states| - 1], EventId(base, i);
            var archive := R.AfterRuns(s.committed, s.held[sink], cap, runs);
            && (id in s.committed <==> w.Lasts())
            && (!w.Lasts() ==> (id in archive <==> D.Task(id, sink) !in s.failed))
            && (w.Lasts() && runs * cap >= |s.committed * D.FailedAt(s, sink)| ==> id in archive)
  {
    var s, id := states[|states| - 1], EventId(base, i);
    Decided(log, base, committed, states, events, i);
    D.EveryCommittedEventArchived(states, events, |states| - 1, sink, cap, runs);
    assert id in D.FailedAt(s, sink) <==> D.Task(id, sink) in s.failed;
    var archive := R.AfterRuns(s.committed, s.held[sink], cap, runs);
    assert id in archive - s.committed <==> id in s.recorded - s.committed - D.FailedAt(s, sink);
  }

  /** A denial or a failure is never in Postgres: its only trace is the archive copy, if that write succeeded. */
  lemma FailureIsOnlyArchived(w: World, log: seq<Effect>, committed: bool, base: nat,
                              states: seq<D.State>, events: seq<D.Event>, i: nat, sink: nat, cap: nat, runs: nat)
    requires Served(w, log, committed)
    requires D.Behaviour(states, events) && Leaves(log, base, committed, events) && Quiet(states[|states| - 1])
    requires i < |log| && (log[i] == Audited(BudgetDenied) || log[i] == Audited(QueryFailed))
    requires sink < |states[|states| - 1].held|
    ensures var s, id := states[|states| - 1], EventId(base, i);
            && id !in s.committed
            && (id in R.AfterRuns(s.committed, s.held[sink], cap, runs) <==> D.Task(id, sink) !in s.failed)
  {
    assert log[i] in log;
    AuditOutlivesItsRunIff(w, log, committed, base, states, events, i, sink, cap, runs);
  }
}
