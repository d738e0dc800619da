/**
 Audit dual-write: a synchronous primary write inside the request's transaction, then one fire-and-forget
 task per secondary sink.  Tasks of different events finish in any order.
 */
module DualWrite {
  import opened Reconciliation

  datatype Task = Task(id: Id, sink: nat)

  /**
   `recorded` holds the events whose primary write returned; `undecided` those of them whose transaction is
   still open and `committed` those whose transaction committed.  `held[s]` is what secondary sink `s` stores.
   */
  datatype State = State(
    recorded: set<Id>, undecided: set<Id>, committed: set<Id>,
    inflight: set<Task>, failed: set<Task>, held: seq<set<Id>>)

  datatype Event =
    | Record(id: Id)
    | Succeed(task: Task)
    | Fail(task: Task)
    | Commit(id: Id)
    | Rollback(id: Id)

  predicate Enabled(s: State, e: Event) {
    match e
    case Record(id) => id !in s.recorded
    case Succeed(task) => task in s.inflight && task.sink < |s.held|
    case Fail(task) => task in s.inflight
    case Commit(id) => id in s.undecided
    case Rollback(id) => id in s.undecided
  }

  function Apply(s: State, e: Event): State
    requires Enabled(s, e)
  {
    match e
    case Record(id) =>
      s.(recorded := s.recorded + {id}, undecided := s.undecided + {id},
         inflight := s.inflight + set sink: nat | sink < |s.held| :: Task(id, sink))
    case Succeed(task) =>
      s.(inflight := s.inflight - {task}, held := s.held[task.sink := s.held[task.sink] + {task.id}])
    case Fail(task) => s.(inflight := s.inflight - {task}, failed := s.failed + {task})
    case Commit(id) => s.(undecided := s.undecided - {id}, committed := s.committed + {id})
    case Rollback(id) => s.(undecided := s.undecided - {id})
  }

  predicate Initial(s: State) {
    && s.recorded == s.undecided == s.committed == {}
    && s.inflight == s.failed == {}
    && forall sink | 0 <= sink < |s.held| :: s.held[sink] == {}
  }

  ghost predicate Behaviour(states: seq<State>, events: seq<Event>) {
    && |states| == |events| + 1 && Initial(states[0])
    && forall k | 0 <= k < |events| :: Enabled(states[k], events[k]) && states[k + 1] == Apply(states[k], events[k])
  }

  /** Exactly one attempt of `id` at `sink`, in exactly one of the three places it can be. */
  predicate OneAttempt(s: State, id: Id, sink: nat)
    requires sink < |s.held|
  {
    var t := Task(id, sink);
    || (t in s.inflight && t !in s.failed && id !in s.held[sink])
    || (t !in s.inflight && t in s.failed && id !in s.held[sink])
    || (t !in s.inflight && t !in s.failed && id in s.held[sink])
  }

  ghost predicate Inv(s: State) {
    && s.undecided <= s.recorded && s.committed <= s.recorded && s.undecided !! s.committed
    && (forall t | t in s.inflight + s.failed :: t.id in s.recorded && t.sink < |s.held|)
    && (forall sink | 0 <= sink < |s.held| :: s.held[sink] <= s.recorded)
    && (forall id, sink | id in s.recorded && 0 <= sink < |s.held| :: OneAttempt(s, id, sink))
  }

  lemma InvStep(s: State, e: Event)
    requires Inv(s) && Enabled(s, e)
    ensures Inv(Apply(s, e)) && |Apply(s, e).held| == |s.held|
  {
    var s' := Apply(s, e);
    forall id, sink | id in s'.recorded && 0 <= sink < |s'.held| ensures OneAttempt(s', id, sink) {
      if id in s.recorded {
        assert OneAttempt(s, id, sink);
      } else {
        assert Task(id, sink) in s'.inflight;
        assert s.held[sink] <= s.recorded;
      }
    }
  }

  /**
   In every interleaving a secondary holds only events whose primary write returned, and each such event has
   had exactly one attempt per secondary.
   */
  lemma {:induction false} OneAttemptPerSink(states: seq<State>, events: seq<Event>, k: nat)
    requires Behaviour(states, events) && k < |states|
    ensures Inv(states[k]) && |states[k].held| == |states[0].held|
  {
    if k > 0 {
      OneAttemptPerSink(states, events, k - 1);
      InvStep(states[k - 1], events[k - 1]);
    }
  }

  /** What a transaction decided stays decided. */
  lemma {:induction false} DecisionStays(states: seq<State>, events: seq<Event>, m: nat, k: nat, id: Id)
    requires Behaviour(states, events) && m < k < |states| && (events[m] == Commit(id) || events[m] == Rollback(id))
    ensures id in states[k].recorded && id !in states[k].undecided
    ensures id in states[k].committed <==> events[m] == Commit(id)
  {
    OneAttemptPerSink(states, events, k - 1);
    assert Enabled(states[k - 1], events[k - 1]) && states[k] == Apply(states[k - 1], events[k - 1]);
    if m + 1 < k { DecisionStays(states, events, m, k - 1, id); }
  }

  function FailedAt(s: State, sink: nat): set<Id> {
    set t | t in s.failed && t.sink == sink :: t.id
  }

  /** After a drain, what a secondary lacks is exactly what failed there. */
  lemma GapIsFailures(states: seq<State>, events: seq<Event>, k: nat, sink: nat)
    requires Behaviour(states, events) && k < |states| && sink < |states[k].held|
    requires states[k].inflight == {}
    ensures states[k].recorded - states[k].held[sink] == FailedAt(states[k], sink)
  {
    OneAttemptPerSink(states, events, k);
    var s := states[k];
    forall id | id in s.recorded - s.held[sink] ensures id in FailedAt(s, sink) {
      assert OneAttempt(s, id, sink);
      assert Task(id, sink) in s.failed;
    }
    forall id | id in FailedAt(s, sink) ensures id in s.recorded - s.held[sink] {
      assert Task(id, sink) in s.failed;
      assert OneAttempt(s, id, sink);
    }
  }

  /**
   The audit trail as a whole: once every task and transaction has settled, enough reconciliation runs put
   every committed event in the archive; rolled-back events that reached the archive stay there as orphans.
   */
  lemma EveryCommittedEventArchived(states: seq<State>, events: seq<Event>, k: nat, sink: nat, cap: nat, runs: nat)
    requires Behaviour(states, events) && k < |states| && sink < |states[k].held|
    requires states[k].inflight == {} && states[k].undecided == {}
    ensures var s := states[k];
            var archive := AfterRuns(s.committed, s.held[sink], cap, runs);
            && (s.committed <= archive <==> runs * cap >= |s.committed * FailedAt(s, sink)|)
            && archive - s.committed == s.recorded - s.committed - FailedAt(s, sink)
  {
    var s := states[k];
    OneAttemptPerSink(states, events, k);
    GapIsFailures(states, events, k, sink);
    assert s.held[sink] <= s.recorded;
    assert s.committed - s.held[sink] == s.committed * FailedAt(s, sink);
    GapClosesExactlyOnTime(s.committed, s.held[sink], cap, runs);
    RunsFillByCap(s.committed, s.held[sink], cap, runs);
    SortedEnumerates(s.committed - s.held[sink]);
    var m := Missing(s.committed, s.held[sink]);
    assert SetOf(Take(m, Min(runs * cap, |m|))) <= SetOf(m);
    assert s.held[sink] == s.recorded - FailedAt(s, sink);
    hide Missing, Take, FailedAt, AfterRuns;
  }
}
