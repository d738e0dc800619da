/** Daily reconciliation of the audit archive against Postgres, for one tenant and one day. */
module Reconciliation {

  /** Event ids, ordered as the ids sort. */
  type Id = nat

  predicate IsLeast(m: Id, s: set<Id>) {
    m in s && forall x | x in s :: m <= x
  }

  lemma {:induction false} LeastExists(s: set<Id>)
    requires s != {}
    ensures exists m :: IsLeast(m, s)
    decreases |s|
  {
    var a :| a in s;
    var rest := s - {a};
    assert s == rest + {a};
    if rest == {} {
      assert IsLeast(a, s);
    } else {
      LeastExists(rest);
      var m :| IsLeast(m, rest);
      assert IsLeast(if a < m then a else m, s);
    }
  }

  /** `sorted(set)`. */
  function Sorted(s: set<Id>): seq<Id>
    decreases |s|
  {
    if s == {} then []
    else
      LeastExists(s);
      var m :| IsLeast(m, s);
      [m] + Sorted(s - {m})
  }

  function SetOf(ids: seq<Id>): set<Id> { set id | id in ids }

  lemma SetOfCons(id: Id, ids: seq<Id>)
    ensures SetOf([id] + ids) == {id} + SetOf(ids)
    ensures SetOf(ids + [id]) == SetOf(ids) + {id}
  {}

  predicate Increasing(ids: seq<Id>) {
    forall i, j | 0 <= i < j < |ids| :: ids[i] < ids[j]
  }

  lemma IncreasingCons(m: Id, ids: seq<Id>)
    requires Increasing(ids) && forall x | x in SetOf(ids) :: m < x
    ensures Increasing([m] + ids)
  {
    forall j | 0 <= j < |ids| ensures m < ids[j] { assert ids[j] in SetOf(ids); }
  }

  lemma SortedHead(s: set<Id>) returns (m: Id)
    requires s != {}
    ensures IsLeast(m, s) && Sorted(s) == [m] + Sorted(s - {m})
  {
    LeastExists(s);
    m :| IsLeast(m, s);
  }

  /** `Sorted` enumerates the set, strictly increasing. */
  lemma {:induction false} SortedEnumerates(s: set<Id>)
    ensures SetOf(Sorted(s)) == s && |Sorted(s)| == |s| && Increasing(Sorted(s))
    decreases |s|
  {
    if s != {} {
      var m := SortedHead(s);
      SortedEnumerates(s - {m});
      SetOfCons(m, Sorted(s - {m}));
      assert s == {m} + (s - {m});
      IncreasingCons(m, Sorted(s - {m}));
    }
  }

  datatype Drift = Drift(missingInS3: seq<Id>, missingInPg: seq<Id>, inBoth: nat)

  function DiffEventSets(pgIds: seq<Id>, s3Ids: seq<Id>): Drift {
    var pg, s3 := SetOf(pgIds), SetOf(s3Ids);
    Drift(Sorted(pg - s3), Sorted(s3 - pg), |pg * s3|)
  }

  /** The drift report accounts for every id of both stores exactly once. */
  lemma DriftAccountsForAll(pgIds: seq<Id>, s3Ids: seq<Id>)
    ensures var drift := DiffEventSets(pgIds, s3Ids);
            && SetOf(drift.missingInS3) == SetOf(pgIds) - SetOf(s3Ids)
            && SetOf(drift.missingInPg) == SetOf(s3Ids) - SetOf(pgIds)
            && |SetOf(pgIds)| == |drift.missingInS3| + drift.inBoth
            && |SetOf(s3Ids)| == |drift.missingInPg| + drift.inBoth
  {
    var pg, s3 := SetOf(pgIds), SetOf(s3Ids);
    SortedEnumerates(pg - s3);
    SortedEnumerates(s3 - pg);
    Partition(pg, s3);
    Partition(s3, pg);
    assert pg * s3 == s3 * pg;
  }

  lemma Partition(a: set<Id>, b: set<Id>)
    ensures |a| == |a - b| + |a * b|
  {
    assert a == (a - b) + (a * b);
    assert (a - b) !! (a * b);
  }

  /** The archive bucket: objects are added, never removed. */
  class Archive {
    var ids: set<Id>

    constructor (ids: set<Id>)
      ensures this.ids == ids
    {
      this.ids := ids;
    }

    method Put(id: Id)
      modifies this
      ensures ids == old(ids) + {id}
    {
      ids := ids + {id};
    }
  }

  datatype Report = Report(pgCount: nat, s3Count: nat, missingInS3: nat, missingInPg: nat, backfilled: nat)

  function Take(ids: seq<Id>, n: int): seq<Id> {
    if n <= 0 then [] else if n >= |ids| then ids else ids[..n]
  }

  /** Ids still present when fetched, in order. */
  function Present(ids: seq<Id>, gone: set<Id>): seq<Id> {
    if ids == [] then []
    else Present(ids[..|ids| - 1], gone) + if ids[|ids| - 1] in gone then [] else [ids[|ids| - 1]]
  }

  method Backfill(candidates: seq<Id>, archive: Archive, gone: set<Id>) returns (backfilled: nat)
    modifies archive
    ensures archive.ids == old(archive.ids) + SetOf(Present(candidates, gone))
    ensures backfilled == |Present(candidates, gone)|
  {
    backfilled := 0;
    var i := 0;
    while i < |candidates|
      invariant 0 <= i <= |candidates|
      invariant archive.ids == old(archive.ids) + SetOf(Present(candidates[..i], gone))
      invariant backfilled == |Present(candidates[..i], gone)|
    {
      assert candidates[..i + 1][..i] == candidates[..i];
      SetOfCons(candidates[i], Present(candidates[..i], gone));
      if candidates[i] !in gone {
        archive.Put(candidates[i]);
        backfilled := backfilled + 1;
      }
      i := i + 1;
    }
    assert candidates[..i] == candidates;
  }

  /**
   One reconciliation. `pgIds` and `s3Ids` are the two listings; the rows in `gone` are deleted between the
   listing and the fetch.
   */
  method ReconcileOneTenant(pgIds: seq<Id>, s3Ids: seq<Id>, archive: Archive, gone: set<Id>,
                            backfill: bool, maxBackfill: int)
    returns (report: Report)
    modifies archive
    ensures var drift := DiffEventSets(pgIds, s3Ids);
            var put := if backfill then Present(Take(drift.missingInS3, maxBackfill), gone) else [];
            && archive.ids == old(archive.ids) + SetOf(put)
            && report == Report(|pgIds|, |s3Ids|, |drift.missingInS3|, |drift.missingInPg|, |put|)
  {
    var drift := DiffEventSets(pgIds, s3Ids);
    var backfilled := 0;
    if backfill && drift.missingInS3 != [] && maxBackfill > 0 {
      backfilled := Backfill(Take(drift.missingInS3, maxBackfill), archive, gone);
    }
    report := Report(|pgIds|, |s3Ids|, |drift.missingInS3|, |drift.missingInPg|, backfilled);
  }

  // ---------------------------------------------------------------- runs on a quiescent day

  function Missing(pg: set<Id>, s3: set<Id>): seq<Id> { Sorted(pg - s3) }

  /** The archive after a run that got as far as `puts` uploads before ending or crashing. */
  function AfterPuts(pg: set<Id>, s3: set<Id>, puts: nat): set<Id> {
    s3 + SetOf(Take(Missing(pg, s3), puts))
  }

  /** A run that is not interrupted uploads as many as the cap allows. */
  function AfterRun(pg: set<Id>, s3: set<Id>, cap: nat): set<Id> {
    AfterPuts(pg, s3, cap)
  }

  lemma {:induction false} NoneGone(ids: seq<Id>)
    ensures Present(ids, {}) == ids
  {
    if ids != [] { NoneGone(ids[..|ids| - 1]); }
  }

  /** A run whose listings are exact and whose rows all still exist does what `AfterRun` says. */
  lemma ExactListingRun(pgIds: seq<Id>, s3Ids: seq<Id>, cap: nat)
    ensures SetOf(s3Ids) + SetOf(Present(Take(DiffEventSets(pgIds, s3Ids).missingInS3, cap), {}))
            == AfterRun(SetOf(pgIds), SetOf(s3Ids), cap)
  {
    NoneGone(Take(DiffEventSets(pgIds, s3Ids).missingInS3, cap));
  }

  lemma {:induction false} SortedRest(s: set<Id>, n: nat)
    requires n <= |Sorted(s)|
    ensures Sorted(s - SetOf(Sorted(s)[..n])) == Sorted(s)[n..]
    decreases n
  {
    if n == 0 {
      assert s - SetOf([]) == s;
    } else {
      var m := SortedHead(s);
      var rest := Sorted(s - {m});
      SortedRest(s - {m}, n - 1);
      assert Sorted(s)[..n] == [m] + rest[..n - 1];
      SetOfCons(m, rest[..n - 1]);
      assert s - ({m} + SetOf(rest[..n - 1])) == s - {m} - SetOf(rest[..n - 1]);
    }
  }

  lemma MissingAfterPuts(pg: set<Id>, s3: set<Id>, puts: nat)
    requires puts <= |Missing(pg, s3)|
    ensures Missing(pg, AfterPuts(pg, s3, puts)) == Missing(pg, s3)[puts..]
  {
    SortedRest(pg - s3, puts);
    assert Take(Missing(pg, s3), puts) == Missing(pg, s3)[..puts];
    assert pg - AfterPuts(pg, s3, puts) == (pg - s3) - SetOf(Missing(pg, s3)[..puts]);
  }

  lemma PutsCompose(pg: set<Id>, s3: set<Id>, a: nat, b: nat)
    requires a + b <= |Missing(pg, s3)|
    ensures AfterPuts(pg, AfterPuts(pg, s3, a), b) == AfterPuts(pg, s3, a + b)
  {
    MissingAfterPuts(pg, s3, a);
    var m := Missing(pg, s3);
    assert Take(m, a) == m[..a] && Take(m[a..], b) == m[a..][..b] && Take(m, a + b) == m[..a + b];
    assert m[..a] + m[a..][..b] == m[..a + b];
    assert SetOf(m[..a + b]) == SetOf(m[..a]) + SetOf(m[a..][..b]);
  }

  function Sum(counts: seq<nat>): nat {
    if counts == [] then 0 else Sum(counts[..|counts| - 1]) + counts[|counts| - 1]
  }

  /** Attempt `i` of a history made `counts[i]` uploads: no more than the cap and no more than were missing. */
  function AfterHistory(pg: set<Id>, s3: set<Id>, counts: seq<nat>): set<Id> {
    if counts == [] then s3 else AfterPuts(pg, AfterHistory(pg, s3, counts[..|counts| - 1]), counts[|counts| - 1])
  }

  ghost predicate Possible(pg: set<Id>, s3: set<Id>, counts: seq<nat>, cap: nat) {
    counts != [] ==>
      var n := |counts| - 1;
      && Possible(pg, s3, counts[..n], cap)
      && counts[n] <= cap && counts[n] <= |Missing(pg, AfterHistory(pg, s3, counts[..n]))|
  }

  /**
   Crashes and retries at any upload: after any history of attempts the archive is its start plus exactly the
   smallest missing ids, as many as there were uploads in all.
   */
  lemma {:induction false} HistoryFillsInOrder(pg: set<Id>, s3: set<Id>, counts: seq<nat>, cap: nat)
    requires Possible(pg, s3, counts, cap)
    ensures Sum(counts) <= |Missing(pg, s3)|
    ensures AfterHistory(pg, s3, counts) == AfterPuts(pg, s3, Sum(counts))
  {
    if counts == [] {
      assert AfterPuts(pg, s3, 0) == s3;
    } else {
      var n := |counts| - 1;
      HistoryFillsInOrder(pg, s3, counts[..n], cap);
      MissingAfterPuts(pg, s3, Sum(counts[..n]));
      PutsCompose(pg, s3, Sum(counts[..n]), counts[n]);
    }
  }

  /** So the archive only grows, only by Postgres ids, and what only the archive has stays. */
  lemma HistoryIsSafe(pg: set<Id>, s3: set<Id>, counts: seq<nat>, cap: nat)
    requires Possible(pg, s3, counts, cap)
    ensures s3 <= AfterHistory(pg, s3, counts) <= s3 + pg
    ensures AfterHistory(pg, s3, counts) - pg == s3 - pg
  {
    HistoryFillsInOrder(pg, s3, counts, cap);
    SortedEnumerates(pg - s3);
    assert SetOf(Take(Missing(pg, s3), Sum(counts))) <= SetOf(Missing(pg, s3));
  }

  // ---------------------------------------------------------------- convergence

  function AfterRuns(pg: set<Id>, s3: set<Id>, cap: nat, runs: nat): set<Id> {
    if runs == 0 then s3 else AfterRun(pg, AfterRuns(pg, s3, cap, runs - 1), cap)
  }

  function Min(a: nat, b: nat): nat { if a < b then a else b }

  lemma TakeAtMost(pg: set<Id>, s3: set<Id>, n: nat)
    ensures AfterPuts(pg, s3, n) == AfterPuts(pg, s3, Min(n, |Missing(pg, s3)|))
  {}

  /** Fault-free runs: `runs` of them upload exactly the `min(runs * cap, missing)` smallest missing ids. */
  lemma {:induction false} RunsFillByCap(pg: set<Id>, s3: set<Id>, cap: nat, runs: nat)
    ensures AfterRuns(pg, s3, cap, runs) == AfterPuts(pg, s3, Min(runs * cap, |Missing(pg, s3)|))
  {
    var m := |Missing(pg, s3)|;
    if runs == 0 {
      assert AfterPuts(pg, s3, 0) == s3;
    } else {
      var before := Min((runs - 1) * cap, m);
      RunsFillByCap(pg, s3, cap, runs - 1);
      MissingAfterPuts(pg, s3, before);
      TakeAtMost(pg, AfterPuts(pg, s3, before), cap);
      PutsCompose(pg, s3, before, Min(cap, m - before));
      assert runs * cap == (runs - 1) * cap + cap;
    }
  }

  /** The gap is closed exactly when the runs so far could upload all that was missing: after ceil(m / cap) of them. */
  lemma GapClosesExactlyOnTime(pg: set<Id>, s3: set<Id>, cap: nat, runs: nat)
    ensures pg <= AfterRuns(pg, s3, cap, runs) <==> runs * cap >= |pg - s3|
  {
    var m := Missing(pg, s3);
    var n := Min(runs * cap, |m|);
    RunsFillByCap(pg, s3, cap, runs);
    SortedEnumerates(pg - s3);
    if n < |m| {
      assert m[n] in SetOf(m) && m[n] !in SetOf(Take(m, n));
      assert m[n] !in AfterPuts(pg, s3, n);
    } else {
      assert Take(m, n) == m;
    }
  }
}
