/** What ingestion leaves behind: the right version, the right rows, and the statuses and counts of jobs and documents. */
module IngestionResults {
  import opened Options
  import opened Ingestion

  // ---------------------------------------------------------------- the version row of a content

  predicate IsRowOf(versions: seq<Version>, k: nat, document: Id, hash: nat) {
    k < |versions| && versions[k].document == document && versions[k].hash == hash
  }

  /** `id` is the version of this document with this content, and there is no other. */
  ghost predicate IsVersionOf(versions: seq<Version>, id: Id, document: Id, hash: nat) {
    && (exists k: nat :: IsRowOf(versions, k, document, hash) && versions[k].id == id)
    && (forall k | 0 <= k < |versions| :: versions[k].id == id <==> IsRowOf(versions, k, document, hash))
  }

  lemma RowIsVersion(t: Tables, k: nat, document: Id, hash: nat)
    requires Inv(t) && IsRowOf(t.versions, k, document, hash)
    ensures IsVersionOf(t.versions, t.versions[k].id, document, hash)
  {
    forall j | 0 <= j < |t.versions| ensures t.versions[j].id == t.versions[k].id <==> IsRowOf(t.versions, j, document, hash) {
      assert j < k || j == k || k < j;
    }
  }

  /** The upsert returns the version of this document with this content: the existing one, or a new row. */
  lemma UpsertReturnsItsVersion(t: Tables, document: Id, hash: nat, uri: nat)
    requires Inv(t)
    ensures var (t', id) := UpsertVersion(t, document, hash, uri);
            && IsVersionOf(t'.versions, id, document, hash)
            && ((exists k: nat :: IsRowOf(t.versions, k, document, hash)) ==> t' == t)
            && t.versions <= t'.versions && |t'.versions| <= |t.versions| + 1
  {
    FindVersionFinds(t.versions, document, hash);
    UpsertKeeps(t, document, hash, uri);
    var (t', id) := UpsertVersion(t, document, hash, uri);
    var found := FindVersion(t.versions, document, hash);
    var k := if found.Some? then found.value else |t.versions|;
    assert IsRowOf(t'.versions, k, document, hash) && t'.versions[k].id == id;
    RowIsVersion(t', k, document, hash);
  }

  lemma SetUriKeepsVersion(versions: seq<Version>, id: Id, uri: nat, document: Id, hash: nat)
    requires IsVersionOf(versions, id, document, hash)
    ensures IsVersionOf(SetUri(versions, id, uri), id, document, hash)
    ensures forall k | 0 <= k < |versions| ::
              SetUri(versions, id, uri)[k] == if IsRowOf(versions, k, document, hash) then versions[k].(uri := uri, parsed := true) else versions[k]
  {
    var vs := SetUri(versions, id, uri);
    var k: nat :| IsRowOf(versions, k, document, hash) && versions[k].id == id;
    assert IsRowOf(vs, k, document, hash) && vs[k].id == id;
    assert forall j: nat | j < |versions| :: IsRowOf(vs, j, document, hash) == IsRowOf(versions, j, document, hash);
  }

  /** The version table after a workflow: the content's own row points at the parsed text, all other rows are as before. */
  ghost predicate VersionRecorded(before: seq<Version>, after: seq<Version>, input: Input, id: Id) {
    && IsVersionOf(after, id, input.document, input.hash)
    && |before| <= |after| <= |before| + 1
    && (forall k | 0 <= k < |after| ::
          if IsRowOf(after, k, input.document, input.hash) then after[k].uri == input.rawTextUri && after[k].parsed
          else k < |before| && after[k] == before[k])
  }

  lemma RecordedFrom(before: seq<Version>, begun: seq<Version>, input: Input, id: Id)
    requires IsVersionOf(begun, id, input.document, input.hash) && before <= begun && |begun| <= |before| + 1
    requires |begun| > |before| ==> IsRowOf(begun, |before|, input.document, input.hash)
    ensures VersionRecorded(before, SetUri(begun, id, input.rawTextUri), input, id)
  {
    SetUriKeepsVersion(begun, id, input.rawTextUri, input.document, input.hash);
    var after := SetUri(begun, id, input.rawTextUri);
    hide IsVersionOf;
    forall k | 0 <= k < |after|
      ensures if IsRowOf(after, k, input.document, input.hash) then after[k].uri == input.rawTextUri && after[k].parsed
              else k < |before| && after[k] == before[k]
    {
      assert IsRowOf(after, k, input.document, input.hash) == IsRowOf(begun, k, input.document, input.hash);
      assert k < |before| ==> begun[k] == before[k];
    }
  }

  lemma PreparedVersion(t: Tables, input: Input)
    requires Inv(t)
    ensures VersionRecorded(t.versions, Prepared(t, input).0.versions, input, Prepared(t, input).1)
  {
    var running := MarkRunning(t, input.job, input.document);
    StatusKeeps(t, input.job, input.document, 0);
    assert running.versions == t.versions;
    hide Inv, MarkRunning, UpsertVersion, IsVersionOf, VersionRecorded;
    UpsertReturnsItsVersion(running, input.document, input.hash, input.uri);
    AppendedIsTheRow(running, input.document, input.hash, input.uri);
    var (begun, id) := UpsertVersion(running, input.document, input.hash, input.uri);
    RecordedFrom(t.versions, begun.versions, input, id);
  }

  lemma AppendedIsTheRow(t: Tables, document: Id, hash: nat, uri: nat)
    ensures var t' := UpsertVersion(t, document, hash, uri).0;
            |t'.versions| > |t.versions| ==> IsRowOf(t'.versions, |t.versions|, document, hash)
  {}

  // ---------------------------------------------------------------- success

  /**
   Embedding again replaces one model's vectors of one version: each of its chunks has the vector of its content, and
   every other embedding, of other models or other versions, is as it was.
   */
  lemma EmbeddingReplacesOneModel(t: Tables, version: Id, model: Model, embed: Content -> Vector, id: Id, m: Model)
    requires id in t.chunks
    ensures var after := EmbedChunks(t, version, model, embed);
            && after.chunks == t.chunks && after.versions == t.versions
            && if t.chunks[id].version == version && m == model
               then (id, m) in after.embeddings && after.embeddings[(id, m)] == embed(t.chunks[id].content)
               else ((id, m) in after.embeddings <==> (id, m) in t.embeddings)
                    && ((id, m) in t.embeddings ==> after.embeddings[(id, m)] == t.embeddings[(id, m)])
  {
    var wiped := WipeEmbeddings(t, version, model);
    var ids := VersionChunks(wiped, version);
    assert ids == VersionChunks(t, version);
    assert Insertable(wiped, ids, model);
    assert id in ids <==> t.chunks[id].version == version;
  }

  /**
   However attempts were cut, success leaves the one version row of this document and content pointing at the parsed
   text, exactly the document's chunks under that version, each embedded exactly once, and all other version rows,
   chunks and embeddings as they were.
   */
  lemma SuccessIsComplete(t: Tables, input: Input, embed: Content -> Vector, r: Retries) returns (version: Id)
    requires Inv(t)
    ensures var final := Workflow(t, input, embed, r);
            && VersionRecorded(t.versions, final.versions, input, version)
            && Complete(final, input, version, embed) && OthersAgree(t, final, version)
  {
    version := Prepared(t, input).1;
    hide Workflow, Prepared, Inv, Complete, OthersAgree, VersionRecorded;
    CompleteAtPrepared(t, input, embed, r);
    PreparedVersion(t, input);
  }

  /**
   Retry refines a clean run: the same versions, job, document status and untouched rows, and the same chunk rows and
   embeddings for this document's version, up to which row ids the database handed out.
   */
  lemma RetryRefinesCleanRun(t: Tables, input: Input, embed: Content -> Vector, r: Retries, version: Id)
    requires Inv(t) && IsVersionOf(Workflow(t, input, embed, NO_RETRIES).versions, version, input.document, input.hash)
    ensures SameUpToIds(Workflow(t, input, embed, NO_RETRIES), Workflow(t, input, embed, r), input, version)
  {
    var clean := Workflow(t, input, embed, NO_RETRIES);
    hide Workflow, Prepared, Inv, SameUpToIds;
    RetryAgreesAtPrepared(t, input, embed, r);
    CompleteAtPrepared(t, input, embed, NO_RETRIES);
    PreparedVersion(t, input);
    var k: nat :| IsRowOf(clean.versions, k, input.document, input.hash) && clean.versions[k].id == version;
    assert clean.versions[k].id == Prepared(t, input).1;
  }

  // ---------------------------------------------------------------- documents

  function DocumentStatusOf(tx: Transaction, document: Id): Option<DocumentStatus> {
    match tx
    case TMarkRunning(_, d) => if d == document then Some(Processing) else None
    case TMarkFailed(_, d) => if d == document then Some(Broken) else None
    case TFinalize(_, d, _) => if d == document then Some(Indexed) else None
    case _ => None
  }

  /** The latest status any of the transactions gives the document. */
  function LatestStatus(txs: seq<Transaction>, document: Id, start: DocumentStatus): DocumentStatus {
    if txs == [] then start
    else
      var status := DocumentStatusOf(txs[|txs| - 1], document);
      if status.Some? then status.value else LatestStatus(txs[..|txs| - 1], document, start)
  }

  lemma DocumentStep(t: Tables, tx: Transaction, document: Id)
    requires document in t.documents
    ensures document in Execute(t, tx).documents
    ensures Execute(t, tx).documents[document]
            == if DocumentStatusOf(tx, document).Some? then DocumentStatusOf(tx, document).value else t.documents[document]
  {
    hide Done, With, Others, Drop, DropModel, VersionChunks, FindVersion, MaxNumber, NewEmbeddings, Insertable;
    if tx.TChunk? { ChunksKeepStatus(DeleteChunks(t, tx.version), tx.document, tx.version, tx.contents); }
  }

  /** In any interleaving, a document's status is what its latest status write says. */
  lemma {:induction false} DocumentFollowsItsEvents(t: Tables, txs: seq<Transaction>, document: Id)
    requires document in t.documents
    ensures document in ExecuteAll(t, txs).documents
    ensures ExecuteAll(t, txs).documents[document] == LatestStatus(txs, document, t.documents[document])
  {
    hide Execute, DocumentStatusOf;
    if txs != [] {
      var init := txs[..|txs| - 1];
      DocumentFollowsItsEvents(t, init, document);
      DocumentStep(ExecuteAll(t, init), txs[|txs| - 1], document);
    }
  }

  // ---------------------------------------------------------------- counting documents of a shared job

  predicate Touches(tx: Transaction, job: Id) {
    match tx
    case TMarkRunning(j, _) => j == job
    case TMarkFailed(j, _) => j == job
    case TFinalize(j, _, _) => j == job
    case _ => false
  }

  /** The transactions of any workflows that concern one job, in order. */
  function JobEvents(txs: seq<Transaction>, job: Id): seq<Transaction> {
    if txs == [] then []
    else JobEvents(txs[..|txs| - 1], job) + if Touches(txs[|txs| - 1], job) then [txs[|txs| - 1]] else []
  }

  function StepJob(j: Job, tx: Transaction): Job {
    match tx
    case TMarkRunning(_, _) => With(Running)(j)
    case TMarkFailed(_, _) => With(Failed)(j)
    case TFinalize(_, _, chunksCreated) => Done(chunksCreated)(j)
    case _ => j
  }

  function JobAfter(j: Job, events: seq<Transaction>): Job {
    if events == [] then j else StepJob(JobAfter(j, events[..|events| - 1]), events[|events| - 1])
  }

  lemma {:induction false} ChunksKeepStatus(t: Tables, document: Id, version: Id, contents: seq<Content>)
    ensures InsertChunks(t, document, version, contents).jobs == t.jobs
    ensures InsertChunks(t, document, version, contents).documents == t.documents
  {
    if contents != [] { ChunksKeepStatus(t, document, version, contents[..|contents| - 1]); }
  }

  lemma StepFollows(t: Tables, tx: Transaction, job: Id)
    requires job in t.jobs
    ensures job in Execute(t, tx).jobs
    ensures Execute(t, tx).jobs[job] == if Touches(tx, job) then StepJob(t.jobs[job], tx) else t.jobs[job]
  {
    hide Done, With, Others, Drop, DropModel, VersionChunks, FindVersion, MaxNumber, NewEmbeddings, Insertable;
    if tx.TChunk? { ChunksKeepStatus(DeleteChunks(t, tx.version), tx.document, tx.version, tx.contents); }
  }

  /** In any interleaving, a job's row is decided by its own events alone. */
  lemma {:induction false} JobFollowsItsEvents(t: Tables, txs: seq<Transaction>, job: Id)
    requires job in t.jobs
    ensures job in ExecuteAll(t, txs).jobs
    ensures ExecuteAll(t, txs).jobs[job] == JobAfter(t.jobs[job], JobEvents(txs, job))
  {
    hide Execute, StepJob;
    if txs != [] {
      var init, tx := txs[..|txs| - 1], txs[|txs| - 1];
      JobFollowsItsEvents(t, init, job);
      StepFollows(ExecuteAll(t, init), tx, job);
      var events := JobEvents(init, job);
      assert JobEvents(txs, job) == if Touches(tx, job) then events + [tx] else events;
      assert (events + [tx])[..|events|] == events;
    }
  }

  predicate Finalizes(events: seq<Transaction>, i: nat) {
    i < |events| && events[i].TFinalize?
  }

  /** Finalizations that are not directly preceded by another one. */
  function Counted(events: seq<Transaction>): nat {
    if events == [] then 0
    else
      var n := |events| - 1;
      Counted(events[..n]) + if events[n].TFinalize? && !(n > 0 && events[n - 1].TFinalize?) then 1 else 0
  }

  function Finalizations(events: seq<Transaction>): nat {
    if events == [] then 0
    else Finalizations(events[..|events| - 1]) + if events[|events| - 1].TFinalize? then 1 else 0
  }

  predicate JobOnly(events: seq<Transaction>) {
    forall i | 0 <= i < |events| :: events[i].TMarkRunning? || events[i].TMarkFailed? || events[i].TFinalize?
  }

  lemma {:induction false} ProcessedIsCounted(j: Job, events: seq<Transaction>)
    requires JobOnly(events) && j.status != Completed && j.processed <= j.total
    ensures var j' := JobAfter(j, events);
            && j'.total == j.total && j'.processed == Least(j.total, j.processed + Counted(events))
            && (j'.status == Completed <==> events != [] && events[|events| - 1].TFinalize?)
  {
    if events != [] { ProcessedIsCounted(j, events[..|events| - 1]); }
  }

  predicate NoTwoInARow(events: seq<Transaction>) {
    forall i | 0 < i < |events| :: !(Finalizes(events, i - 1) && Finalizes(events, i))
  }

  lemma {:induction false} CountedAtMost(events: seq<Transaction>)
    ensures Counted(events) <= Finalizations(events)
    ensures Counted(events) == Finalizations(events) <==> NoTwoInARow(events)
  {
    if events != [] {
      var n := |events| - 1;
      var init := events[..n];
      CountedAtMost(init);
      assert forall i: nat | i < n :: Finalizes(init, i) == Finalizes(events, i);
      if NoTwoInARow(events) {
        forall i | 0 < i < n ensures !(Finalizes(init, i - 1) && Finalizes(init, i)) {
          assert !(Finalizes(events, i - 1) && Finalizes(events, i));
        }
        assert n > 0 ==> !(Finalizes(events, n - 1) && Finalizes(events, n));
      }
      if NoTwoInARow(init) {
        forall i | 0 < i < n ensures !(Finalizes(events, i - 1) && Finalizes(events, i)) {
          assert !(Finalizes(init, i - 1) && Finalizes(init, i));
        }
      }
    }
  }

  /**
   A job that fans out over several documents counts them all exactly when no two finalizations follow each
   other without another status write of the job in between.
   */
  lemma AllCountedIffNeverTwoInARow(j: Job, events: seq<Transaction>)
    requires JobOnly(events) && j.status != Completed && j.processed + Finalizations(events) <= j.total
    ensures JobAfter(j, events).processed == j.processed + Finalizations(events) <==> NoTwoInARow(events)
  {
    ProcessedIsCounted(j, events);
    CountedAtMost(events);
  }

  /** Finalizations by another name: counting stops at zero exactly when there is none. */
  lemma {:induction false} CountedIfAny(events: seq<Transaction>)
    ensures Counted(events) > 0 <==> Finalizations(events) > 0
    ensures events != [] && events[|events| - 1].TFinalize? ==> Counted(events) > 0
  {
    if events != [] { CountedIfAny(events[..|events| - 1]); }
  }

  lemma {:induction false} JobEventsOnly(txs: seq<Transaction>, job: Id)
    ensures JobOnly(JobEvents(txs, job))
  {
    if txs != [] { JobEventsOnly(txs[..|txs| - 1], job); }
  }

  /**
   The jobs the API creates have one document: however workflows and retries interleave, such a job counts it
   exactly once, from the first finalization on.
   */
  lemma SingleDocumentCounted(t: Tables, txs: seq<Transaction>, job: Id)
    requires job in t.jobs && t.jobs[job].status != Completed && t.jobs[job].total == 1 && t.jobs[job].processed == 0
    ensures var final := ExecuteAll(t, txs);
            && job in final.jobs && final.jobs[job].total == 1
            && final.jobs[job].processed == if Finalizations(JobEvents(txs, job)) > 0 then 1 else 0
  {
    JobFollowsItsEvents(t, txs, job);
    JobEventsOnly(txs, job);
    ProcessedIsCounted(t.jobs[job], JobEvents(txs, job));
    CountedIfAny(JobEvents(txs, job));
    hide ExecuteAll, JobAfter, Counted, Finalizations;
  }

  /**
   No caller creates a job of two documents. If one did, two documents ingested side by side would complete it
   with one of two counted.
   */
  lemma FanOutCanUndercount(job: Id, a: Id, b: Id, chunks: nat)
    ensures JobAfter(Job(Queued, 2, 0, 0),
                     [TMarkRunning(job, a), TMarkRunning(job, b), TFinalize(job, a, chunks), TFinalize(job, b, chunks)])
            == Job(Completed, 2, 1, chunks)
  {
    var e1, e2 := [TMarkRunning(job, a)], [TMarkRunning(job, a), TMarkRunning(job, b)];
    var e3 := e2 + [TFinalize(job, a, chunks)];
    var e4 := e3 + [TFinalize(job, b, chunks)];
    assert e1[..0] == [] && e2[..1] == e1 && e3[..2] == e2 && e4[..3] == e3;
    assert e4 == [TMarkRunning(job, a), TMarkRunning(job, b), TFinalize(job, a, chunks), TFinalize(job, b, chunks)];
    assert JobAfter(Job(Queued, 2, 0, 0), e1) == Job(Running, 2, 0, 0);
    assert JobAfter(Job(Queued, 2, 0, 0), e2) == Job(Running, 2, 0, 0);
    assert JobAfter(Job(Queued, 2, 0, 0), e3) == Job(Completed, 2, 1, chunks);
  }
}
