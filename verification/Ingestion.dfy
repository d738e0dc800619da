/**
 The ingestion activities as database transactions, and the workflow that retries them at least once.

 An attempt can be cut at any transaction boundary: before it commits (no effect), or after it commits but
 before its result is recorded (the effect stays and the activity runs again).
 */
module Ingestion {
  import opened Options

  type Id = nat
  type Model = nat
  type Content = nat
  type Vector = nat

  datatype Version = Version(id: Id, document: Id, number: nat, hash: nat, uri: nat, parsed: bool)

  datatype ChunkRow = ChunkRow(document: Id, version: Id, index: nat, content: Content)

  datatype JobStatus = Queued | Running | Completed | Failed
  datatype Job = Job(status: JobStatus, total: nat, processed: nat, chunksCreated: nat)
  datatype DocumentStatus = Pending | Processing | Indexed | Broken

  /**
   `chunks` and `embeddings` are keyed by their unique columns: chunk id, and chunk id with model.
   Row ids are drawn from `nextId`.
   */
  datatype Tables = Tables(
    versions: seq<Version>,
    chunks: map<Id, ChunkRow>,
    embeddings: Embeddings,
    jobs: map<Id, Job>,
    documents: map<Id, DocumentStatus>,
    nextId: Id)

  // ---------------------------------------------------------------- transactions

  function SetJob(t: Tables, job: Id, update: Job -> Job): Tables {
    if job in t.jobs then t.(jobs := t.jobs[job := update(t.jobs[job])]) else t
  }

  function SetDocument(t: Tables, document: Id, status: DocumentStatus): Tables {
    if document in t.documents then t.(documents := t.documents[document := status]) else t
  }

  function MarkRunning(t: Tables, job: Id, document: Id): Tables {
    SetDocument(SetJob(t, job, With(Running)), document, Processing)
  }

  function MarkFailed(t: Tables, job: Id, document: Id): Tables {
    SetDocument(SetJob(t, job, With(Failed)), document, Broken)
  }

  function With(status: JobStatus): Job -> Job {
    (j: Job) => j.(status := status)
  }

  /** Index of the version of a document with a content hash. */
  function FindVersion(versions: seq<Version>, document: Id, hash: nat): Option<nat> {
    if versions == [] then None
    else
      var n := |versions| - 1;
      var earlier := FindVersion(versions[..n], document, hash);
      if earlier.Some? then earlier
      else if versions[n].document == document && versions[n].hash == hash then Some(n) else None
  }

  /** `COALESCE(MAX(version_number), 0)`. */
  function MaxNumber(versions: seq<Version>, document: Id): nat {
    if versions == [] then 0
    else
      var n := |versions| - 1;
      var m := MaxNumber(versions[..n], document);
      if versions[n].document == document && versions[n].number > m then versions[n].number else m
  }

  function UpsertVersion(t: Tables, document: Id, hash: nat, uri: nat): (Tables, Id) {
    var found := FindVersion(t.versions, document, hash);
    if found.Some? && found.value < |t.versions| then (t, t.versions[found.value].id)
    else
      var row := Version(t.nextId, document, MaxNumber(t.versions, document) + 1, hash, uri, false);
      (t.(versions := t.versions + [row], nextId := t.nextId + 1), t.nextId)
  }

  function SetUri(versions: seq<Version>, version: Id, uri: nat): seq<Version> {
    seq(|versions|, i requires 0 <= i < |versions| =>
      if versions[i].id == version then versions[i].(uri := uri, parsed := true) else versions[i])
  }

  function UpdateUri(t: Tables, version: Id, uri: nat): Tables {
    t.(versions := SetUri(t.versions, version, uri))
  }

  function VersionChunks(t: Tables, version: Id): set<Id> {
    set id | id in t.chunks && t.chunks[id].version == version
  }

  /** Rows of other versions. */
  function Others(chunks: map<Id, ChunkRow>, version: Id): map<Id, ChunkRow> {
    map id | id in chunks && chunks[id].version != version :: chunks[id]
  }

  type Embeddings = map<(Id, Model), Vector>

  function Drop(embeddings: Embeddings, ids: set<Id>): Embeddings {
    map key | key in embeddings && key.0 !in ids :: embeddings[key]
  }

  function DropModel(embeddings: Embeddings, ids: set<Id>, model: Model): Embeddings {
    map key | key in embeddings && !(key.0 in ids && key.1 == model) :: embeddings[key]
  }

  /** Delete the version's chunks; the foreign key cascades to their embeddings. */
  function DeleteChunks(t: Tables, version: Id): Tables {
    t.(chunks := Others(t.chunks, version), embeddings := Drop(t.embeddings, VersionChunks(t, version)))
  }

  function InsertChunk(t: Tables, row: ChunkRow): Tables {
    t.(chunks := t.chunks[t.nextId := row], nextId := t.nextId + 1)
  }

  function InsertChunks(t: Tables, document: Id, version: Id, contents: seq<Content>): Tables {
    if contents == [] then t
    else
      var n := |contents| - 1;
      InsertChunk(InsertChunks(t, document, version, contents[..n]), ChunkRow(document, version, n, contents[n]))
  }

  function ChunkAndPersist(t: Tables, document: Id, version: Id, contents: seq<Content>): Tables {
    InsertChunks(DeleteChunks(t, version), document, version, contents)
  }

  /** First transaction of `embed_chunks`: wipe this model's embeddings of the version. */
  function WipeEmbeddings(t: Tables, version: Id, model: Model): Tables {
    t.(embeddings := DropModel(t.embeddings, VersionChunks(t, version), model))
  }

  /**
   Second transaction: one row per chunk read earlier. A chunk that is gone violates the foreign key and a
   chunk already embedded violates uniqueness; either aborts the transaction.
   */
  function InsertEmbeddings(t: Tables, ids: set<Id>, model: Model, embed: Content -> Vector): Tables {
    if Insertable(t, ids, model) then t.(embeddings := t.embeddings + NewEmbeddings(t.chunks, ids, model, embed)) else t
  }

  predicate Insertable(t: Tables, ids: set<Id>, model: Model) {
    forall id | id in ids :: id in t.chunks && (id, model) !in t.embeddings
  }

  function NewEmbeddings(chunks: map<Id, ChunkRow>, ids: set<Id>, model: Model, embed: Content -> Vector): Embeddings {
    map key | key in (set id | id in ids && id in chunks :: (id, model)) :: embed(chunks[key.0].content)
  }

  function EmbedChunks(t: Tables, version: Id, model: Model, embed: Content -> Vector): Tables {
    var wiped := WipeEmbeddings(t, version, model);
    InsertEmbeddings(wiped, VersionChunks(wiped, version), model, embed)
  }

  function Finalize(t: Tables, job: Id, document: Id, chunksCreated: nat): Tables {
    SetJob(SetDocument(t, document, Indexed), job, Done(chunksCreated))
  }

  /** A job already completed is not counted again. */
  function Done(chunksCreated: nat): Job -> Job {
    (j: Job) => Job(Completed, j.total,
                    if j.status == Completed then j.processed
                    else if j.processed + 1 <= j.total then j.processed + 1 else j.total,
                    chunksCreated)
  }

  // ---------------------------------------------------------------- the loops, in place

  class Database {
    var tables: Tables

    constructor (tables: Tables)
      ensures this.tables == tables
    {
      this.tables := tables;
    }

    method PersistChunks(document: Id, version: Id, contents: seq<Content>) returns (count: nat)
      modifies this
      ensures tables == ChunkAndPersist(old(tables), document, version, contents) && count == |contents|
    {
      tables := DeleteChunks(tables, version);
      var i := 0;
      while i < |contents|
        invariant 0 <= i <= |contents|
        invariant tables == InsertChunks(DeleteChunks(old(tables), version), document, version, contents[..i])
      {
        assert contents[..i + 1][..i] == contents[..i];
        tables := InsertChunk(tables, ChunkRow(document, version, i, contents[i]));
        i := i + 1;
      }
      assert contents[..i] == contents;
      count := |contents|;
    }
  }

  // ---------------------------------------------------------------- what every transaction keeps

  function CountOf(versions: seq<Version>, document: Id): nat {
    if versions == [] then 0
    else CountOf(versions[..|versions| - 1], document) + if versions[|versions| - 1].document == document then 1 else 0
  }

  /** Per document: numbered 1, 2, 3, ... in order of creation, and no content hash twice. */
  ghost predicate VersionsOk(versions: seq<Version>) {
    && (forall k | 0 <= k < |versions| :: versions[k].number == CountOf(versions[..k], versions[k].document) + 1)
    && (forall j, k | 0 <= j < k < |versions| && versions[j].document == versions[k].document ::
          versions[j].hash != versions[k].hash)
  }

  /** No id is handed out twice. */
  predicate FreshIds(versions: seq<Version>, nextId: Id) {
    && (forall k | 0 <= k < |versions| :: versions[k].id < nextId)
    && (forall j, k | 0 <= j < k < |versions| :: versions[j].id != versions[k].id)
  }

  ghost predicate Inv(t: Tables) {
    && VersionsOk(t.versions) && FreshIds(t.versions, t.nextId)
    && (forall id | id in t.chunks :: id < t.nextId)
    && (forall key | key in t.embeddings :: key.0 in t.chunks)
    && (forall a, b | a in t.chunks && b in t.chunks && t.chunks[a].version == t.chunks[b].version
                      && t.chunks[a].index == t.chunks[b].index :: a == b)
    && (forall job | job in t.jobs :: t.jobs[job].processed <= t.jobs[job].total)
  }

  datatype Transaction =
    | TMarkRunning(job: Id, document: Id)
    | TMarkFailed(job: Id, document: Id)
    | TUpsert(document: Id, hash: nat, uri: nat)
    | TUpdateUri(version: Id, uri: nat)
    | TChunk(document: Id, version: Id, contents: seq<Content>)
    | TWipe(version: Id, model: Model)
    | TInsert(ids: set<Id>, model: Model, embed: Content -> Vector)
    | TFinalize(job: Id, document: Id, chunksCreated: nat)

  function Execute(t: Tables, tx: Transaction): Tables {
    match tx
    case TMarkRunning(job, document) => MarkRunning(t, job, document)
    case TMarkFailed(job, document) => MarkFailed(t, job, document)
    case TUpsert(document, hash, uri) => UpsertVersion(t, document, hash, uri).0
    case TUpdateUri(version, uri) => UpdateUri(t, version, uri)
    case TChunk(document, version, contents) => ChunkAndPersist(t, document, version, contents)
    case TWipe(version, model) => WipeEmbeddings(t, version, model)
    case TInsert(ids, model, embed) => InsertEmbeddings(t, ids, model, embed)
    case TFinalize(job, document, chunksCreated) => Finalize(t, job, document, chunksCreated)
  }

  lemma {:induction false} MaxIsCount(versions: seq<Version>, document: Id)
    requires VersionsOk(versions)
    ensures MaxNumber(versions, document) == CountOf(versions, document)
  {
    if versions != [] {
      var n := |versions| - 1;
      VersionsPrefix(versions, n);
      MaxIsCount(versions[..n], document);
    }
  }

  lemma VersionsPrefix(versions: seq<Version>, n: nat)
    requires VersionsOk(versions) && n <= |versions|
    ensures VersionsOk(versions[..n])
  {
    forall k | 0 <= k < n ensures versions[..n][k].number == CountOf(versions[..n][..k], versions[..n][k].document) + 1 {
      assert versions[..n][..k] == versions[..k];
    }
  }

  lemma {:induction false} FindVersionFinds(versions: seq<Version>, document: Id, hash: nat)
    ensures match FindVersion(versions, document, hash)
            case Some(k) => k < |versions| && versions[k].document == document && versions[k].hash == hash
            case None => forall k | 0 <= k < |versions| :: versions[k].document != document || versions[k].hash != hash
  {
    if versions != [] { FindVersionFinds(versions[..|versions| - 1], document, hash); }
  }

  /** The row an upsert would add. */
  function NewRow(t: Tables, document: Id, hash: nat, uri: nat): Version {
    Version(t.nextId, document, MaxNumber(t.versions, document) + 1, hash, uri, false)
  }

  lemma NewRowFits(t: Tables, document: Id, hash: nat, uri: nat)
    requires VersionsOk(t.versions) && FreshIds(t.versions, t.nextId) && FindVersion(t.versions, document, hash).None?
    ensures VersionsOk(t.versions + [NewRow(t, document, hash, uri)])
    ensures FreshIds(t.versions + [NewRow(t, document, hash, uri)], t.nextId + 1)
  {
    FindVersionFinds(t.versions, document, hash);
    MaxIsCount(t.versions, document);
    hide FindVersion, MaxNumber, CountOf;
    VersionAppended(t.versions, NewRow(t, document, hash, uri));
    hide VersionsOk;
  }

  lemma UpsertKeeps(t: Tables, document: Id, hash: nat, uri: nat)
    requires Inv(t)
    ensures Inv(UpsertVersion(t, document, hash, uri).0)
  {
    hide VersionsOk, FindVersion, MaxNumber, FreshIds;
    FindVersionFinds(t.versions, document, hash);
    if FindVersion(t.versions, document, hash).None? {
      NewRowFits(t, document, hash, uri);
      NextIdKeeps(t, t.versions + [NewRow(t, document, hash, uri)]);
    }
  }

  lemma NextIdKeeps(t: Tables, versions: seq<Version>)
    requires Inv(t) && VersionsOk(versions) && FreshIds(versions, t.nextId + 1)
    ensures Inv(t.(versions := versions, nextId := t.nextId + 1))
  {
    hide VersionsOk, FreshIds;
  }

  lemma VersionAppended(versions: seq<Version>, row: Version)
    requires VersionsOk(versions) && row.number == CountOf(versions, row.document) + 1
    requires forall k | 0 <= k < |versions| :: versions[k].document != row.document || versions[k].hash != row.hash
    ensures VersionsOk(versions + [row])
  {
    hide CountOf;
    var vs := versions + [row];
    forall k | 0 <= k < |vs| ensures vs[k].number == CountOf(vs[..k], vs[k].document) + 1 {
      if k < |versions| {
        assert vs[k] == versions[k] && vs[..k] == versions[..k];
      } else {
        assert vs[k] == row && vs[..k] == versions;
      }
    }
  }

  lemma {:induction false} CountIgnoresUri(versions: seq<Version>, version: Id, uri: nat, document: Id)
    ensures CountOf(SetUri(versions, version, uri), document) == CountOf(versions, document)
  {
    if versions != [] {
      var n := |versions| - 1;
      CountIgnoresUri(versions[..n], version, uri, document);
      assert SetUri(versions, version, uri)[..n] == SetUri(versions[..n], version, uri);
    }
  }

  lemma UpdateUriKeeps(t: Tables, version: Id, uri: nat)
    requires Inv(t)
    ensures Inv(UpdateUri(t, version, uri))
  {
    var vs := SetUri(t.versions, version, uri);
    forall k | 0 <= k < |vs| ensures vs[k].number == CountOf(vs[..k], vs[k].document) + 1 {
      CountIgnoresUri(t.versions[..k], version, uri, vs[k].document);
      assert vs[..k] == SetUri(t.versions[..k], version, uri);
    }
  }

  /** Content `i` is stored under id `base + i` with index `i`. */
  ghost predicate RowAt(chunks: map<Id, ChunkRow>, base: Id, document: Id, version: Id, contents: seq<Content>, i: nat)
    requires i < |contents|
  {
    base + i in chunks && chunks[base + i] == ChunkRow(document, version, i, contents[i])
  }

  ghost predicate RowsFrom(chunks: map<Id, ChunkRow>, base: Id, document: Id, version: Id, contents: seq<Content>) {
    forall i | 0 <= i < |contents| :: RowAt(chunks, base, document, version, contents, i)
  }

  /** `after` is `before` plus one row per content, in consecutive ids from `base`. */
  ghost predicate Appended(before: map<Id, ChunkRow>, after: map<Id, ChunkRow>, base: Id,
                           document: Id, version: Id, contents: seq<Content>)
  {
    && (forall id | id in before :: id in after && after[id] == before[id])
    && RowsFrom(after, base, document, version, contents)
    && (forall id | id in after :: id in before || base <= id < base + |contents|)
  }

  /** Freshly inserted chunks occupy consecutive ids and nothing else changes. */
  lemma {:induction false} InsertChunksAre(t: Tables, document: Id, version: Id, contents: seq<Content>)
    requires forall id | id in t.chunks :: id < t.nextId
    ensures var t' := InsertChunks(t, document, version, contents);
            && t' == t.(chunks := t'.chunks, nextId := t.nextId + |contents|)
            && Appended(t.chunks, t'.chunks, t.nextId, document, version, contents)
  {
    if contents != [] {
      var n := |contents| - 1;
      InsertChunksAre(t, document, version, contents[..n]);
      var inner, t' := InsertChunks(t, document, version, contents[..n]), InsertChunks(t, document, version, contents);
      forall i | 0 <= i < |contents|
        ensures RowAt(t'.chunks, t.nextId, document, version, contents, i)
      {
        if i < n { assert RowAt(inner.chunks, t.nextId, document, version, contents[..n], i); }
      }
    }
  }

  lemma ChunkKeeps(t: Tables, document: Id, version: Id, contents: seq<Content>)
    requires Inv(t)
    ensures Inv(ChunkAndPersist(t, document, version, contents))
  {
    var d := DeleteChunks(t, version);
    InsertChunksAre(d, document, version, contents);
    var t' := ChunkAndPersist(t, document, version, contents);
    forall id | id in t'.chunks && id !in d.chunks
      ensures t'.chunks[id] == ChunkRow(document, version, id - t.nextId, contents[id - t.nextId])
    {
      var i := id - t.nextId;
      assert RowAt(t'.chunks, t.nextId, document, version, contents, i);
    }
  }

  lemma EmbeddingsKeep(t: Tables, version: Id, ids: set<Id>, model: Model, embed: Content -> Vector)
    ensures Inv(t) ==> Inv(WipeEmbeddings(t, version, model)) && Inv(InsertEmbeddings(t, ids, model, embed))
  {}

  lemma SetJobKeeps(t: Tables, job: Id, update: Job -> Job)
    requires Inv(t) && forall j: Job | j.processed <= j.total :: update(j).processed <= update(j).total
    ensures Inv(SetJob(t, job, update))
  {
    hide VersionsOk;
  }

  lemma SetDocumentKeeps(t: Tables, document: Id, status: DocumentStatus)
    ensures Inv(t) ==> Inv(SetDocument(t, document, status))
  {
    hide VersionsOk;
  }

  lemma StatusKeeps(t: Tables, job: Id, document: Id, chunksCreated: nat)
    requires Inv(t)
    ensures Inv(MarkRunning(t, job, document)) && Inv(MarkFailed(t, job, document))
    ensures Inv(Finalize(t, job, document, chunksCreated))
  {
    hide Inv, SetJob, SetDocument;
    SetJobKeeps(t, job, With(Running));
    SetJobKeeps(t, job, With(Failed));
    SetDocumentKeeps(SetJob(t, job, With(Running)), document, Processing);
    SetDocumentKeeps(SetJob(t, job, With(Failed)), document, Broken);
    SetDocumentKeeps(t, document, Indexed);
    SetJobKeeps(SetDocument(t, document, Indexed), job, Done(chunksCreated));
  }

  lemma TransactionKeeps(t: Tables, tx: Transaction)
    requires Inv(t)
    ensures Inv(Execute(t, tx))
  {
    hide Inv, MarkRunning, MarkFailed, Finalize, UpsertVersion, UpdateUri, ChunkAndPersist, WipeEmbeddings, InsertEmbeddings;
    match tx
    case TUpsert(document, hash, uri) => UpsertKeeps(t, document, hash, uri);
    case TUpdateUri(version, uri) => UpdateUriKeeps(t, version, uri);
    case TChunk(document, version, contents) => ChunkKeeps(t, document, version, contents);
    case TWipe(version, model) => EmbeddingsKeep(t, version, {}, model, c => c);
    case TInsert(ids, model, embed) => EmbeddingsKeep(t, 0, ids, model, embed);
    case TMarkRunning(job, document) => StatusKeeps(t, job, document, 0);
    case TMarkFailed(job, document) => StatusKeeps(t, job, document, 0);
    case TFinalize(job, document, chunksCreated) => StatusKeeps(t, job, document, chunksCreated);
  }

  function ExecuteAll(t: Tables, txs: seq<Transaction>): Tables {
    if txs == [] then t else Execute(ExecuteAll(t, txs[..|txs| - 1]), txs[|txs| - 1])
  }

  /**
   Whatever workflows run, in whatever order their transactions land and wherever attempts are cut: version
   numbers stay 1..n per document with one version per content hash, no two chunks of a version share an
   index, every embedding has its chunk, and no job counts more documents than it has.
   */
  lemma {:induction false} EveryInterleavingKeeps(t: Tables, txs: seq<Transaction>)
    requires Inv(t)
    ensures Inv(ExecuteAll(t, txs))
  {
    if txs != [] {
      EveryInterleavingKeeps(t, txs[..|txs| - 1]);
      TransactionKeeps(ExecuteAll(t, txs[..|txs| - 1]), txs[|txs| - 1]);
    }
  }

  // ---------------------------------------------------------------- the workflow under retry

  /** What one workflow run works on; `contents` is what the chunker makes of the parsed document. */
  datatype Input = Input(job: Id, document: Id, hash: nat, uri: nat, rawTextUri: nat, contents: seq<Content>, model: Model)

  /** Where an extra attempt of `embed_chunks` was cut. */
  datatype EmbedCut = AfterWipe | AfterInsert

  /** Extra attempts whose transactions committed before the attempt was lost. */
  datatype Retries = Retries(running: nat, upsert: nat, update: nat, chunk: nat, embed: seq<EmbedCut>, finalize: nat)

  function RunningTimes(t: Tables, input: Input, extra: nat): Tables
    decreases extra
  {
    var t' := MarkRunning(t, input.job, input.document);
    if extra == 0 then t' else RunningTimes(t', input, extra - 1)
  }

  function UpsertTimes(t: Tables, input: Input, extra: nat): (Tables, Id)
    decreases extra
  {
    var r := UpsertVersion(t, input.document, input.hash, input.uri);
    if extra == 0 then r else UpsertTimes(r.0, input, extra - 1)
  }

  function UpdateTimes(t: Tables, input: Input, version: Id, extra: nat): Tables
    decreases extra
  {
    var t' := UpdateUri(t, version, input.rawTextUri);
    if extra == 0 then t' else UpdateTimes(t', input, version, extra - 1)
  }

  function ChunkTimes(t: Tables, input: Input, version: Id, extra: nat): Tables
    decreases extra
  {
    var t' := ChunkAndPersist(t, input.document, version, input.contents);
    if extra == 0 then t' else ChunkTimes(t', input, version, extra - 1)
  }

  function EmbedTimes(t: Tables, input: Input, version: Id, embed: Content -> Vector, cuts: seq<EmbedCut>): Tables
    decreases |cuts|
  {
    if cuts == [] then EmbedChunks(t, version, input.model, embed)
    else
      var t' := if cuts[0].AfterWipe? then WipeEmbeddings(t, version, input.model)
                else EmbedChunks(t, version, input.model, embed);
      EmbedTimes(t', input, version, embed, cuts[1..])
  }

  function FinalizeTimes(t: Tables, input: Input, extra: nat): Tables
    decreases extra
  {
    var t' := Finalize(t, input.job, input.document, |input.contents|);
    if extra == 0 then t' else FinalizeTimes(t', input, extra - 1)
  }

  /** The tables up to and including the version row, and that row's id. */
  function Begun(t: Tables, input: Input, r: Retries): (Tables, Id) {
    UpsertTimes(RunningTimes(t, input, r.running), input, r.upsert)
  }

  /** The tables after a workflow that ends in success. */
  function Workflow(t: Tables, input: Input, embed: Content -> Vector, r: Retries): Tables {
    var (begun, version) := Begun(t, input, r);
    var updated := UpdateTimes(begun, input, version, r.update);
    var chunked := ChunkTimes(updated, input, version, r.chunk);
    var embedded := EmbedTimes(chunked, input, version, embed, r.embed);
    FinalizeTimes(embedded, input, r.finalize)
  }

  const NO_RETRIES := Retries(0, 0, 0, 0, [], 0)

  // ---------------------------------------------------------------- one activity at a time

  lemma {:induction false} RunningOnce(t: Tables, input: Input, extra: nat)
    ensures RunningTimes(t, input, extra) == MarkRunning(t, input.job, input.document)
    decreases extra
  {
    if extra > 0 {
      RunningOnce(MarkRunning(t, input.job, input.document), input, extra - 1);
    }
  }

  lemma {:induction false} FindAppended(versions: seq<Version>, row: Version)
    requires FindVersion(versions, row.document, row.hash).None?
    ensures FindVersion(versions + [row], row.document, row.hash) == Some(|versions|)
  {
    assert (versions + [row])[..|versions|] == versions;
  }

  lemma {:induction false} UpsertOnce(t: Tables, input: Input, extra: nat)
    ensures UpsertTimes(t, input, extra) == UpsertVersion(t, input.document, input.hash, input.uri)
    decreases extra
  {
    if extra > 0 {
      var r := UpsertVersion(t, input.document, input.hash, input.uri);
      FindVersionFinds(t.versions, input.document, input.hash);
      if FindVersion(t.versions, input.document, input.hash).None? {
        FindAppended(t.versions, r.0.versions[|t.versions|]);
      }
      UpsertOnce(r.0, input, extra - 1);
    }
  }

  lemma {:induction false} UpdateOnce(t: Tables, input: Input, version: Id, extra: nat)
    ensures UpdateTimes(t, input, version, extra) == UpdateUri(t, version, input.rawTextUri)
    decreases extra
  {
    if extra > 0 {
      var t' := UpdateUri(t, version, input.rawTextUri);
      assert UpdateUri(t', version, input.rawTextUri).versions == t'.versions;
      UpdateOnce(t', input, version, extra - 1);
    }
  }

  lemma {:induction false} FinalizeOnce(t: Tables, input: Input, extra: nat)
    ensures FinalizeTimes(t, input, extra) == Finalize(t, input.job, input.document, |input.contents|)
    decreases extra
  {
    if extra > 0 {
      FinalizeOnce(Finalize(t, input.job, input.document, |input.contents|), input, extra - 1);
    }
  }

  function OthersEmbedded(t: Tables, version: Id): Embeddings {
    Drop(t.embeddings, VersionChunks(t, version))
  }

  lemma DropNothing(e: Embeddings, ids: set<Id>)
    ensures (forall key | key in e :: key.0 !in ids) ==> Drop(e, ids) == e
  {}

  lemma DropAdded(e: Embeddings, added: Embeddings, ids: set<Id>, model: Model)
    requires forall key | key in added :: key.0 in ids && key.1 == model
    ensures Drop(e + added, ids) == Drop(e, ids)
    ensures (forall key | key in e :: key.0 !in ids) ==> DropModel(e + added, ids, model) == e
  {}

  /** Relative to `t0`: the version's chunks are exactly the contents, unembedded, in the latest ids; nothing else moved. */
  ghost predicate Chunked(t0: Tables, t: Tables, input: Input, version: Id) {
    && t == t0.(chunks := t.chunks, embeddings := t.embeddings, nextId := t.nextId)
    && t0.nextId + |input.contents| <= t.nextId
    && Appended(Others(t0.chunks, version), t.chunks, t.nextId - |input.contents|, input.document, version, input.contents)
    && t.embeddings == OthersEmbedded(t0, version)
  }

  lemma ChunkFirst(t: Tables, input: Input, version: Id)
    requires Inv(t)
    ensures Chunked(t, ChunkAndPersist(t, input.document, version, input.contents), input, version)
  {
    InsertChunksAre(DeleteChunks(t, version), input.document, version, input.contents);
  }

  lemma OwnRow(t0: Tables, t: Tables, input: Input, version: Id, id: Id)
    requires Chunked(t0, t, input, version) && id in t.chunks && id !in Others(t0.chunks, version)
    ensures var base := t.nextId - |input.contents|;
            base <= id < t.nextId && t.chunks[id] == ChunkRow(input.document, version, id - base, input.contents[id - base])
  {
    var base := t.nextId - |input.contents|;
    var i := id - base;
    assert RowAt(t.chunks, base, input.document, version, input.contents, i);
  }

  lemma ChunkedKeepsOthers(t0: Tables, t: Tables, input: Input, version: Id)
    requires Inv(t0) && Chunked(t0, t, input, version)
    ensures Others(t.chunks, version) == Others(t0.chunks, version)
    ensures OthersEmbedded(t, version) == OthersEmbedded(t0, version)
    ensures forall id | id in t.chunks :: id < t.nextId
  {
    forall id | id in t.chunks ensures id < t.nextId && (t.chunks[id].version != version <==> id in Others(t0.chunks, version)) {
      if id !in Others(t0.chunks, version) { OwnRow(t0, t, input, version, id); }
    }
    forall key | key in t.embeddings ensures key.0 !in VersionChunks(t, version) {
      assert key in OthersEmbedded(t0, version) && key.0 in t0.chunks;
      assert key.0 in Others(t0.chunks, version);
    }
    DropNothing(t.embeddings, VersionChunks(t, version));
  }

  lemma ChunkAgain(t0: Tables, t: Tables, input: Input, version: Id)
    requires Inv(t0) && Chunked(t0, t, input, version)
    ensures Chunked(t0, ChunkAndPersist(t, input.document, version, input.contents), input, version)
  {
    ChunkedKeepsOthers(t0, t, input, version);
    var d := DeleteChunks(t, version);
    assert d.chunks == Others(t.chunks, version) && d.embeddings == OthersEmbedded(t, version);
    InsertChunksAre(d, input.document, version, input.contents);
  }

  lemma {:induction false} ChunkRepeats(t0: Tables, t: Tables, input: Input, version: Id, extra: nat)
    requires Inv(t0) && Chunked(t0, t, input, version)
    ensures Chunked(t0, ChunkTimes(t, input, version, extra), input, version)
    decreases extra
  {
    ChunkAgain(t0, t, input, version);
    if extra > 0 {
      ChunkRepeats(t0, ChunkAndPersist(t, input.document, version, input.contents), input, version, extra - 1);
    }
  }

  lemma ChunkStage(t: Tables, input: Input, version: Id, extra: nat)
    requires Inv(t)
    ensures Chunked(t, ChunkTimes(t, input, version, extra), input, version)
  {
    ChunkFirst(t, input, version);
    if extra > 0 {
      ChunkRepeats(t, ChunkAndPersist(t, input.document, version, input.contents), input, version, extra - 1);
    }
  }

  ghost predicate Unembedded(t: Tables, version: Id) {
    forall key | key in t.embeddings :: key.0 !in VersionChunks(t, version)
  }

  /** Every chunk of the version embedded once, for this model. */
  function Embedded(t: Tables, version: Id, model: Model, embed: Content -> Vector): Tables {
    t.(embeddings := t.embeddings + NewEmbeddings(t.chunks, VersionChunks(t, version), model, embed))
  }

  lemma WipeNothing(t: Tables, version: Id, model: Model)
    ensures Unembedded(t, version) ==> WipeEmbeddings(t, version, model) == t
  {
    assert Unembedded(t, version) ==> WipeEmbeddings(t, version, model).embeddings == t.embeddings;
  }

  lemma EmbedFirst(t: Tables, version: Id, model: Model, embed: Content -> Vector)
    requires Unembedded(t, version)
    ensures EmbedChunks(t, version, model, embed) == Embedded(t, version, model, embed)
  {
    WipeNothing(t, version, model);
    assert Insertable(t, VersionChunks(t, version), model);
  }

  lemma WipeUndoesEmbed(t: Tables, version: Id, model: Model, embed: Content -> Vector)
    requires Unembedded(t, version)
    ensures WipeEmbeddings(Embedded(t, version, model, embed), version, model) == t
  {
    hide DropModel;
    var e := Embedded(t, version, model, embed);
    assert VersionChunks(e, version) == VersionChunks(t, version);
    DropAdded(t.embeddings, NewEmbeddings(t.chunks, VersionChunks(t, version), model, embed), VersionChunks(t, version), model);
  }

  lemma EmbedAgain(t: Tables, version: Id, model: Model, embed: Content -> Vector)
    requires Unembedded(t, version)
    ensures WipeEmbeddings(Embedded(t, version, model, embed), version, model) == t
    ensures EmbedChunks(Embedded(t, version, model, embed), version, model, embed) == Embedded(t, version, model, embed)
  {
    hide WipeEmbeddings, InsertEmbeddings, Embedded, Unembedded, VersionChunks;
    WipeUndoesEmbed(t, version, model, embed);
    WipeNothing(t, version, model);
    EmbedFirst(t, version, model, embed);
  }

  lemma {:induction false} EmbedStage(t1: Tables, t: Tables, input: Input, version: Id, embed: Content -> Vector, cuts: seq<EmbedCut>)
    requires Unembedded(t1, version)
    requires t == t1 || t == Embedded(t1, version, input.model, embed)
    ensures EmbedTimes(t, input, version, embed, cuts) == Embedded(t1, version, input.model, embed)
    decreases |cuts|
  {
    WipeNothing(t1, version, input.model);
    EmbedFirst(t1, version, input.model, embed);
    EmbedAgain(t1, version, input.model, embed);
    if cuts != [] {
      var t' := if cuts[0].AfterWipe? then WipeEmbeddings(t, version, input.model) else EmbedChunks(t, version, input.model, embed);
      EmbedStage(t1, t', input, version, embed, cuts[1..]);
    }
  }

  lemma ChunkedIsUnembedded(t0: Tables, t: Tables, input: Input, version: Id)
    requires Inv(t0) && Chunked(t0, t, input, version)
    ensures Unembedded(t, version)
  {
    ChunkedKeepsOthers(t0, t, input, version);
    assert OthersEmbedded(t, version) == t.embeddings;
  }

  // ---------------------------------------------------------------- refinement

  /** The state a clean run leaves before chunking, and its version id. */
  function Prepared(t: Tables, input: Input): (Tables, Id) {
    var (begun, version) := UpsertVersion(MarkRunning(t, input.job, input.document), input.document, input.hash, input.uri);
    (UpdateUri(begun, version, input.rawTextUri), version)
  }

  lemma PreparedKeeps(t: Tables, input: Input)
    requires Inv(t)
    ensures Inv(Prepared(t, input).0)
  {
    var running := MarkRunning(t, input.job, input.document);
    TransactionKeeps(t, TMarkRunning(input.job, input.document));
    UpsertKeeps(running, input.document, input.hash, input.uri);
    var (begun, version) := UpsertVersion(running, input.document, input.hash, input.uri);
    UpdateUriKeeps(begun, version, input.rawTextUri);
  }

  /** However the attempts were cut, a successful workflow passes through one chunked state. */
  lemma {:induction false} WorkflowShape(t: Tables, input: Input, embed: Content -> Vector, r: Retries) returns (chunked: Tables)
    requires Inv(t)
    ensures var (prepared, version) := Prepared(t, input);
            && Chunked(prepared, chunked, input, version)
            && Workflow(t, input, embed, r)
               == Finalize(Embedded(chunked, version, input.model, embed), input.job, input.document, |input.contents|)
  {
    PreparedKeeps(t, input);
    var running := MarkRunning(t, input.job, input.document);
    RunningOnce(t, input, r.running);
    UpsertOnce(running, input, r.upsert);
    var (begun, version) := UpsertVersion(running, input.document, input.hash, input.uri);
    UpdateOnce(begun, input, version, r.update);
    var prepared := UpdateUri(begun, version, input.rawTextUri);
    ChunkStage(prepared, input, version, r.chunk);
    chunked := ChunkTimes(prepared, input, version, r.chunk);
    ChunkedIsUnembedded(prepared, chunked, input, version);
    EmbedStage(chunked, chunked, input, version, embed, r.embed);
    FinalizeOnce(Embedded(chunked, version, input.model, embed), input, r.finalize);
  }

  /** The chunks of the version are exactly the contents, in the latest ids. */
  ghost predicate ChunksComplete(t: Tables, input: Input, version: Id, base: Id) {
    && base + |input.contents| == t.nextId
    && (forall id: Id :: id in VersionChunks(t, version) <==> base <= id < t.nextId)
    && RowsFrom(t.chunks, base, input.document, version, input.contents)
  }

  /** Each chunk of the version has exactly one embedding for the model and none for any other. */
  ghost predicate EmbeddingsComplete(t: Tables, version: Id, model: Model, embed: Content -> Vector) {
    forall id, m | id in VersionChunks(t, version) ::
      && ((id, m) in t.embeddings <==> m == model)
      && ((id, m) in t.embeddings ==> t.embeddings[(id, m)] == embed(t.chunks[id].content))
  }

  ghost predicate Complete(t: Tables, input: Input, version: Id, embed: Content -> Vector) {
    && |input.contents| <= t.nextId
    && ChunksComplete(t, input, version, t.nextId - |input.contents|)
    && EmbeddingsComplete(t, version, input.model, embed)
  }

  /** Chunks and embeddings of other versions are equal in both. */
  ghost predicate OthersAgree(t: Tables, t': Tables, version: Id) {
    Others(t.chunks, version) == Others(t'.chunks, version) && OthersEmbedded(t, version) == OthersEmbedded(t', version)
  }

  lemma OwnChunks(t0: Tables, t: Tables, input: Input, version: Id, id: Id)
    requires Inv(t0) && Chunked(t0, t, input, version)
    ensures id in VersionChunks(t, version) <==> t.nextId - |input.contents| <= id < t.nextId
  {
    var base := t.nextId - |input.contents|;
    if base <= id < t.nextId {
      assert RowAt(t.chunks, base, input.document, version, input.contents, id - base);
    }
  }

  lemma ChunkedIsComplete(t0: Tables, t: Tables, input: Input, version: Id)
    requires Inv(t0) && Chunked(t0, t, input, version)
    ensures ChunksComplete(t, input, version, t.nextId - |input.contents|)
  {
    forall id: Id ensures id in VersionChunks(t, version) <==> t.nextId - |input.contents| <= id < t.nextId {
      OwnChunks(t0, t, input, version, id);
    }
  }

  lemma EmbeddedIsComplete(t: Tables, version: Id, model: Model, embed: Content -> Vector)
    ensures Unembedded(t, version) ==> EmbeddingsComplete(Embedded(t, version, model, embed), version, model, embed)
  {}

  lemma EmbeddedKeepsOthers(t: Tables, version: Id, model: Model, embed: Content -> Vector)
    ensures OthersAgree(t, Embedded(t, version, model, embed), version)
  {
    hide Drop;
    DropAdded(t.embeddings, NewEmbeddings(t.chunks, VersionChunks(t, version), model, embed), VersionChunks(t, version), model);
  }

  lemma FinalizeKeepsRows(t: Tables, input: Input)
    ensures var t' := Finalize(t, input.job, input.document, |input.contents|);
            t'.chunks == t.chunks && t'.embeddings == t.embeddings && t'.versions == t.versions && t'.nextId == t.nextId
  {}

  /** Completeness and the other versions' rows depend on chunks, embeddings and the next id only. */
  lemma RowsDecide(t: Tables, t': Tables, t0: Tables, input: Input, version: Id, embed: Content -> Vector)
    requires t.chunks == t'.chunks && t.embeddings == t'.embeddings && t.nextId == t'.nextId
    ensures Complete(t, input, version, embed) ==> Complete(t', input, version, embed)
    ensures OthersAgree(t0, t, version) ==> OthersAgree(t0, t', version)
  {
    hide RowsFrom, Others;
    assert VersionChunks(t, version) == VersionChunks(t', version);
  }

  lemma ChunkedThenEmbedded(prepared: Tables, chunked: Tables, input: Input, version: Id, embed: Content -> Vector)
    requires Inv(prepared) && Chunked(prepared, chunked, input, version)
    ensures var embedded := Embedded(chunked, version, input.model, embed);
            Complete(embedded, input, version, embed) && OthersAgree(prepared, embedded, version)
  {
    hide Inv, Appended, Others, OthersEmbedded, RowsFrom, NewEmbeddings, EmbeddingsComplete, Unembedded;
    ChunkedKeepsOthers(prepared, chunked, input, version);
    ChunkedIsUnembedded(prepared, chunked, input, version);
    ChunkedIsComplete(prepared, chunked, input, version);
    EmbeddedIsComplete(chunked, version, input.model, embed);
    EmbeddedKeepsOthers(chunked, version, input.model, embed);
    assert VersionChunks(Embedded(chunked, version, input.model, embed), version) == VersionChunks(chunked, version);
  }

  lemma LastStages(prepared: Tables, chunked: Tables, input: Input, version: Id, embed: Content -> Vector)
    requires Inv(prepared) && Chunked(prepared, chunked, input, version)
    ensures var final := Finalize(Embedded(chunked, version, input.model, embed), input.job, input.document, |input.contents|);
            Complete(final, input, version, embed) && OthersAgree(prepared, final, version) && final.versions == prepared.versions
  {
    hide Finalize, Inv, Complete, OthersAgree, Appended, NewEmbeddings, OthersEmbedded;
    var embedded := Embedded(chunked, version, input.model, embed);
    ChunkedThenEmbedded(prepared, chunked, input, version, embed);
    FinalizeKeepsRows(embedded, input);
    RowsDecide(embedded, Finalize(embedded, input.job, input.document, |input.contents|), prepared, input, version, embed);
  }

  lemma PreparedKeepsRows(t: Tables, input: Input)
    ensures OthersAgree(t, Prepared(t, input).0, Prepared(t, input).1)
  {}

  /** However attempts were cut, the version the workflow works on is complete and the others are as they were. */
  lemma {:induction false} CompleteAtPrepared(t: Tables, input: Input, embed: Content -> Vector, r: Retries)
    requires Inv(t)
    ensures Complete(Workflow(t, input, embed, r), input, Prepared(t, input).1, embed)
    ensures OthersAgree(t, Workflow(t, input, embed, r), Prepared(t, input).1)
    ensures Workflow(t, input, embed, r).versions == Prepared(t, input).0.versions
  {
    hide Workflow, Prepared, Finalize, Embedded, Chunked, Inv, Complete, Others, OthersEmbedded;
    var (prepared, version) := Prepared(t, input);
    PreparedKeeps(t, input);
    PreparedKeepsRows(t, input);
    var chunked := WorkflowShape(t, input, embed, r);
    LastStages(prepared, chunked, input, version, embed);
  }

  /** Equal but for which row ids the database handed out to the version's chunks. */
  ghost predicate SameUpToIds(a: Tables, b: Tables, input: Input, version: Id) {
    && a.versions == b.versions && a.jobs == b.jobs && a.documents == b.documents
    && OthersAgree(a, b, version)
    && |input.contents| <= a.nextId && |input.contents| <= b.nextId
    && SameRows(a, b, a.nextId - |input.contents|, b.nextId - |input.contents|, |input.contents|, input.model)
  }

  ghost predicate SameRows(a: Tables, b: Tables, baseA: Id, baseB: Id, n: nat, model: Model) {
    forall i | 0 <= i < n :: SameRow(a, b, baseA, baseB, i, model)
  }

  ghost predicate SameRow(a: Tables, b: Tables, baseA: Id, baseB: Id, i: nat, model: Model) {
    var (p, q) := (baseA + i, baseB + i);
    && p in a.chunks && q in b.chunks && a.chunks[p] == b.chunks[q]
    && (p, model) in a.embeddings && (q, model) in b.embeddings
    && a.embeddings[(p, model)] == b.embeddings[(q, model)]
  }

  lemma CompleteRow(t: Tables, input: Input, version: Id, embed: Content -> Vector, i: nat)
    requires Complete(t, input, version, embed) && i < |input.contents|
    ensures var id := t.nextId - |input.contents| + i;
            && id in t.chunks && t.chunks[id] == ChunkRow(input.document, version, i, input.contents[i])
            && (id, input.model) in t.embeddings && t.embeddings[(id, input.model)] == embed(input.contents[i])
  {
    var base := t.nextId - |input.contents|;
    assert RowAt(t.chunks, base, input.document, version, input.contents, i);
    assert base + i in VersionChunks(t, version);
  }

  lemma SameJobs(t: Tables, input: Input, embed: Content -> Vector, r: Retries)
    requires Inv(t)
    ensures Workflow(t, input, embed, r).jobs
            == Finalize(Prepared(t, input).0, input.job, input.document, |input.contents|).jobs
    ensures Workflow(t, input, embed, r).documents
            == Finalize(Prepared(t, input).0, input.job, input.document, |input.contents|).documents
  {
    hide Workflow, Prepared, Inv, Appended, OthersEmbedded;
    var chunked := WorkflowShape(t, input, embed, r);
  }

  /** Success marks the document indexed and counts it once in its job, however often the activities ran. */
  lemma {:induction false} SuccessIsRecorded(t: Tables, input: Input, embed: Content -> Vector, r: Retries)
    requires Inv(t) && input.job in t.jobs && input.document in t.documents
    ensures var final, j := Workflow(t, input, embed, r), t.jobs[input.job];
            && input.document in final.documents && final.documents[input.document] == Indexed
            && input.job in final.jobs
            && final.jobs[input.job] == Job(Completed, j.total, Least(j.total, j.processed + 1), |input.contents|)
            && final.jobs.Keys == t.jobs.Keys
            && forall other | other in t.jobs && other != input.job :: final.jobs[other] == t.jobs[other]
  {
    SameJobs(t, input, embed, r);
    PreparedStatus(t, input);
    hide Workflow, Prepared, Inv;
  }

  lemma PreparedStatus(t: Tables, input: Input)
    ensures Prepared(t, input).0.jobs == MarkRunning(t, input.job, input.document).jobs
    ensures Prepared(t, input).0.documents == MarkRunning(t, input.job, input.document).documents
  {}

  function Least(a: nat, b: nat): nat { if a < b then a else b }

  lemma {:induction false} RetryAgreesAtPrepared(t: Tables, input: Input, embed: Content -> Vector, r: Retries)
    requires Inv(t)
    ensures SameUpToIds(Workflow(t, input, embed, NO_RETRIES), Workflow(t, input, embed, r), input, Prepared(t, input).1)
  {
    hide Workflow, Prepared, Inv, Finalize, Others, OthersEmbedded, ChunksComplete, EmbeddingsComplete;
    var clean, retried := Workflow(t, input, embed, NO_RETRIES), Workflow(t, input, embed, r);
    var version := Prepared(t, input).1;
    CompleteAtPrepared(t, input, embed, NO_RETRIES);
    CompleteAtPrepared(t, input, embed, r);
    SameJobs(t, input, embed, NO_RETRIES);
    SameJobs(t, input, embed, r);
    var baseA, baseB := clean.nextId - |input.contents|, retried.nextId - |input.contents|;
    forall i | 0 <= i < |input.contents| ensures SameRow(clean, retried, baseA, baseB, i, input.model) {
      CompleteRow(clean, input, version, embed, i);
      CompleteRow(retried, input, version, embed, i);
    }
  }
}
