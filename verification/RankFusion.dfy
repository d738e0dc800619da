/** Reciprocal rank fusion of the keyword arm and the vector arm. */
module RankFusion {
  import opened Options
  import opened StableSort

  type Id = nat

  datatype Stage = Bm25 | Vector | HybridMerge | Rerank

  /** Where the merge found a chunk; the metadata of a merged candidate. */
  datatype Ranks = Ranks(bm25: Option<int>, vector: Option<int>)

  datatype Candidate = Candidate(chunk: Id, document: Id, content: string, score: real, rank: int, stage: Stage,
                                 page: Option<int>, section: Option<string>, ranks: Option<Ranks>)

  type Arm = seq<Candidate>

  /** A value of the `scored` dictionary; its key is the candidate's chunk id. */
  datatype Entry = Entry(cand: Candidate, bm25Rank: Option<int>, vectorRank: Option<int>)

  /** The dictionary in insertion order. */
  type Table = seq<Scored<Entry>>

  function Key(x: Scored<Entry>): Id { x.item.cand.chunk }

  function Rrf(k: int, rank: int): real
    requires k > 0 && rank >= 1
  {
    1.0 / (k + rank) as real
  }

  predicate ValidRanks(arm: Arm) {
    forall i | 0 <= i < |arm| :: arm[i].rank >= 1
  }

  // ---------------------------------------------------------------- what fusion means

  /** The last occurrence of a chunk in an arm. */
  function Last(arm: Arm, id: Id): (c: Option<Candidate>)
    ensures c.Some? ==> c.value in arm && c.value.chunk == id
  {
    if arm == [] then None
    else if arm[|arm| - 1].chunk == id then Some(arm[|arm| - 1])
    else Last(arm[..|arm| - 1], id)
  }

  function First(arm: Arm, id: Id): (c: Option<Candidate>)
    ensures c.Some? ==> c.value in arm && c.value.chunk == id
  {
    if arm == [] then None
    else
      var earlier := First(arm[..|arm| - 1], id);
      if earlier.Some? then earlier else if arm[|arm| - 1].chunk == id then Some(arm[|arm| - 1]) else None
  }

  function SumRrf(arm: Arm, id: Id, k: int): real
    requires k > 0 && ValidRanks(arm)
  {
    if arm == [] then 0.0
    else
      SumRrf(arm[..|arm| - 1], id, k) + if arm[|arm| - 1].chunk == id then Rrf(k, arm[|arm| - 1].rank) else 0.0
  }

  /** A repeated keyword hit counts once, with its last rank; every vector hit counts. */
  function FusedScore(bm25: Arm, vector: Arm, k: int, id: Id): real
    requires k > 0 && ValidRanks(bm25) && ValidRanks(vector)
  {
    (match Last(bm25, id) case Some(c) => Rrf(k, c.rank) case None => 0.0) + SumRrf(vector, id, k)
  }

  /** Whose text and position are kept: the keyword arm's, if it has the chunk. */
  function Source(bm25: Arm, vector: Arm, id: Id): Option<Candidate> {
    var b := Last(bm25, id);
    if b.Some? then b else First(vector, id)
  }

  /** Position of a chunk's first appearance; the length when it does not appear. */
  function Arrival(arms: Arm, id: Id): nat {
    if arms == [] then 0
    else
      var n := |arms| - 1;
      var p := Arrival(arms[..n], id);
      if p < n then p else if arms[n].chunk == id then n else n + 1
  }

  function Chunks(arm: Arm): set<Id> {
    set i | 0 <= i < |arm| :: arm[i].chunk
  }

  function RankOf(c: Option<Candidate>): Option<int> {
    if c.Some? then Some(c.value.rank) else None
  }

  predicate Outranks(bm25: Arm, vector: Arm, k: int, a: Id, b: Id)
    requires k > 0 && ValidRanks(bm25) && ValidRanks(vector)
  {
    var fa, fb := FusedScore(bm25, vector, k, a), FusedScore(bm25, vector, k, b);
    fa > fb || (fa == fb && Arrival(bm25 + vector, a) < Arrival(bm25 + vector, b))
  }

  // ---------------------------------------------------------------- the dictionary

  function Find(d: Table, id: Id): (i: nat)
    ensures i <= |d| && (i < |d| ==> Key(d[i]) == id) && (i == |d| ==> forall j | 0 <= j < |d| :: Key(d[j]) != id)
  {
    if d == [] then 0
    else
      var i := Find(d[..|d| - 1], id);
      if i < |d| - 1 then i else if Key(d[|d| - 1]) == id then |d| - 1 else |d|
  }

  function Put(d: Table, id: Id, x: Scored<Entry>): Table {
    if Find(d, id) < |d| then d[Find(d, id) := x] else d + [x]
  }

  function AddBm25(d: Table, c: Candidate, k: int): Table
    requires k > 0 && c.rank >= 1
  {
    Put(d, c.chunk, Scored(Entry(c, Some(c.rank), None), Rrf(k, c.rank)))
  }

  function AddVector(d: Table, c: Candidate, k: int): Table
    requires k > 0 && c.rank >= 1
  {
    var i := Find(d, c.chunk);
    if i < |d| then
      Put(d, c.chunk, Scored(Entry(d[i].item.cand, d[i].item.bm25Rank, Some(c.rank)), d[i].score + Rrf(k, c.rank)))
    else Put(d, c.chunk, Scored(Entry(c, None, Some(c.rank)), Rrf(k, c.rank)))
  }

  /** Each row carries the fused score, the ranks and the source of its chunk. */
  ghost predicate RowOk(x: Scored<Entry>, bm25: Arm, vector: Arm, k: int)
    requires k > 0 && ValidRanks(bm25) && ValidRanks(vector)
  {
    && Source(bm25, vector, Key(x)) == Some(x.item.cand)
    && x.score == FusedScore(bm25, vector, k, Key(x))
    && x.item.bm25Rank == RankOf(Last(bm25, Key(x))) && x.item.vectorRank == RankOf(Last(vector, Key(x)))
  }

  function Keys(d: Table): set<Id> {
    set i | 0 <= i < |d| :: Key(d[i])
  }

  /** The rows stand in order of first appearance, so no chunk has two. */
  ghost predicate ByArrival(d: Table, arms: Arm) {
    forall i, j | 0 <= i < j < |d| :: Arrival(arms, Key(d[i])) < Arrival(arms, Key(d[j]))
  }

  ghost predicate Tabulates(d: Table, bm25: Arm, vector: Arm, k: int)
    requires k > 0 && ValidRanks(bm25) && ValidRanks(vector)
  {
    && (forall i | 0 <= i < |d| :: RowOk(d[i], bm25, vector, k))
    && Keys(d) == Chunks(bm25 + vector)
    && ByArrival(d, bm25 + vector)
  }

  lemma Unfold(arm: Arm, c: Candidate, id: Id)
    ensures Last(arm + [c], id) == if c.chunk == id then Some(c) else Last(arm, id)
    ensures First(arm + [c], id) == if First(arm, id).Some? then First(arm, id) else if c.chunk == id then Some(c) else None
    ensures Arrival(arm + [c], id)
            == if Arrival(arm, id) < |arm| then Arrival(arm, id) else if c.chunk == id then |arm| else |arm| + 1
    ensures Chunks(arm + [c]) == Chunks(arm) + {c.chunk}
  {
    var arm' := arm + [c];
    assert arm'[..|arm|] == arm;
    assert arm'[|arm|] == c;
    assert forall i | 0 <= i < |arm| :: arm'[i] == arm[i];
  }

  lemma UnfoldSum(arm: Arm, c: Candidate, id: Id, k: int)
    requires k > 0 && ValidRanks(arm) && c.rank >= 1
    ensures SumRrf(arm + [c], id, k) == SumRrf(arm, id, k) + if c.chunk == id then Rrf(k, c.rank) else 0.0
  {
    assert (arm + [c])[..|arm|] == arm;
  }

  lemma {:induction false} Present(arm: Arm, id: Id)
    ensures id in Chunks(arm) <==> Arrival(arm, id) < |arm|
    ensures id in Chunks(arm) <==> Last(arm, id).Some?
    ensures id in Chunks(arm) <==> First(arm, id).Some?
    ensures Arrival(arm, id) <= |arm|
  {
    if arm != [] {
      var n := |arm| - 1;
      Present(arm[..n], id);
      assert arm == arm[..n] + [arm[n]];
      Unfold(arm[..n], arm[n], id);
    }
  }

  lemma {:induction false} AbsentSum(arm: Arm, id: Id, k: int)
    requires k > 0 && ValidRanks(arm) && id !in Chunks(arm)
    ensures SumRrf(arm, id, k) == 0.0
  {
    if arm != [] {
      var n := |arm| - 1;
      assert arm[n].chunk in Chunks(arm);
      assert forall i | 0 <= i < n :: arm[i].chunk in Chunks(arm);
      AbsentSum(arm[..n], id, k);
    }
  }

  // ---------------------------------------------------------------- one candidate at a time

  lemma PutArrives(d: Table, arms: Arm, c: Candidate, x: Scored<Entry>)
    requires Key(x) == c.chunk && ByArrival(d, arms) && Keys(d) == Chunks(arms)
    ensures ByArrival(Put(d, c.chunk, x), arms + [c]) && Keys(Put(d, c.chunk, x)) == Chunks(arms + [c])
  {
    hide Arrival;
    var d', at := Put(d, c.chunk, x), Find(d, c.chunk);
    Unfold(arms, c, c.chunk);
    Present(arms, c.chunk);
    if at < |d| { assert Key(d[at]) in Keys(d); } else { assert c.chunk !in Keys(d); }
    forall i | 0 <= i < |d| ensures Arrival(arms + [c], Key(d[i])) == Arrival(arms, Key(d[i])) < |arms| {
      assert Key(d[i]) in Keys(d);
      Present(arms, Key(d[i]));
      Unfold(arms, c, Key(d[i]));
    }
    assert forall i | 0 <= i < |d| :: Key(d'[i]) == Key(d[i]);
    assert Keys(d') == Keys(d) + {c.chunk} by { PutKeys(d, c.chunk, x); }
  }

  lemma PutKeys(d: Table, id: Id, x: Scored<Entry>)
    requires Key(x) == id
    ensures Keys(Put(d, id, x)) == Keys(d) + {id}
  {
    var d', at := Put(d, id, x), Find(d, id);
    assert d'[at] == x;
    assert forall i | 0 <= i < |d| :: Key(d'[i]) == Key(d[i]) && Key(d[i]) in Keys(d);
    assert forall i | 0 <= i < |d'| :: Key(d'[i]) in Keys(d') && Key(d'[i]) in Keys(d) + {id};
    forall id' | id' in Keys(d) + {id} ensures id' in Keys(d') {
      if id' != id {
        var i :| 0 <= i < |d| && Key(d[i]) == id';
        assert Key(d'[i]) == id';
      }
    }
  }

  /** Rows of other chunks do not depend on the candidate. */
  lemma RowKept(x: Scored<Entry>, bm25: Arm, vector: Arm, k: int, c: Candidate)
    requires k > 0 && ValidRanks(bm25) && ValidRanks(vector) && c.rank >= 1 && Key(x) != c.chunk
    requires RowOk(x, bm25, vector, k)
    ensures RowOk(x, bm25 + [c], vector, k) && RowOk(x, bm25, vector + [c], k)
  {
    hide Last, First, SumRrf;
    Unfold(bm25, c, Key(x));
    Unfold(vector, c, Key(x));
    UnfoldSum(vector, c, Key(x), k);
  }

  lemma Bm25Step(d: Table, bm25: Arm, k: int, c: Candidate)
    requires k > 0 && ValidRanks(bm25) && c.rank >= 1 && Tabulates(d, bm25, [], k)
    ensures Tabulates(AddBm25(d, c, k), bm25 + [c], [], k)
  {
    hide Last, First, SumRrf, RowOk, Arrival;
    var x, at := Scored(Entry(c, Some(c.rank), None), Rrf(k, c.rank)), Find(d, c.chunk);
    assert bm25 + [c] + [] == bm25 + [] + [c];
    PutArrives(d, bm25 + [], c, x);
    assert RowOk(x, bm25 + [c], [], k) by { NewBm25Row(bm25, k, c); }
    forall i | 0 <= i < |d| && i != at ensures RowOk(d[i], bm25 + [c], [], k) {
      assert at < |d| ==> Key(d[i]) != Key(d[at]);
      RowKept(d[i], bm25, [], k, c);
    }
  }

  lemma NewBm25Row(bm25: Arm, k: int, c: Candidate)
    requires k > 0 && ValidRanks(bm25) && c.rank >= 1
    ensures RowOk(Scored(Entry(c, Some(c.rank), None), Rrf(k, c.rank)), bm25 + [c], [], k)
  {
    Unfold(bm25, c, c.chunk);
  }

  lemma VectorStep(d: Table, bm25: Arm, vector: Arm, k: int, c: Candidate)
    requires k > 0 && ValidRanks(bm25) && ValidRanks(vector) && c.rank >= 1 && Tabulates(d, bm25, vector, k)
    ensures Tabulates(AddVector(d, c, k), bm25, vector + [c], k)
  {
    hide Last, First, SumRrf, RowOk, Arrival;
    var at := Find(d, c.chunk);
    assert bm25 + (vector + [c]) == bm25 + vector + [c];
    var x := if at < |d| then Scored(Entry(d[at].item.cand, d[at].item.bm25Rank, Some(c.rank)), d[at].score + Rrf(k, c.rank))
             else Scored(Entry(c, None, Some(c.rank)), Rrf(k, c.rank));
    assert AddVector(d, c, k) == Put(d, c.chunk, x);
    PutArrives(d, bm25 + vector, c, x);
    if at < |d| { VectorAgain(d[at], bm25, vector, k, c); } else {
      assert c.chunk !in Keys(d);
      VectorOnly(bm25, vector, k, c);
    }
    forall i | 0 <= i < |d| && i != at ensures RowOk(d[i], bm25, vector + [c], k) {
      assert at < |d| ==> Key(d[i]) != Key(d[at]);
      RowKept(d[i], bm25, vector, k, c);
    }
  }

  lemma VectorAgain(x: Scored<Entry>, bm25: Arm, vector: Arm, k: int, c: Candidate)
    requires k > 0 && ValidRanks(bm25) && ValidRanks(vector) && c.rank >= 1 && Key(x) == c.chunk
    requires RowOk(x, bm25, vector, k)
    ensures RowOk(Scored(Entry(x.item.cand, x.item.bm25Rank, Some(c.rank)), x.score + Rrf(k, c.rank)), bm25, vector + [c], k)
  {
    hide Last, First, SumRrf;
    Unfold(vector, c, c.chunk);
    UnfoldSum(vector, c, c.chunk, k);
  }

  lemma VectorOnly(bm25: Arm, vector: Arm, k: int, c: Candidate)
    requires k > 0 && ValidRanks(bm25) && ValidRanks(vector) && c.rank >= 1 && c.chunk !in Chunks(bm25 + vector)
    ensures RowOk(Scored(Entry(c, None, Some(c.rank)), Rrf(k, c.rank)), bm25, vector + [c], k)
  {
    hide Last, First, SumRrf;
    ChunksOfBoth(bm25, vector);
    Present(bm25, c.chunk);
    Present(vector, c.chunk);
    AbsentSum(vector, c.chunk, k);
    Unfold(vector, c, c.chunk);
    UnfoldSum(vector, c, c.chunk, k);
  }

  lemma ChunksOfBoth(bm25: Arm, vector: Arm)
    ensures Chunks(bm25 + vector) == Chunks(bm25) + Chunks(vector)
  {
    var both := bm25 + vector;
    assert forall i | 0 <= i < |bm25| :: both[i] == bm25[i] && both[i].chunk in Chunks(both);
    assert forall i | 0 <= i < |vector| :: both[|bm25| + i] == vector[i] && both[|bm25| + i].chunk in Chunks(both);
    forall id | id in Chunks(both) ensures id in Chunks(bm25) + Chunks(vector) {
      var i :| 0 <= i < |both| && both[i].chunk == id;
      if i < |bm25| { assert bm25[i].chunk == id; } else { assert vector[i - |bm25|].chunk == id; }
    }
  }

  // ---------------------------------------------------------------- the merge

  function Min(a: nat, b: nat): nat { if a <= b then a else b }

  /** The candidate the merge makes of a chunk. */
  function Merged(bm25: Arm, vector: Arm, k: int, id: Id, rank: int): Option<Candidate>
    requires k > 0 && ValidRanks(bm25) && ValidRanks(vector)
  {
    match Source(bm25, vector, id)
    case None => None
    case Some(src) =>
      Some(Candidate(src.chunk, src.document, src.content, FusedScore(bm25, vector, k, id), rank, HybridMerge, src.page,
                     src.section, Some(Ranks(RankOf(Last(bm25, id)), RankOf(Last(vector, id))))))
  }

  /** `out` lists the best chunks of both arms in order of fused score, ties by first appearance, each chunk once. */
  ghost predicate FusedTopK(bm25: Arm, vector: Arm, k: int, topK: nat, out: Arm)
    requires k > 0 && ValidRanks(bm25) && ValidRanks(vector)
  {
    && |out| == Min(topK, |Chunks(bm25 + vector)|)
    && (forall i | 0 <= i < |out| :: Merged(bm25, vector, k, out[i].chunk, i + 1) == Some(out[i]))
    && (forall i, j | 0 <= i < j < |out| :: Outranks(bm25, vector, k, out[i].chunk, out[j].chunk))
    && (forall i, id | 0 <= i < |out| && id in Chunks(bm25 + vector) && id !in Chunks(out) ::
          Outranks(bm25, vector, k, out[i].chunk, id))
  }

  function Slot(arms: Arm): Entry -> int {
    (e: Entry) => Arrival(arms, e.cand.chunk)
  }

  ghost predicate Ranking(s: Table, bm25: Arm, vector: Arm, k: int)
    requires k > 0 && ValidRanks(bm25) && ValidRanks(vector)
  {
    && InOrder(Slot(bm25 + vector), s)
    && (forall i | 0 <= i < |s| :: RowOk(s[i], bm25, vector, k))
    && Keys(s) == Chunks(bm25 + vector)
    && |s| == |Chunks(bm25 + vector)|
  }

  lemma {:induction false} DistinctKeys(d: Table)
    requires forall i, j | 0 <= i < j < |d| :: Key(d[i]) != Key(d[j])
    ensures |Keys(d)| == |d|
  {
    if d != [] {
      var n := |d| - 1;
      DistinctKeys(d[..n]);
      assert Keys(d) == Keys(d[..n]) + {Key(d[n])} by {
        assert d == d[..n] + [d[n]];
        assert Find(d[..n], Key(d[n])) == n;
        PutKeys(d[..n], Key(d[n]), d[n]);
      }
      assert Key(d[n]) !in Keys(d[..n]);
    }
  }

  lemma SortRanks(d: Table, bm25: Arm, vector: Arm, k: int)
    requires k > 0 && ValidRanks(bm25) && ValidRanks(vector) && Tabulates(d, bm25, vector, k)
    ensures Ranking(SortDesc(d), bm25, vector, k)
  {
    hide RowOk, Arrival, SortDesc;
    var s := SortDesc(d);
    SortIsStable(Slot(bm25 + vector), d);
    SortPermutes(d);
    SameMembers(d, s);
    DistinctKeys(d);
    forall i | 0 <= i < |s| ensures RowOk(s[i], bm25, vector, k) {
      assert s[i] in s;
    }
  }

  lemma SameMembers(d: Table, s: Table)
    requires multiset(d) == multiset(s)
    ensures Keys(d) == Keys(s) && forall x | x in s :: x in d
  {
    forall x ensures x in d <==> x in s { assert x in multiset(d) <==> x in multiset(s); }
    assert Keys(d) == set x | x in d :: Key(x);
    assert Keys(s) == set x | x in s :: Key(x);
  }

  function Emit(x: Scored<Entry>, rank: int): Candidate {
    var c := x.item.cand;
    Candidate(c.chunk, c.document, c.content, x.score, rank, HybridMerge, c.page, c.section,
              Some(Ranks(x.item.bm25Rank, x.item.vectorRank)))
  }

  lemma RankingOutranks(s: Table, bm25: Arm, vector: Arm, k: int, i: nat, j: nat)
    requires k > 0 && ValidRanks(bm25) && ValidRanks(vector) && Ranking(s, bm25, vector, k) && i < j < |s|
    ensures Outranks(bm25, vector, k, Key(s[i]), Key(s[j]))
  {
    assert Ahead(Slot(bm25 + vector), s[i], s[j]);
    assert RowOk(s[i], bm25, vector, k) && RowOk(s[j], bm25, vector, k);
  }

  lemma TopOfRanking(s: Table, bm25: Arm, vector: Arm, k: int, topK: nat, out: Arm)
    requires k > 0 && ValidRanks(bm25) && ValidRanks(vector) && Ranking(s, bm25, vector, k)
    requires |out| == Min(topK, |s|) && forall i | 0 <= i < |out| :: out[i] == Emit(s[i], i + 1)
    ensures FusedTopK(bm25, vector, k, topK, out)
  {
    hide FusedScore, Arrival, Outranks, Last, First, Ahead;
    forall i | 0 <= i < |out| ensures Merged(bm25, vector, k, out[i].chunk, i + 1) == Some(out[i]) {
      assert RowOk(s[i], bm25, vector, k);
    }
    forall i, j | 0 <= i < j < |out| ensures Outranks(bm25, vector, k, out[i].chunk, out[j].chunk) {
      RankingOutranks(s, bm25, vector, k, i, j);
    }
    assert forall j | 0 <= j < |out| :: Key(s[j]) == out[j].chunk && out[j].chunk in Chunks(out);
    forall i, id | 0 <= i < |out| && id in Chunks(bm25 + vector) && id !in Chunks(out)
      ensures Outranks(bm25, vector, k, out[i].chunk, id)
    {
      var j :| 0 <= j < |s| && Key(s[j]) == id;
      RankingOutranks(s, bm25, vector, k, i, j);
    }
  }

  /** The `scored` dictionary after both loops; `None` when a rank is rejected. */
  method Tabulate(bm25: Arm, vector: Arm, rrfK: int) returns (r: Option<Table>)
    requires rrfK > 0
    ensures r.Some? <==> ValidRanks(bm25) && ValidRanks(vector)
    ensures r.Some? ==> Tabulates(r.value, bm25, vector, rrfK)
  {
    var scored: Table := [];
    assert Tabulates(scored, [], [], rrfK);
    hide Tabulates, AddBm25, AddVector;
    for i := 0 to |bm25|
      invariant ValidRanks(bm25[..i]) && Tabulates(scored, bm25[..i], [], rrfK)
    {
      if bm25[i].rank < 1 { return None; }
      Bm25Step(scored, bm25[..i], rrfK, bm25[i]);
      assert bm25[..i + 1] == bm25[..i] + [bm25[i]];
      scored := AddBm25(scored, bm25[i], rrfK);
    }
    assert bm25[..|bm25|] == bm25;
    for i := 0 to |vector|
      invariant ValidRanks(vector[..i]) && Tabulates(scored, bm25, vector[..i], rrfK)
    {
      if vector[i].rank < 1 { return None; }
      VectorStep(scored, bm25, vector[..i], rrfK, vector[i]);
      assert vector[..i + 1] == vector[..i] + [vector[i]];
      scored := AddVector(scored, vector[i], rrfK);
    }
    assert vector[..|vector|] == vector;
    r := Some(scored);
  }

  /** `None` is the ValueError for a non-positive constant or rank. */
  method MergeWithRrf(bm25: Arm, vector: Arm, topK: int, rrfK: int) returns (r: Option<Arm>)
    ensures r.Some? <==> rrfK > 0 && (topK <= 0 || (ValidRanks(bm25) && ValidRanks(vector)))
    ensures r.Some? && topK <= 0 ==> r.value == []
    ensures r.Some? && topK > 0 ==> FusedTopK(bm25, vector, rrfK, topK, r.value)
  {
    if rrfK <= 0 { return None; }
    if topK <= 0 { return Some([]); }
    hide Tabulates, SortDesc, Ranking, FusedTopK;
    var scored := Tabulate(bm25, vector, rrfK);
    if scored == None { return None; }
    var ranked := SortDesc(scored.value);
    SortRanks(scored.value, bm25, vector, rrfK);
    var out: Arm := [];
    for i := 0 to Min(topK, |ranked|)
      invariant |out| == i && forall j | 0 <= j < i :: out[j] == Emit(ranked[j], j + 1)
    {
      out := out + [Emit(ranked[i], i + 1)];
    }
    TopOfRanking(ranked, bm25, vector, rrfK, topK, out);
    r := Some(out);
  }

  /** The specification leaves no choice: it has one solution. */
  lemma {:induction false} FusionIsDetermined(bm25: Arm, vector: Arm, k: int, topK: nat, out: Arm, out': Arm, i: nat)
    requires k > 0 && ValidRanks(bm25) && ValidRanks(vector)
    requires FusedTopK(bm25, vector, k, topK, out) && FusedTopK(bm25, vector, k, topK, out') && i <= |out|
    ensures |out'| == |out| && out[..i] == out'[..i]
  {
    hide Outranks, Last, First, FusedScore;
    if i > 0 {
      FusionIsDetermined(bm25, vector, k, topK, out, out', i - 1);
      var a, b := out[i - 1].chunk, out'[i - 1].chunk;
      if a != b {
        LeaderOutranks(bm25, vector, k, topK, out, out', i - 1);
        LeaderOutranks(bm25, vector, k, topK, out', out, i - 1);
        OutranksIsStrict(bm25, vector, k, a, b);
      }
      assert Merged(bm25, vector, k, a, i) == Some(out[i - 1]);
      assert Merged(bm25, vector, k, b, i) == Some(out'[i - 1]);
      assert out[..i] == out[..i - 1] + [out[i - 1]] && out'[..i] == out'[..i - 1] + [out'[i - 1]];
    }
  }

  lemma OutranksIsStrict(bm25: Arm, vector: Arm, k: int, a: Id, b: Id)
    requires k > 0 && ValidRanks(bm25) && ValidRanks(vector)
    ensures !(Outranks(bm25, vector, k, a, b) && Outranks(bm25, vector, k, b, a))
  {}

  lemma LeaderOutranks(bm25: Arm, vector: Arm, k: int, topK: nat, out: Arm, out': Arm, i: nat)
    requires k > 0 && ValidRanks(bm25) && ValidRanks(vector)
    requires FusedTopK(bm25, vector, k, topK, out) && FusedTopK(bm25, vector, k, topK, out')
    requires i < |out| && i < |out'| && out[..i] == out'[..i] && out[i].chunk != out'[i].chunk
    ensures Outranks(bm25, vector, k, out[i].chunk, out'[i].chunk)
  {
    var b := out'[i].chunk;
    MergedComesFromArms(bm25, vector, k, topK, out', i);
    forall j | 0 <= j < i ensures out[j].chunk != b {
      assert out[j] == out[..i][j] == out'[j];
    }
    if b in Chunks(out) {
      var j :| 0 <= j < |out| && out[j].chunk == b;
      assert j > i;
    }
  }

  /** The same passage: everything but rank, score, stage and metadata. */
  predicate SamePassage(a: Candidate, b: Candidate) {
    a.chunk == b.chunk && a.document == b.document && a.content == b.content && a.page == b.page && a.section == b.section
  }

  ghost predicate HasHit(arm: Arm, id: Id, rank: int) {
    exists c :: c in arm && c.chunk == id && c.rank == rank
  }

  lemma LastIsHit(arm: Arm, id: Id)
    ensures forall r :: RankOf(Last(arm, id)) == Some(r) ==> HasHit(arm, id, r)
  {
    if Last(arm, id).Some? { assert Last(arm, id).value in arm; }
  }

  /** Provenance: a merged chunk was found by an arm, carries that arm's passage, and says which arms found it. */
  lemma MergedComesFromArms(bm25: Arm, vector: Arm, k: int, topK: nat, out: Arm, i: nat)
    requires k > 0 && ValidRanks(bm25) && ValidRanks(vector) && FusedTopK(bm25, vector, k, topK, out) && i < |out|
    ensures out[i].rank == i + 1 && out[i].stage == HybridMerge && out[i].chunk in Chunks(bm25) + Chunks(vector)
    ensures exists src :: src in bm25 + vector && SamePassage(src, out[i])
    ensures out[i].chunk in Chunks(bm25) ==> exists src :: src in bm25 && SamePassage(src, out[i])
    ensures out[i].score == FusedScore(bm25, vector, k, out[i].chunk) && out[i].ranks.Some?
    ensures out[i].ranks.value.bm25.Some? <==> out[i].chunk in Chunks(bm25)
    ensures out[i].ranks.value.vector.Some? <==> out[i].chunk in Chunks(vector)
    ensures forall r :: out[i].ranks.value.bm25 == Some(r) ==> HasHit(bm25, out[i].chunk, r)
    ensures forall r :: out[i].ranks.value.vector == Some(r) ==> HasHit(vector, out[i].chunk, r)
    ensures out[i].chunk in Chunks(bm25 + vector)
    ensures forall j | 0 <= j < |out| && j != i :: out[j].chunk != out[i].chunk
  {
    hide Last, First, FusedScore, HasHit;
    var id := out[i].chunk;
    LastIsHit(bm25, id);
    LastIsHit(vector, id);
    assert Merged(bm25, vector, k, id, i + 1) == Some(out[i]);
    Present(bm25, id);
    Present(vector, id);
    ChunksOfBoth(bm25, vector);
    var src := Source(bm25, vector, id).value;
    assert src in bm25 + vector && SamePassage(src, out[i]);
    assert id in Chunks(bm25) ==> src in bm25;
    forall j | 0 <= j < |out| && j != i ensures out[j].chunk != id {
      OutranksIsStrict(bm25, vector, k, id, id);
      assert if j < i then Outranks(bm25, vector, k, out[j].chunk, id) else Outranks(bm25, vector, k, id, out[j].chunk);
    }
  }

  // ---------------------------------------------------------------- better ranks win

  lemma BetterRankScoresHigher(k: int, rank: int, worse: int)
    requires k > 0 && 1 <= rank <= worse
    ensures Rrf(k, rank) >= Rrf(k, worse) && (rank < worse ==> Rrf(k, rank) > Rrf(k, worse))
    ensures Rrf(k, rank) * (k + rank) as real == 1.0
  {
    Reciprocal(k + rank, k + worse);
    var a, b := (k + rank) as real, (k + worse) as real;
    assert a < b ==> 1.0 / a - 1.0 / b == (b - a) / (a * b);
  }

  /** A chunk ranked no worse by both arms, and better by one, comes first. */
  lemma BetterInBothArmsComesFirst(bm25: Arm, vector: Arm, k: int, a: nat, a': nat, b: nat, b': nat)
    requires k > 0 && ValidRanks(bm25) && ValidRanks(vector) && Distinct(bm25) && Distinct(vector)
    requires a < |bm25| && b < |bm25| && a' < |vector| && b' < |vector|
    requires bm25[a].chunk == vector[a'].chunk && bm25[b].chunk == vector[b'].chunk
    requires bm25[a].rank <= bm25[b].rank && vector[a'].rank <= vector[b'].rank
    requires bm25[a].rank < bm25[b].rank || vector[a'].rank < vector[b'].rank
    ensures Outranks(bm25, vector, k, bm25[a].chunk, bm25[b].chunk)
  {
    hide Last, First, SumRrf, Rrf, Arrival;
    SumOfDistinct(bm25, bm25[a].chunk, k, a);
    SumOfDistinct(bm25, bm25[b].chunk, k, b);
    SumOfDistinct(vector, bm25[a].chunk, k, a');
    SumOfDistinct(vector, bm25[b].chunk, k, b');
    BetterRankScoresHigher(k, bm25[a].rank, bm25[b].rank);
    BetterRankScoresHigher(k, vector[a'].rank, vector[b'].rank);
  }

  // ---------------------------------------------------------------- agreement wins

  predicate Distinct(arm: Arm) {
    forall i, j | 0 <= i < j < |arm| :: arm[i].chunk != arm[j].chunk
  }

  lemma {:induction false} SumOfDistinct(arm: Arm, id: Id, k: int, i: nat)
    requires k > 0 && ValidRanks(arm) && Distinct(arm) && i < |arm| && arm[i].chunk == id
    ensures SumRrf(arm, id, k) == Rrf(k, arm[i].rank) && Last(arm, id) == Some(arm[i])
  {
    var n := |arm| - 1;
    if i == n {
      assert forall j | 0 <= j < n :: arm[..n][j].chunk != id;
      AbsentSum(arm[..n], id, k);
    } else {
      SumOfDistinct(arm[..n], id, k, i);
    }
  }

  lemma RrfBounds(k: int, rank: int)
    requires k > 0 && rank >= 1
    ensures 0.0 < Rrf(k, rank) <= 1.0 / (k + 1) as real
    ensures rank <= k + 1 ==> Rrf(k, rank) >= 1.0 / (2 * k + 1) as real
  {
    Reciprocal(k + 1, k + rank);
    if rank <= k + 1 { Reciprocal(k + rank, 2 * k + 1); }
  }

  lemma Reciprocal(a: int, b: int)
    ensures 0 < a <= b ==> 0.0 < 1.0 / b as real <= 1.0 / a as real
  {}

  /** With ranks up to `k + 1`, a chunk both arms found outscores every chunk only one found. */
  lemma BothArmsWin(bm25: Arm, vector: Arm, k: int, both: Id, one: Id)
    requires k > 0 && ValidRanks(bm25) && ValidRanks(vector) && Distinct(bm25) && Distinct(vector)
    requires forall i | 0 <= i < |bm25| :: bm25[i].rank <= k + 1
    requires forall i | 0 <= i < |vector| :: vector[i].rank <= k + 1
    requires both in Chunks(bm25) && both in Chunks(vector)
    requires one !in Chunks(bm25) || one !in Chunks(vector)
    ensures FusedScore(bm25, vector, k, both) > FusedScore(bm25, vector, k, one)
  {
    hide Last, First, SumRrf, Rrf;
    var b := ArmScore(bm25, both, k);
    var v := ArmScore(vector, both, k);
    var b1, v1 := 0.0, 0.0;
    Present(bm25, one);
    if one in Chunks(bm25) { b1 := ArmScore(bm25, one, k); }
    if one in Chunks(vector) { v1 := ArmScore(vector, one, k); } else { AbsentSum(vector, one, k); }
    assert FusedScore(bm25, vector, k, both) == b + v >= 2.0 * (1.0 / (2 * k + 1) as real);
    assert FusedScore(bm25, vector, k, one) == b1 + v1 <= 1.0 / (k + 1) as real;
    TwoHalves(k);
  }

  lemma TwoHalves(k: int)
    requires k > 0
    ensures 2.0 * (1.0 / (2 * k + 1) as real) > 1.0 / (k + 1) as real
  {
    var a, b := (2 * k + 1) as real, (k + 1) as real;
    assert 2.0 * b > a;
    assert 2.0 * (1.0 / a) == 2.0 / a;
    assert 2.0 / a - 1.0 / b == (2.0 * b - a) / (a * b);
  }

  lemma ArmScore(arm: Arm, id: Id, k: int) returns (score: real)
    requires k > 0 && ValidRanks(arm) && Distinct(arm) && id in Chunks(arm)
    ensures SumRrf(arm, id, k) == score && Last(arm, id).Some? && Last(arm, id).value.rank >= 1
    ensures Rrf(k, Last(arm, id).value.rank) == score
    ensures 0.0 < score <= 1.0 / (k + 1) as real
    ensures (forall i | 0 <= i < |arm| :: arm[i].rank <= k + 1) ==> score >= 1.0 / (2 * k + 1) as real
  {
    hide Rrf, SumRrf, Last;
    var i :| 0 <= i < |arm| && arm[i].chunk == id;
    SumOfDistinct(arm, id, k, i);
    RrfBounds(k, arm[i].rank);
    score := Rrf(k, arm[i].rank);
  }

  /** Hits numbered 1, 2, 3, ... as both searches number them. */
  predicate NumberedHits(arm: Arm) {
    forall i | 0 <= i < |arm| :: arm[i].rank == i + 1
  }

  lemma {:induction false} FirstArrival(arms: Arm, i: nat)
    requires i < |arms| && forall j | 0 <= j < i :: arms[j].chunk != arms[i].chunk
    ensures Arrival(arms, arms[i].chunk) == i
  {
    var n := |arms| - 1;
    if i < n {
      FirstArrival(arms[..n], i);
    } else {
      assert forall j | 0 <= j < n :: arms[..n][j].chunk != arms[n].chunk;
      Present(arms[..n], arms[n].chunk);
    }
  }

  /**
   One rank further and the guarantee is gone: a chunk both arms found at rank `k + 2` only ties with the chunk
   the keyword arm alone found first, and comes behind it.
   */
  lemma TieBehindFirst(bm25: Arm, vector: Arm, k: int)
    requires k > 0 && |bm25| >= k + 2 && |vector| >= k + 2
    requires NumberedHits(bm25) && NumberedHits(vector) && Distinct(bm25) && Distinct(vector)
    requires bm25[k + 1].chunk == vector[k + 1].chunk && bm25[0].chunk !in Chunks(vector)
    ensures FusedScore(bm25, vector, k, bm25[k + 1].chunk) == FusedScore(bm25, vector, k, bm25[0].chunk)
    ensures Outranks(bm25, vector, k, bm25[0].chunk, bm25[k + 1].chunk)
  {
    hide Last, SumRrf, Rrf;
    var one, both, arms := bm25[0].chunk, bm25[k + 1].chunk, bm25 + vector;
    SumOfDistinct(bm25, both, k, k + 1);
    SumOfDistinct(bm25, one, k, 0);
    SumOfDistinct(vector, both, k, k + 1);
    AbsentSum(vector, one, k);
    TwoMakeOne(k);
    assert arms[0] == bm25[0] && arms[k + 1] == bm25[k + 1] && forall j | 0 <= j < k + 1 :: arms[j] == bm25[j];
    FirstArrival(arms, 0);
    FirstArrival(arms, k + 1);
  }

  function Hit(chunk: Id, rank: int, stage: Stage): Candidate {
    Candidate(chunk, 0, "", 0.0, rank, stage, None, None, None)
  }

  /** `n` chunks of its own. */
  function KeywordHits(n: nat): (arm: Arm)
    ensures |arm| == n && forall i | 0 <= i < n :: arm[i].chunk == i && arm[i].rank == i + 1
  {
    if n == 0 then [] else KeywordHits(n - 1) + [Hit(n - 1, n, Bm25)]
  }

  /** Fillers of its own, and last the chunk the keyword arm also found last. */
  function VectorHits(n: nat): (arm: Arm)
    requires n > 0
    ensures |arm| == n && forall i | 0 <= i < n :: arm[i].chunk == (if i == n - 1 then n - 1 else n + i) && arm[i].rank == i + 1
  {
    Fillers(n, n - 1) + [Hit(n - 1, n, Vector)]
  }

  function Fillers(base: nat, n: nat): (arm: Arm)
    ensures |arm| == n && forall i | 0 <= i < n :: arm[i].chunk == base + i && arm[i].rank == i + 1
  {
    if n == 0 then [] else Fillers(base, n - 1) + [Hit(base + n - 1, n, Vector)]
  }

  /** For every constant there are two such result lists, so `k + 1` is the largest rank that is safe. */
  lemma BoundIsTight(k: int) returns (bm25: Arm, vector: Arm)
    requires k > 0
    ensures |bm25| == |vector| == k + 2 && Distinct(bm25) && Distinct(vector)
    ensures NumberedHits(bm25) && NumberedHits(vector)
    ensures var both, one := bm25[k + 1].chunk, bm25[0].chunk;
            && both in Chunks(bm25) && both in Chunks(vector) && one !in Chunks(vector)
            && Outranks(bm25, vector, k, one, both)
  {
    var n := k + 2;
    bm25, vector := KeywordHits(n), VectorHits(n);
    assert forall i | 0 <= i < n :: vector[i].chunk != bm25[0].chunk;
    TieBehindFirst(bm25, vector, k);
    assert bm25[n - 1].chunk in Chunks(bm25) && vector[n - 1].chunk in Chunks(vector);
  }

  /** Two result lists of at most `hits` hits each, as the searches return them. */
  predicate ResultLists(bm25: Arm, vector: Arm, hits: nat) {
    && NumberedHits(bm25) && NumberedHits(vector) && Distinct(bm25) && Distinct(vector)
    && |bm25| <= hits && |vector| <= hits
  }

  ghost predicate AgreementWins(k: int, hits: nat)
    requires k > 0
  {
    forall bm25, vector, both, one |
      && ResultLists(bm25, vector, hits)
      && both in Chunks(bm25) && both in Chunks(vector) && (one !in Chunks(bm25) || one !in Chunks(vector)) ::
      ValidRanks(bm25) && ValidRanks(vector) && FusedScore(bm25, vector, k, both) > FusedScore(bm25, vector, k, one)
  }

  /** Agreement of the arms always wins exactly while neither may return more than `k + 1` hits. */
  lemma AgreementWinsIff(k: int, hits: nat)
    requires k > 0
    ensures AgreementWins(k, hits) <==> hits <= k + 1
  {
    hide FusedScore, Chunks, Distinct;
    if hits <= k + 1 {
      forall bm25, vector, both, one |
        && ResultLists(bm25, vector, hits)
        && both in Chunks(bm25) && both in Chunks(vector) && (one !in Chunks(bm25) || one !in Chunks(vector))
        ensures ValidRanks(bm25) && ValidRanks(vector) && FusedScore(bm25, vector, k, both) > FusedScore(bm25, vector, k, one)
      {
        BothArmsWin(bm25, vector, k, both, one);
      }
    } else {
      var bm25, vector := BoundIsTight(k);
      assert ResultLists(bm25, vector, hits);
      var both, one := bm25[k + 1].chunk, bm25[0].chunk;
      assert !(FusedScore(bm25, vector, k, both) > FusedScore(bm25, vector, k, one));
    }
  }

  lemma TwoMakeOne(k: int)
    requires k > 0
    ensures Rrf(k, k + 2) + Rrf(k, k + 2) == Rrf(k, 1)
  {
    var x := (k + 1) as real;
    assert (k + (k + 2)) as real == 2.0 * x;
    assert 2.0 * (1.0 / (2.0 * x)) == 1.0 / x;
  }
}
