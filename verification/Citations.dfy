/**
 From merged candidates to persisted citations: rerank, the numbered context block, and the rows an answer's
 `[n]` markers select.
 */
module Citations {
  import opened Options
  import opened StableSort
  import opened RankFusion
  import opened Decimals
  import opened Places
  import T = Text

  // ---------------------------------------------------------------- rerank

  /** A reranker either raises its own error or returns positions and scores. */
  datatype Reranking = RerankerError | Reranked(indices: seq<int>, scores: seq<real>)

  /** Python list indexing: negative indices count from the end. */
  function PyIndex(n: nat, i: int): Option<nat> {
    if 0 <= i < n then Some(i) else if i < 0 <= n + i then Some(n + i) else None
  }

  predicate Usable(n: nat, reranking: Reranking) {
    reranking.Reranked? ==>
      && |reranking.indices| == |reranking.scores|
      && forall i | 0 <= i < |reranking.indices| :: PyIndex(n, reranking.indices[i]).Some?
  }

  /** Which merged candidates are kept, in order: all when disabled, the first `topK` when degraded. */
  function Positions(n: nat, topK: int, reranking: Reranking): (p: seq<nat>)
    requires Usable(n, reranking)
    ensures forall i | 0 <= i < |p| :: p[i] < n
  {
    if n == 0 then []
    else if topK <= 0 then seq(n, i => i)
    else match reranking
      case RerankerError => seq(Min(topK, n), i => i)
      case Reranked(indices, scores) =>
        seq(|indices|, i requires 0 <= i < |indices| => PyIndex(n, indices[i]).value)
  }

  function Placed(c: Candidate, rank: int): Candidate {
    c.(rank := rank, stage := Rerank)
  }

  /** `out` is `merged` read at the kept positions, renumbered; only a reranker that answered rescores. */
  ghost predicate RerankedAs(merged: Arm, topK: int, reranking: Reranking, out: Arm)
    requires Usable(|merged|, reranking)
  {
    var p := Positions(|merged|, topK, reranking);
    && |out| == |p|
    && forall i | 0 <= i < |out| ::
         out[i] == Placed(merged[p[i]], i + 1).(score :=
           if topK > 0 && reranking.Reranked? then reranking.scores[i] else merged[p[i]].score)
  }

  /** The first `n` candidates, renumbered. */
  function Renumbered(merged: Arm, n: nat): (out: Arm)
    requires n <= |merged|
    ensures |out| == n && forall i | 0 <= i < n :: out[i] == Placed(merged[i], i + 1)
  {
    if n == 0 then [] else Renumbered(merged, n - 1) + [Placed(merged[n - 1], n)]
  }

  /** `None` is a ValueError or IndexError from a reranker that answered nonsense. */
  method RerankCandidates(merged: Arm, topK: int, reranking: Reranking) returns (r: Option<Arm>)
    ensures r.Some? <==> merged == [] || topK <= 0 || Usable(|merged|, reranking)
    ensures r.Some? && Usable(|merged|, reranking) ==> RerankedAs(merged, topK, reranking, r.value)
    ensures merged == [] ==> r == Some([])
    ensures topK <= 0 ==> r == Some(Renumbered(merged, |merged|))
  {
    if merged == [] { return Some([]); }
    if topK <= 0 { return Some(Renumbered(merged, |merged|)); }
    if reranking.RerankerError? { return Some(Renumbered(merged, Min(topK, |merged|))); }
    if |reranking.indices| != |reranking.scores| { return None; }
    var out: Arm := [];
    for i := 0 to |reranking.indices|
      invariant |out| == i
      invariant forall j | 0 <= j < i :: PyIndex(|merged|, reranking.indices[j]).Some?
      invariant forall j | 0 <= j < i ::
        out[j] == Placed(merged[PyIndex(|merged|, reranking.indices[j]).value], j + 1).(score := reranking.scores[j])
    {
      var at := PyIndex(|merged|, reranking.indices[i]);
      if at == None { return None; }
      out := out + [Placed(merged[at.value], i + 1).(score := reranking.scores[i])];
    }
    r := Some(out);
  }

  /** Merged candidate `m` under a new rank: the same passage, marked as reranked. */
  predicate Reranks(c: Candidate, m: Candidate, rank: int) {
    SamePassage(c, m) && c.rank == rank && c.stage == Rerank
  }

  /**
   The three ways through: switched off, all candidates stay in merge order with their scores; when the reranker
   fails, the first `topK` do; when it answers, place i shows the candidate it named there, with its new score.
   */
  lemma RerankPaths(merged: Arm, topK: int, reranking: Reranking, out: Arm)
    requires Usable(|merged|, reranking) && RerankedAs(merged, topK, reranking, out)
    ensures topK > 0 && reranking.Reranked? && merged != [] ==>
      && |out| == |reranking.indices|
      && forall i | 0 <= i < |out| ::
           var at := reranking.indices[i];
           && out[i].score == reranking.scores[i]
           && (0 <= at < |merged| ==> Reranks(out[i], merged[at], i + 1))
           && (-|merged| <= at < 0 ==> Reranks(out[i], merged[|merged| + at], i + 1))
    ensures topK <= 0 || reranking.RerankerError? ==>
      && |out| == (if topK <= 0 || topK > |merged| then |merged| else topK)
      && forall i | 0 <= i < |out| :: Reranks(out[i], merged[i], i + 1) && out[i].score == merged[i].score
    ensures merged == [] ==> out == []
  {
    var p := Positions(|merged|, topK, reranking);
    assert forall i | 0 <= i < |out| :: Reranks(out[i], merged[p[i]], i + 1);
    hide Reranks, Placed;
  }

  predicate AllDifferent(p: seq<nat>) {
    forall i, j | 0 <= i < j < |p| :: p[i] != p[j]
  }

  /** Distinct chunks stay distinct exactly when no position is used twice. */
  lemma RerankKeepsDistinct(merged: Arm, topK: int, reranking: Reranking, out: Arm)
    requires Usable(|merged|, reranking) && RerankedAs(merged, topK, reranking, out) && Distinct(merged)
    ensures Distinct(out) <==> AllDifferent(Positions(|merged|, topK, reranking))
  {
    var p := Positions(|merged|, topK, reranking);
    forall i, j | 0 <= i < j < |out| ensures out[i].chunk != out[j].chunk <==> p[i] != p[j] {
      assert out[i].chunk == merged[p[i]].chunk && out[j].chunk == merged[p[j]].chunk;
      assert p[i] < p[j] || p[j] < p[i] || p[i] == p[j];
    }
  }

  /** The cross-encoder: positions by descending score, ties in merge order, cut at `topK`. */
  function Enumerated(scores: seq<real>): seq<Scored<int>> {
    seq(|scores|, i requires 0 <= i < |scores| => Scored(i, scores[i]))
  }

  function BgeRerank(scores: seq<real>, topK: int): Reranking {
    var indexed := SortDesc(Enumerated(scores));
    var kept := if topK < 0 then [] else indexed[..Min(topK, |indexed|)];
    Reranked(seq(|kept|, i requires 0 <= i < |kept| => kept[i].item), seq(|kept|, i requires 0 <= i < |kept| => kept[i].score))
  }

  function NoOpRerank(n: nat, topK: nat): Reranking {
    Reranked(seq(Min(topK, n), i => i), seq(Min(topK, n), i => 1.0 - i as real * 0.01))
  }

  function Itself(): int -> int { i => i }

  lemma BgeSorted(scores: seq<real>)
    ensures var s := SortDesc(Enumerated(scores));
            && |s| == |scores| && InOrder(Itself(), s)
            && (forall i | 0 <= i < |s| :: 0 <= s[i].item < |scores| && s[i].score == scores[s[i].item])
            && (forall m | 0 <= m < |scores| :: Scored(m, scores[m]) in s)
  {
    hide SortDesc;
    var d, s := Enumerated(scores), SortDesc(Enumerated(scores));
    SortIsStable(Itself(), d);
    SortPermutes(d);
    forall i | 0 <= i < |s| ensures s[i] in d { assert s[i] in multiset(s); }
    forall m | 0 <= m < |scores| ensures Scored(m, scores[m]) in s {
      assert d[m] == Scored(m, scores[m]) && d[m] in multiset(d);
    }
  }

  /**
   Both rerankers answer usably and never name a position twice; the trivial one keeps the merge order, and the
   cross-encoder keeps the best scores.
   */
  lemma RerankersAreUsable(scores: seq<real>, topK: nat)
    ensures var n := |scores|; Usable(n, NoOpRerank(n, topK)) && Usable(n, BgeRerank(scores, topK))
    ensures topK > 0 ==> var n := |scores|;
      AllDifferent(Positions(n, topK, NoOpRerank(n, topK))) && AllDifferent(Positions(n, topK, BgeRerank(scores, topK)))
    ensures var r := NoOpRerank(|scores|, topK);
      && |r.indices| == Min(topK, |scores|) && (forall i | 0 <= i < |r.indices| :: r.indices[i] == i)
      && (forall i, j | 0 <= i < j < |r.indices| :: r.scores[i] > r.scores[j])
    ensures var r := BgeRerank(scores, topK);
      && |r.indices| == Min(topK, |scores|)
      && (forall i, j | 0 <= i < j < |r.indices| :: r.scores[i] >= r.scores[j])
      && (forall i, m | 0 <= i < |r.indices| && 0 <= m < |scores| && m !in r.indices :: r.scores[i] >= scores[m])
  {
    hide SortDesc;
    BgeSorted(scores);
    var s, r := SortDesc(Enumerated(scores)), BgeRerank(scores, topK);
    assert forall i | 0 <= i < |r.indices| :: r.indices[i] == s[i].item && r.scores[i] == s[i].score;
    forall i, j | 0 <= i < j < |r.indices| ensures r.indices[i] != r.indices[j] && r.scores[i] >= r.scores[j] {
      assert Ahead(Itself(), s[i], s[j]);
    }
    forall i, m | 0 <= i < |r.indices| && 0 <= m < |scores| && m !in r.indices ensures r.scores[i] >= scores[m] {
      assert Scored(m, scores[m]) in s;
      var j :| 0 <= j < |s| && s[j] == Scored(m, scores[m]);
      assert j >= |r.indices|;
      assert Ahead(Itself(), s[i], s[j]);
    }
  }

  // ---------------------------------------------------------------- numbered context

  predicate AllDigits(d: string) { forall i | 0 <= i < |d| :: Digit(d[i]) }

  function Show(n: nat): (d: string)
    ensures d != "" && AllDigits(d)
  {
    if n < 10 then [('0' as int + n) as char] else Show(n / 10) + [('0' as int + n % 10) as char]
  }

  function ShowInt(n: int): string {
    if n < 0 then "-" + Show(-n) else Show(n)
  }

  function Value(d: string): nat
    requires AllDigits(d)
  {
    if d == "" then 0 else 10 * Value(d[..|d| - 1]) + DigitValue(d[|d| - 1]).value
  }

  lemma {:induction false} ShowValue(n: nat)
    ensures Value(Show(n)) == n
  {
    if n < 10 {
      assert Show(n)[..0] == "";
    } else {
      ShowValue(n / 10);
      assert Show(n)[..|Show(n)| - 1] == Show(n / 10);
    }
  }

  function Line(i: nat, c: Candidate): string {
    var section := if c.section.Some? && c.section.value != "" then " \U{2014} " + c.section.value else "";
    var page := if c.page.Some? then ", page " + ShowInt(c.page.value) else "";
    "[" + Show(i) + section + page + "] " + c.content
  }

  function Numbered(reranked: Arm): seq<(nat, Candidate)> {
    seq(|reranked|, i requires 0 <= i < |reranked| => (i + 1, reranked[i]))
  }

  function Lines(reranked: Arm): seq<string> {
    seq(|reranked|, i requires 0 <= i < |reranked| => Line(i + 1, reranked[i]))
  }

  method Assemble(reranked: Arm) returns (text: string, citations: seq<(nat, Candidate)>)
    ensures citations == Numbered(reranked) && text == T.Join("\n\n", Lines(reranked))
  {
    var lines: seq<string> := [];
    citations := [];
    for i := 0 to |reranked|
      invariant |lines| == |citations| == i
      invariant forall j | 0 <= j < i :: lines[j] == Line(j + 1, reranked[j]) && citations[j] == (j + 1, reranked[j])
    {
      lines := lines + [Line(i + 1, reranked[i])];
      citations := citations + [(i + 1, reranked[i])];
    }
    assert lines == Lines(reranked);
    text := T.Join("\n\n", lines);
  }

  // ---------------------------------------------------------------- markers in the answer

  /** End of the run of digits starting at `from`. */
  function DigitRun(s: string, from: nat): (e: nat)
    requires from <= |s|
    ensures from <= e <= |s| && AllDigits(s[from..e]) && (e < |s| ==> !Digit(s[e]))
    decreases |s| - from
  {
    if from == |s| || !Digit(s[from]) then from
    else
      var e := DigitRun(s, from + 1);
      assert s[from..e] == [s[from]] + s[from + 1..e];
      e
  }

  /** `\[(\d+)\]` matches at the start of the text. */
  predicate MarkerAt(s: string) {
    s != "" && s[0] == '[' && var e := DigitRun(s, 1); 1 < e < |s| && s[e] == ']'
  }

  /** Successive non-overlapping matches, left to right. */
  function ReferencedIndices(s: string): seq<nat> {
    if s == "" then []
    else if MarkerAt(s) then
      var e := DigitRun(s, 1);
      [Value(s[1..e])] + ReferencedIndices(s[e + 1..])
    else ReferencedIndices(s[1..])
  }

  /** The text is `p`, the marker for `n` written as `d`, and `q`. */
  predicate Marks(s: string, p: string, d: string, q: string, n: nat) {
    s == p + "[" + d + "]" + q && d != "" && AllDigits(d) && Value(d) == n
  }

  lemma {:induction false} RunEnds(s: string, from: nat, e: nat)
    requires from <= e < |s| && AllDigits(s[from..e]) && !Digit(s[e])
    ensures DigitRun(s, from) == e
    decreases e - from
  {
    if from < e {
      assert Digit(s[from..e][0]);
      assert s[from + 1..e] == s[from..e][1..];
      RunEnds(s, from + 1, e);
    }
  }

  lemma {:induction false} RunStops(s: string, from: nat, stop: nat)
    requires from <= stop < |s| && !Digit(s[stop])
    ensures DigitRun(s, from) <= stop
    decreases stop - from
  {
    if from < stop && Digit(s[from]) { RunStops(s, from + 1, stop); }
  }

  lemma MarkerHere(s: string, d: string, q: string, n: nat)
    requires Marks(s, "", d, q, n)
    ensures n in ReferencedIndices(s)
  {
    var e := 1 + |d|;
    assert s[1..e] == d && s[0] == '[' && s[e] == ']';
    RunEnds(s, 1, e);
  }

  /** Cutting off text before the marker. */
  lemma MarksSooner(s: string, cut: nat, p: string, d: string, q: string, n: nat)
    requires cut <= |p| && Marks(s, p, d, q, n)
    ensures cut <= |s| && Marks(s[cut..], p[cut..], d, q, n) && |p| < |s| && s[|p|] == '['
  {
    hide Value;
    assert s[cut..] == p[cut..] + "[" + d + "]" + q;
  }

  /** Whatever surrounds it, a marker is found. */
  lemma {:induction false} MarkerFound(s: string, p: string, d: string, q: string, n: nat)
    requires Marks(s, p, d, q, n)
    ensures n in ReferencedIndices(s)
    decreases |p|
  {
    hide Marks, Value;
    if p == "" {
      MarkerHere(s, d, q, n);
    } else {
      MarksSooner(s, 0, p, d, q, n);
      var cut := 1;
      if MarkerAt(s) {
        RunStops(s, 1, |p|);
        cut := DigitRun(s, 1) + 1;
      }
      MarksSooner(s, cut, p, d, q, n);
      MarkerFound(s[cut..], p[cut..], d, q, n);
    }
  }

  lemma MarksLater(s: string, cut: nat, p: string, d: string, q: string, n: nat)
    requires cut <= |s| && Marks(s[cut..], p, d, q, n)
    ensures Marks(s, s[..cut] + p, d, q, n)
  {
    hide Value;
    assert s == s[..cut] + s[cut..];
  }

  lemma MarksHere(s: string)
    requires MarkerAt(s)
    ensures var e := DigitRun(s, 1); Marks(s, "", s[1..e], s[e + 1..], Value(s[1..e]))
  {
    var e := DigitRun(s, 1);
    hide Value;
    assert s == "" + "[" + s[1..e] + "]" + s[e + 1..];
  }

  /** Nothing else is: every index found stands in the text as a marker. */
  lemma {:induction false} MarkerSound(s: string, n: nat) returns (p: string, d: string, q: string)
    requires n in ReferencedIndices(s)
    ensures Marks(s, p, d, q, n)
  {
    hide Marks, Value;
    var cut := 1;
    if MarkerAt(s) {
      var e := DigitRun(s, 1);
      MarksHere(s);
      if Value(s[1..e]) == n { return "", s[1..e], s[e + 1..]; }
      cut := e + 1;
    }
    p, d, q := MarkerSound(s[cut..], n);
    MarksLater(s, cut, p, d, q, n);
    p := s[..cut] + p;
  }

  ghost predicate Cites(answer: string, n: nat) {
    exists p, d, q :: Marks(answer, p, d, q, n)
  }

  lemma ReferencedIffCited(answer: string, n: nat)
    ensures n in ReferencedIndices(answer) <==> Cites(answer, n)
  {
    if n in ReferencedIndices(answer) { var p, d, q := MarkerSound(answer, n); }
    if p, d, q :| Marks(answer, p, d, q, n) { MarkerFound(answer, p, d, q, n); }
  }

  // ---------------------------------------------------------------- citation rows

  datatype CitationRow = CitationRow(index: nat, chunk: Id, document: Id, quoted: string, page: Option<int>,
                                     section: Option<string>, relevance: real)

  const QUOTE_LIMIT := 500

  function RowFor(index: nat, c: Candidate): CitationRow {
    CitationRow(index, c.chunk, c.document, c.content[..Min(QUOTE_LIMIT, |c.content|)], c.page, c.section, c.score)
  }

  /** An answer without markers cites everything it was shown. */
  predicate Selected(answer: string, index: nat) {
    ReferencedIndices(answer) == [] || index in ReferencedIndices(answer)
  }

  predicate CitationOk(reranked: Arm, answer: string, row: CitationRow) {
    && 1 <= row.index <= |reranked| && Selected(answer, row.index)
    && row == RowFor(row.index, reranked[row.index - 1])
  }

  /** Exactly the selected candidates, each under its own number, in increasing order. */
  ghost predicate CitesExactly(reranked: Arm, answer: string, rows: seq<CitationRow>) {
    && (forall k | 0 <= k < |rows| :: CitationOk(reranked, answer, rows[k]))
    && (forall k, l | 0 <= k < l < |rows| :: rows[k].index < rows[l].index)
    && (forall i | 1 <= i <= |reranked| && Selected(answer, i) :: Cited(rows, i))
  }

  predicate Cited(rows: seq<CitationRow>, i: nat) {
    exists k :: 0 <= k < |rows| && rows[k].index == i
  }

  lemma CitedStill(rows: seq<CitationRow>, row: CitationRow, i: nat)
    requires Cited(rows, i) || row.index == i
    ensures Cited(rows + [row], i)
  {
    if row.index == i { assert (rows + [row])[|rows|].index == i; } else {
      var k :| 0 <= k < |rows| && rows[k].index == i;
      assert (rows + [row])[k].index == i;
    }
  }

  method PersistCitations(reranked: Arm, citations: seq<(nat, Candidate)>, answer: string) returns (rows: seq<CitationRow>)
    requires citations == Numbered(reranked)
    ensures CitesExactly(reranked, answer, rows)
  {
    var referenced := ReferencedIndices(answer);
    hide ReferencedIndices;
    rows := [];
    for i := 0 to |citations|
      invariant CitesExactly(reranked[..i], answer, rows)
    {
      var (idx, cand) := citations[i];
      ghost var before := rows;
      assert Selected(answer, idx) <==> referenced == [] || idx in referenced;
      if referenced == [] || idx in referenced {
        rows := rows + [RowFor(idx, cand)];
      }
      OneMoreCitation(reranked, answer, before, i);
    }
    assert reranked[..|citations|] == reranked;
  }

  lemma PrefixCitation(reranked: Arm, answer: string, row: CitationRow, n: nat)
    requires n < |reranked| && CitationOk(reranked[..n], answer, row)
    ensures CitationOk(reranked[..n + 1], answer, row) && row.index <= n
  {
    hide Selected, RowFor;
    assert reranked[..n + 1][row.index - 1] == reranked[..n][row.index - 1];
  }

  lemma OneMoreCitation(reranked: Arm, answer: string, rows: seq<CitationRow>, n: nat)
    requires n < |reranked| && CitesExactly(reranked[..n], answer, rows)
    ensures var rows' := if Selected(answer, n + 1) then rows + [RowFor(n + 1, reranked[n])] else rows;
            CitesExactly(reranked[..n + 1], answer, rows')
  {
    hide ReferencedIndices;
    var row := RowFor(n + 1, reranked[n]);
    assert row.index == n + 1;
    assert Selected(answer, n + 1) ==> CitationOk(reranked[..n + 1], answer, row);
    hide Selected, CitationOk, RowFor, Cited;
    var rows' := if Selected(answer, n + 1) then rows + [row] else rows;
    forall k | 0 <= k < |rows| ensures CitationOk(reranked[..n + 1], answer, rows[k]) && rows[k].index <= n {
      PrefixCitation(reranked, answer, rows[k], n);
    }
    forall i | 1 <= i <= n + 1 && Selected(answer, i) ensures Cited(rows', i) {
      if Selected(answer, n + 1) { CitedStill(rows, row, i); }
    }
  }

  /** The row names the passage and quotes its first five hundred characters, all of it when it is shorter. */
  predicate Quotes(row: CitationRow, src: Candidate) {
    && row.chunk == src.chunk && row.document == src.document && row.page == src.page && row.section == src.section
    && row.quoted <= src.content && |row.quoted| <= 500
    && (|row.quoted| < 500 ==> row.quoted == src.content)
  }

  /**
   From arms to rows: whatever the reranker did, every persisted citation quotes a passage an arm retrieved,
   no chunk is cited twice, and the answer's `[n]` is the n-th line the model was shown.
   */
  lemma CitationsTraceBack(bm25: Arm, vector: Arm, k: int, topK: nat, merged: Arm, topRerank: int, reranking: Reranking,
                           reranked: Arm, answer: string, rows: seq<CitationRow>, r: nat)
    requires k > 0 && ValidRanks(bm25) && ValidRanks(vector) && FusedTopK(bm25, vector, k, topK, merged)
    requires Usable(|merged|, reranking) && RerankedAs(merged, topRerank, reranking, reranked)
    requires AllDifferent(Positions(|merged|, topRerank, reranking))
    requires CitesExactly(reranked, answer, rows) && r < |rows|
    ensures Distinct(merged) && Distinct(reranked)
    ensures 1 <= rows[r].index <= |reranked| && reranked[rows[r].index - 1].rank == rows[r].index
    ensures rows[r].relevance == reranked[rows[r].index - 1].score
    ensures exists src :: src in bm25 + vector && Quotes(rows[r], src)
    ensures forall r' | 0 <= r' < |rows| && r' != r :: rows[r'].chunk != rows[r].chunk
    ensures (forall n :: !Cites(answer, n)) || Cites(answer, rows[r].index)
  {
    hide FusedTopK, ReferencedIndices;
    MergedIsDistinct(bm25, vector, k, topK, merged);
    RerankKeepsDistinct(merged, topRerank, reranking, reranked);
    assert CitationOk(reranked, answer, rows[r]);
    var at := rows[r].index - 1;
    var m := Positions(|merged|, topRerank, reranking)[at];
    assert rows[r] == RowFor(at + 1, reranked[at]) && SamePassage(merged[m], reranked[at]);
    MergedComesFromArms(bm25, vector, k, topK, merged, m);
    var src :| src in bm25 + vector && SamePassage(src, merged[m]);
    assert Quotes(rows[r], src);
    forall r' | 0 <= r' < |rows| && r' != r ensures rows[r'].chunk != rows[r].chunk {
      assert CitationOk(reranked, answer, rows[r']) && rows[r'] == RowFor(rows[r'].index, reranked[rows[r'].index - 1]);
      assert rows[r'].index < rows[r].index || rows[r].index < rows[r'].index;
    }
    ReferencedIffCited(answer, rows[r].index);
    if ReferencedIndices(answer) == [] {
      forall n ensures !Cites(answer, n) { ReferencedIffCited(answer, n); }
    }
  }

  lemma MergedIsDistinct(bm25: Arm, vector: Arm, k: int, topK: nat, merged: Arm)
    requires k > 0 && ValidRanks(bm25) && ValidRanks(vector) && FusedTopK(bm25, vector, k, topK, merged)
    ensures Distinct(merged)
  {
    forall i, j | 0 <= i < j < |merged| ensures merged[i].chunk != merged[j].chunk {
      MergedComesFromArms(bm25, vector, k, topK, merged, i);
    }
  }

  /** What is persisted: the candidates the answer cites, or all of them when it cites none. */
  lemma PersistedIffCited(reranked: Arm, answer: string, rows: seq<CitationRow>, i: nat)
    requires CitesExactly(reranked, answer, rows) && 1 <= i <= |reranked|
    ensures Cited(rows, i) <==> Cites(answer, i) || forall n :: !Cites(answer, n)
  {
    hide ReferencedIndices, Cites;
    ReferencedIffCited(answer, i);
    if ReferencedIndices(answer) == [] {
      forall n ensures !Cites(answer, n) { ReferencedIffCited(answer, n); }
    } else {
      ReferencedIffCited(answer, ReferencedIndices(answer)[0]);
    }
    if Cited(rows, i) {
      var k :| 0 <= k < |rows| && rows[k].index == i;
      assert CitationOk(reranked, answer, rows[k]);
    }
  }

  /** An answer that writes `[i]` for a line it was shown persists that line, whatever else it says. */
  lemma WritingTheMarkerCites(reranked: Arm, p: string, q: string, i: nat, rows: seq<CitationRow>)
    requires 1 <= i <= |reranked| && CitesExactly(reranked, p + "[" + Show(i) + "]" + q, rows)
    ensures exists k :: 0 <= k < |rows| && rows[k] == RowFor(i, reranked[i - 1])
  {
    var answer := p + "[" + Show(i) + "]" + q;
    ShowValue(i);
    assert Marks(answer, p, Show(i), q, i);
    MarkerFound(answer, p, Show(i), q, i);
    hide ReferencedIndices, Show;
    assert Selected(answer, i) && Cited(rows, i);
    var k :| 0 <= k < |rows| && rows[k].index == i;
    assert CitationOk(reranked, answer, rows[k]);
  }

  // ---------------------------------------------------------------- what a context line shows

  function Label(c: Candidate): string {
    (if c.section.Some? && c.section.value != "" then " \U{2014} " + c.section.value else "")
    + if c.page.Some? then ", page " + ShowInt(c.page.value) else ""
  }

  /** A line is its number, the section and page if any, and the passage; its number reads back. */
  lemma LineShows(i: nat, c: Candidate)
    ensures Line(i, c) == "[" + Show(i) + Label(c) + "] " + c.content
    ensures Line(i, c)[0] == '['
    ensures var e := DigitRun(Line(i, c), 1); e < |Line(i, c)| && Line(i, c)[1..e] == Show(i) && Value(Line(i, c)[1..e]) == i
  {
    var s, e, rest := Line(i, c), 1 + |Show(i)|, Label(c) + "] " + c.content;
    ShowValue(i);
    hide Show, ShowInt, Value;
    assert s == "[" + Show(i) + rest;
    assert s[1..e] == Show(i) && s[e] == rest[0];
    assert rest[0] == ' ' || rest[0] == ',' || rest[0] == ']';
    RunEnds(s, 1, e);
  }

  /** The digits that head line `i`. */
  function HeadOf(i: nat, c: Candidate): string
  {
    LineShows(i, c);
    Line(i, c)[1..DigitRun(Line(i, c), 1)]
  }

  lemma HeadIsNumber(i: nat, c: Candidate)
    ensures HeadOf(i, c) == Show(i)
  {
    LineShows(i, c);
    hide Line, Show, Label;
  }

  lemma LineStands(reranked: Arm, j: nat)
    requires j < |reranked|
    ensures StandsAt([T.Join("\n\n", Lines(reranked))], Place(0, At("\n\n", Lines(reranked), j)), Line(j + 1, reranked[j]))
  {
    hide Line, At, T.Join;
    PartStandsAt("\n\n", Lines(reranked), j);
    assert Lines(reranked)[j] == Line(j + 1, reranked[j]);
  }

  /**
   The context shows line `j` headed with a number; an answer that repeats that number as a marker persists the
   candidate whose passage the line shows.
   */
  lemma ShownNumberCites(reranked: Arm, j: nat, p: string, q: string, rows: seq<CitationRow>)
    requires j < |reranked| && CitesExactly(reranked, p + "[" + HeadOf(j + 1, reranked[j]) + "]" + q, rows)
    ensures StandsAt([T.Join("\n\n", Lines(reranked))], Place(0, At("\n\n", Lines(reranked), j)), Line(j + 1, reranked[j]))
    ensures exists k :: 0 <= k < |rows| && rows[k] == RowFor(j + 1, reranked[j])
  {
    hide Line, Show, At, T.Join, CitesExactly, StandsAt, HeadOf, RowFor;
    HeadIsNumber(j + 1, reranked[j]);
    LineStands(reranked, j);
    WritingTheMarkerCites(reranked, p, q, j + 1, rows);
  }
}
