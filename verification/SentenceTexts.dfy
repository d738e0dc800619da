/** What the splitter returns, read as texts: where every sentence stands, and when nothing is repeated. */
module SentenceTexts {
  import opened Text
  import opened SentenceSplit
  import opened Places

  function Out(tk: Tokenizer, cfg: Config, pieces: seq<Piece>): seq<string>
    requires cfg.overlap < cfg.target
  {
    NonEmpty(Render(tk, cfg, pieces))
  }

  /** Runs of solid sentences, and oversized sentences that are. */
  predicate Plain(tk: Tokenizer, cfg: Config, piece: Piece) {
    match piece
    case SentenceRun(carried, added) => AllSolid(carried) && AllSolid(added) && carried + added != []
    case Oversized(sentence) => tk.Count(sentence) > cfg.target
  }

  predicate AllPlain(tk: Tokenizer, cfg: Config, pieces: seq<Piece>) {
    forall k | 0 <= k < |pieces| :: Plain(tk, cfg, pieces[k])
  }

  lemma FlushPlain(tk: Tokenizer, cfg: Config, st: Split)
    requires AllPlain(tk, cfg, st.pieces) && AllSolid(st.carried) && AllSolid(st.added)
    ensures var st' := Flush(tk, cfg, st); AllPlain(tk, cfg, st'.pieces) && AllSolid(st'.carried) && AllSolid(st'.added)
  {
    OverlapIsSuffix(tk, st.carried + st.added, cfg.overlap);
  }

  lemma {:induction false} TakeAllPlain(tk: Tokenizer, cfg: Config, sentences: seq<string>)
    requires AllSolid(sentences)
    ensures var st := TakeAll(tk, cfg, sentences); AllPlain(tk, cfg, st.pieces) && AllSolid(st.carried) && AllSolid(st.added)
  {
    if sentences != [] {
      var init := sentences[..|sentences| - 1];
      TakeAllPlain(tk, cfg, init);
      FlushPlain(tk, cfg, TakeAll(tk, cfg, init));
      hide Strip, Flush;
    }
  }

  // ---------------------------------------------------------------- where sentences stand

  /** Where a piece that is rendered from text `k` on shows the sentences it introduces. */
  function PiecePlaces(piece: Piece, k: nat): seq<Place> {
    match piece
    case SentenceRun(carried, added) =>
      seq(|added|, i requires 0 <= i < |added| => Place(k, At(" ", carried + added, |carried| + i)))
    case Oversized(_) => [Place(k, 0)]
  }

  function PlacesOf(tk: Tokenizer, cfg: Config, pieces: seq<Piece>): seq<Place>
    requires cfg.overlap < cfg.target
  {
    if pieces == [] then []
    else
      var init := pieces[..|pieces| - 1];
      PlacesOf(tk, cfg, init) + PiecePlaces(pieces[|pieces| - 1], |Out(tk, cfg, init)|)
  }

  /** A run is rendered as its sentences joined by spaces. */
  lemma RunText(tk: Tokenizer, cfg: Config, run: Piece)
    requires cfg.overlap < cfg.target && run.SentenceRun? && Plain(tk, cfg, run)
    ensures NonEmpty(RenderPiece(tk, cfg, run)) == [Join(" ", run.carried + run.added)]
  {
    var text := Join(" ", run.carried + run.added);
    JoinSolid(" ", run.carried + run.added);
    StripSolid(text);
    hide Join, Strip;
    assert [text][..0] == [];
  }

  predicate PieceStands(tk: Tokenizer, cfg: Config, texts: seq<string>, piece: Piece, places: seq<Place>) {
    && |places| == |Introduces(piece)|
    && forall i | 0 <= i < |places| && tk.Count(Introduces(piece)[i]) <= cfg.target :: StandsAt(texts, places[i], Introduces(piece)[i])
  }

  lemma AddedStands(texts: seq<string>, parts: seq<string>, i: nat)
    requires i < |parts|
    ensures StandsAt(texts + [Join(" ", parts)], Place(|texts|, At(" ", parts, i)), parts[i])
  {
    hide Join, At;
    PartStandsAt(" ", parts, i);
    var joined := Join(" ", parts);
    assert (texts + [joined])[|texts|] == joined;
  }

  lemma LastPieceStands(tk: Tokenizer, cfg: Config, texts: seq<string>, piece: Piece)
    requires cfg.overlap < cfg.target && Plain(tk, cfg, piece)
    ensures PieceStands(tk, cfg, texts + NonEmpty(RenderPiece(tk, cfg, piece)), piece, PiecePlaces(piece, |texts|))
  {
    if piece.SentenceRun? {
      RunText(tk, cfg, piece);
      var parts := piece.carried + piece.added;
      hide Join, At, RenderPiece, NonEmpty, StandsAt;
      forall i | 0 <= i < |piece.added| ensures StandsAt(texts + [Join(" ", parts)], PiecePlaces(piece, |texts|)[i], piece.added[i]) {
        AddedStands(texts, parts, |piece.carried| + i);
        assert parts[|piece.carried| + i] == piece.added[i];
      }
    }
  }

  lemma OutSnoc(tk: Tokenizer, cfg: Config, pieces: seq<Piece>)
    requires cfg.overlap < cfg.target && pieces != []
    ensures Out(tk, cfg, pieces)
            == Out(tk, cfg, pieces[..|pieces| - 1]) + NonEmpty(RenderPiece(tk, cfg, pieces[|pieces| - 1]))
  {
    hide NonEmpty, RenderPiece;
    NonEmptyAppend(Render(tk, cfg, pieces[..|pieces| - 1]), RenderPiece(tk, cfg, pieces[|pieces| - 1]));
  }

  /** Every small sentence a piece introduces stands in the output, in the order of introduction. */
  ghost predicate AllStand(tk: Tokenizer, cfg: Config, texts: seq<string>, sentences: seq<string>, places: seq<Place>) {
    && |places| == |sentences|
    && (forall m | 0 <= m < |places| && tk.Count(sentences[m]) <= cfg.target :: StandsAt(texts, places[m], sentences[m]))
    && (forall m, n | 0 <= m < n < |places| && tk.Count(sentences[m]) <= cfg.target && tk.Count(sentences[n]) <= cfg.target ::
          Behind(places[m], sentences[m], places[n]))
  }

  /** Within one piece, each sentence stands behind the one before it. */
  lemma PieceInOrder(piece: Piece, k: nat, i: nat, j: nat)
    requires i < j < |PiecePlaces(piece, k)|
    ensures piece.SentenceRun? && Behind(PiecePlaces(piece, k)[i], piece.added[i], PiecePlaces(piece, k)[j])
    ensures PiecePlaces(piece, k)[i].text == k == PiecePlaces(piece, k)[j].text
  {
    var parts := piece.carried + piece.added;
    AtIncreases(" ", parts, |piece.carried| + i, |piece.carried| + j);
    hide At;
    assert parts[|piece.carried| + i] == piece.added[i];
  }

  /** Adding a piece that stands behind everything so far. */
  lemma StandOn(tk: Tokenizer, cfg: Config, texts: seq<string>, more: seq<string>, sentences: seq<string>, places: seq<Place>, piece: Piece)
    requires AllStand(tk, cfg, texts, sentences, places)
    requires PieceStands(tk, cfg, texts + more, piece, PiecePlaces(piece, |texts|))
    ensures AllStand(tk, cfg, texts + more, sentences + Introduces(piece), places + PiecePlaces(piece, |texts|))
  {
    var ss, ps, n0 := sentences + Introduces(piece), places + PiecePlaces(piece, |texts|), |places|;
    assert forall m | n0 <= m < |ps| :: ps[m].text == |texts| && ps[m] == PiecePlaces(piece, |texts|)[m - n0] && ss[m] == Introduces(piece)[m - n0];
    forall m | 0 <= m < |ps| && tk.Count(ss[m]) <= cfg.target ensures StandsAt(texts + more, ps[m], ss[m]) {
      if m < n0 {
        assert StandsAt(texts, places[m], sentences[m]);
        StandsStill(texts, more, places[m], sentences[m]);
      }
    }
    forall m, n | 0 <= m < n < |ps| && tk.Count(ss[m]) <= cfg.target && tk.Count(ss[n]) <= cfg.target
      ensures Behind(ps[m], ss[m], ps[n])
    {
      if m >= n0 {
        PieceInOrder(piece, |texts|, m - n0, n - n0);
      } else {
        assert StandsAt(texts, places[m], sentences[m]);
      }
    }
  }

  lemma {:induction false} PiecesStand(tk: Tokenizer, cfg: Config, pieces: seq<Piece>)
    requires cfg.overlap < cfg.target && AllPlain(tk, cfg, pieces)
    ensures AllStand(tk, cfg, Out(tk, cfg, pieces), Sources(pieces), PlacesOf(tk, cfg, pieces))
  {
    if pieces != [] {
      var init, last := pieces[..|pieces| - 1], pieces[|pieces| - 1];
      PiecesStand(tk, cfg, init);
      LastPieceStands(tk, cfg, Out(tk, cfg, init), last);
      OutSnoc(tk, cfg, pieces);
      hide AllStand, Out, PieceStands, PiecePlaces, Introduces;
      StandOn(tk, cfg, Out(tk, cfg, init), NonEmpty(RenderPiece(tk, cfg, last)), Sources(init), PlacesOf(tk, cfg, init), last);
    }
  }

  /**
   Every sentence of a paragraph that is not cut into windows stands whole in a returned text, and each behind the
   ones before it.
   */
  lemma SentencesReachTexts(tk: Tokenizer, cfg: Config, text: string)
    requires cfg.overlap < cfg.target && Solid(text)
    ensures AllStand(tk, cfg, SplitTexts(tk, cfg, text), Sentences(text), PlacesOf(tk, cfg, Pieces(tk, cfg, Sentences(text))))
  {
    var sentences := Sentences(text);
    SentencesAreSolid(text);
    TakeAllPlain(tk, cfg, sentences);
    FlushPlain(tk, cfg, TakeAll(tk, cfg, sentences));
    PiecesStand(tk, cfg, Pieces(tk, cfg, sentences));
    EverySentenceOnceInOrder(tk, cfg, sentences);
    SolidNonBlank(sentences);
    hide AllStand, PlacesOf, Render, Sentences, NonBlank;
  }

  // ---------------------------------------------------------------- where oversized sentences stand

  /** From text `k` on stand the decoded token windows of a sentence, all that are not empty, in order. */
  ghost predicate CutAt(tk: Tokenizer, cfg: Config, texts: seq<string>, k: nat, sentence: string)
    requires cfg.overlap < cfg.target
  {
    var windows := TokenWindows.Windows(tk.encode(sentence), cfg.target, cfg.target - cfg.overlap);
    var shown := NonEmpty(seq(|windows|, i requires 0 <= i < |windows| => tk.decode(windows[i])));
    k + |shown| <= |texts| && texts[k..k + |shown|] == shown
  }

  predicate WithinTarget(tk: Tokenizer, cfg: Config, sentences: seq<string>) {
    forall i | 0 <= i < |sentences| :: tk.Count(sentences[i]) <= cfg.target
  }

  predicate Small(tk: Tokenizer, cfg: Config, piece: Piece) {
    piece.SentenceRun? ==> WithinTarget(tk, cfg, piece.added)
  }

  predicate AllSmall(tk: Tokenizer, cfg: Config, pieces: seq<Piece>) {
    forall k | 0 <= k < |pieces| :: Small(tk, cfg, pieces[k])
  }

  lemma FlushSmall(tk: Tokenizer, cfg: Config, st: Split)
    requires AllSmall(tk, cfg, st.pieces) && WithinTarget(tk, cfg, st.added)
    ensures AllSmall(tk, cfg, Flush(tk, cfg, st).pieces) && WithinTarget(tk, cfg, Flush(tk, cfg, st).added)
  {
    hide OverlapTail;
  }

  lemma {:induction false} TakeAllSmall(tk: Tokenizer, cfg: Config, sentences: seq<string>)
    ensures var st := TakeAll(tk, cfg, sentences); AllSmall(tk, cfg, st.pieces) && WithinTarget(tk, cfg, st.added)
  {
    hide Strip, Flush, Tokenizer.Sum;
    if sentences != [] {
      var init := sentences[..|sentences| - 1];
      TakeAllSmall(tk, cfg, init);
      FlushSmall(tk, cfg, TakeAll(tk, cfg, init));
    }
  }

  lemma {:induction false} DecodedIs(tk: Tokenizer, windows: seq<seq<nat>>)
    ensures DecodeAll(tk, windows) == seq(|windows|, i requires 0 <= i < |windows| => tk.decode(windows[i]))
  {
    if windows != [] { DecodedIs(tk, windows[..|windows| - 1]); }
  }

  lemma PieceCut(tk: Tokenizer, cfg: Config, texts: seq<string>, sentence: string)
    requires cfg.overlap < cfg.target
    ensures CutAt(tk, cfg, texts + NonEmpty(RenderPiece(tk, cfg, Oversized(sentence))), |texts|, sentence)
  {
    DecodedIs(tk, TokenWindows.Windows(tk.encode(sentence), cfg.target, cfg.target - cfg.overlap));
    hide NonEmpty, DecodeAll, TokenWindows.Windows;
  }

  lemma CutStill(tk: Tokenizer, cfg: Config, texts: seq<string>, more: seq<string>, k: nat, sentence: string)
    requires cfg.overlap < cfg.target && CutAt(tk, cfg, texts, k, sentence)
    ensures CutAt(tk, cfg, texts + more, k, sentence)
  {
    hide NonEmpty, TokenWindows.Windows;
  }

  ghost predicate AllCut(tk: Tokenizer, cfg: Config, texts: seq<string>, sentences: seq<string>, places: seq<Place>)
    requires cfg.overlap < cfg.target
  {
    |places| == |sentences|
    && forall m | 0 <= m < |places| && tk.Count(sentences[m]) > cfg.target :: CutAt(tk, cfg, texts, places[m].text, sentences[m])
  }

  lemma CutOn(tk: Tokenizer, cfg: Config, texts: seq<string>, sentences: seq<string>, places: seq<Place>, piece: Piece)
    requires cfg.overlap < cfg.target && AllCut(tk, cfg, texts, sentences, places) && Small(tk, cfg, piece)
    ensures AllCut(tk, cfg, texts + NonEmpty(RenderPiece(tk, cfg, piece)), sentences + Introduces(piece),
                   places + PiecePlaces(piece, |texts|))
  {
    hide CutAt, NonEmpty, RenderPiece, At;
    var more, ss, ps := NonEmpty(RenderPiece(tk, cfg, piece)), sentences + Introduces(piece), places + PiecePlaces(piece, |texts|);
    if piece.Oversized? { PieceCut(tk, cfg, texts, piece.sentence); }
    forall m | 0 <= m < |ps| && tk.Count(ss[m]) > cfg.target ensures CutAt(tk, cfg, texts + more, ps[m].text, ss[m]) {
      if m < |places| {
        CutStill(tk, cfg, texts, more, places[m].text, sentences[m]);
      } else {
        assert ss[m] == Introduces(piece)[m - |places|];
      }
    }
  }

  lemma {:induction false} PiecesCut(tk: Tokenizer, cfg: Config, pieces: seq<Piece>)
    requires cfg.overlap < cfg.target && AllSmall(tk, cfg, pieces)
    ensures AllCut(tk, cfg, Out(tk, cfg, pieces), Sources(pieces), PlacesOf(tk, cfg, pieces))
  {
    if pieces != [] {
      var init, last := pieces[..|pieces| - 1], pieces[|pieces| - 1];
      PiecesCut(tk, cfg, init);
      OutSnoc(tk, cfg, pieces);
      hide AllCut, Out, PiecePlaces, Introduces;
      CutOn(tk, cfg, Out(tk, cfg, init), Sources(init), PlacesOf(tk, cfg, init), last);
    }
  }

  /** Every oversized sentence stands in the returned texts as its token windows, one text each, at its own place. */
  lemma OversizedReachTexts(tk: Tokenizer, cfg: Config, text: string)
    requires cfg.overlap < cfg.target && Solid(text)
    ensures AllCut(tk, cfg, SplitTexts(tk, cfg, text), Sentences(text), PlacesOf(tk, cfg, Pieces(tk, cfg, Sentences(text))))
  {
    var sentences := Sentences(text);
    SentencesAreSolid(text);
    TakeAllSmall(tk, cfg, sentences);
    FlushSmall(tk, cfg, TakeAll(tk, cfg, sentences));
    PiecesCut(tk, cfg, Pieces(tk, cfg, sentences));
    EverySentenceOnceInOrder(tk, cfg, sentences);
    SolidNonBlank(sentences);
    hide AllCut, PlacesOf, Render, Sentences, NonBlank;
  }

  // ---------------------------------------------------------------- nothing repeated, nothing lost

  /** Characters, spaces aside. */
  function Ink(s: string): nat { |NonSpace(s)| }

  lemma {:induction false} ConcatAppend(a: seq<string>, b: seq<string>)
    ensures Concat(a + b) == Concat(a) + Concat(b)
  {
    if a == [] {
      assert a + b == b;
    } else {
      ConcatAppend(a[1..], b);
      assert (a + b)[1..] == a[1..] + b;
      hide Concat;
      Associative(a[0], Concat(a[1..]), Concat(b));
      assert a == [a[0]] + a[1..] && a + b == [a[0]] + (a[1..] + b);
      ConcatCons(a[0], a[1..]);
      ConcatCons(a[0], a[1..] + b);
    }
  }

  /** Joining sentences with spaces adds no other character. */
  lemma {:induction false} JoinedInk(parts: seq<string>)
    ensures NonSpace(Join(" ", parts)) == NonSpace(Concat(parts))
  {
    if |parts| == 1 {
      ConcatOne(parts[0]);
      assert parts == [parts[0]];
    } else if parts != [] {
      var init, last := parts[..|parts| - 1], parts[|parts| - 1];
      assert parts == init + [last];
      JoinedInk(init);
      ConcatAppend(init, [last]);
      ConcatOne(last);
      NonSpaceAppend(Concat(init), last);
      NonSpaceAppend(Join(" ", init) + " ", last);
      NonSpaceAppend(Join(" ", init), " ");
      SpaceHasNoInk();
      assert Join(" ", parts) == Join(" ", init) + " " + last;
      hide Join, Concat, NonSpace;
      assert NonSpace(Join(" ", init)) + "" == NonSpace(Join(" ", init));
    }
  }

  lemma SpaceHasNoInk()
    ensures NonSpace(" ") == ""
  {
    assert " "[1..] == "";
  }

  predicate CarriesNothing(pieces: seq<Piece>) {
    forall k | 0 <= k < |pieces| :: pieces[k].SentenceRun? && pieces[k].carried == []
  }

  predicate RunsOnly(pieces: seq<Piece>) {
    forall k | 0 <= k < |pieces| :: pieces[k].SentenceRun?
  }

  /** What is written twice: the carried sentences. */
  function Repeated(pieces: seq<Piece>): nat {
    if pieces == [] then 0
    else Repeated(pieces[..|pieces| - 1])
         + match pieces[|pieces| - 1] case SentenceRun(carried, _) => Ink(Concat(carried)) case Oversized(_) => 0
  }

  lemma InkAppend(a: string, b: string)
    ensures Ink(a + b) == Ink(a) + Ink(b)
  {
    NonSpaceAppend(a, b);
  }

  /** The output is as long as the sentences and the repeated ones together, spaces aside. */
  lemma {:induction false} OutputInk(tk: Tokenizer, cfg: Config, pieces: seq<Piece>)
    requires cfg.overlap < cfg.target && AllPlain(tk, cfg, pieces) && RunsOnly(pieces)
    ensures Ink(Concat(Out(tk, cfg, pieces))) == Ink(Concat(Sources(pieces))) + Repeated(pieces)
    ensures CarriesNothing(pieces) ==> NonSpace(Concat(Out(tk, cfg, pieces))) == NonSpace(Concat(Sources(pieces)))
  {
    if pieces != [] {
      var init, last := pieces[..|pieces| - 1], pieces[|pieces| - 1];
      OutputInk(tk, cfg, init);
      OutSnoc(tk, cfg, pieces);
      RunText(tk, cfg, last);
      hide Out, Join, Concat, NonSpace, Plain;
      var text := Join(" ", last.carried + last.added);
      ConcatAppend(Out(tk, cfg, init), [text]);
      ConcatOne(text);
      ConcatAppend(Sources(init), last.added);
      ConcatAppend(last.carried, last.added);
      JoinedInk(last.carried + last.added);
      NonSpaceAppend(Concat(Out(tk, cfg, init)), text);
      NonSpaceAppend(Concat(Sources(init)), Concat(last.added));
      NonSpaceAppend(Concat(last.carried), Concat(last.added));
      assert last.carried == [] ==> last.carried + last.added == last.added;
    }
  }

  lemma {:induction false} SolidHasInk(s: string)
    requires s != "" && !Space(s[0])
    ensures Ink(s) > 0
  {}

  lemma {:induction false} CarriedHasInk(parts: seq<string>)
    requires AllSolid(parts)
    ensures Ink(Concat(parts)) == 0 <==> parts == []
  {
    if parts != [] {
      assert parts == [parts[0]] + parts[1..];
      ConcatCons(parts[0], parts[1..]);
      InkAppend(parts[0], Concat(parts[1..]));
      SolidHasInk(parts[0]);
    } else {
      NonSpaceNothing();
    }
  }

  lemma {:induction false} NothingRepeated(tk: Tokenizer, cfg: Config, pieces: seq<Piece>)
    requires AllPlain(tk, cfg, pieces) && RunsOnly(pieces)
    ensures Repeated(pieces) == 0 <==> CarriesNothing(pieces)
  {
    if pieces != [] {
      var init, last := pieces[..|pieces| - 1], pieces[|pieces| - 1];
      NothingRepeated(tk, cfg, init);
      assert Plain(tk, cfg, last);
      CarriedHasInk(last.carried);
      hide Ink, Concat;
      assert forall k | 0 <= k < |init| :: pieces[k] == init[k];
    }
  }

  /**
   A paragraph without oversized sentences: the returned texts, spaces aside, are the paragraph itself exactly when no
   run carries an overlap.
   */
  lemma TextsAreTheParagraphIff(tk: Tokenizer, cfg: Config, text: string)
    requires cfg.overlap < cfg.target && Solid(text) && RunsOnly(Pieces(tk, cfg, Sentences(text)))
    ensures NonSpace(Concat(SplitTexts(tk, cfg, text))) == NonSpace(text) <==> CarriesNothing(Pieces(tk, cfg, Sentences(text)))
  {
    var sentences := Sentences(text);
    var pieces := Pieces(tk, cfg, sentences);
    SentencesAreSolid(text);
    TakeAllPlain(tk, cfg, sentences);
    FlushPlain(tk, cfg, TakeAll(tk, cfg, sentences));
    EverySentenceOnceInOrder(tk, cfg, sentences);
    SolidNonBlank(sentences);
    SentencesKeepText(text);
    OutputInk(tk, cfg, pieces);
    NothingRepeated(tk, cfg, pieces);
    hide Concat, NonSpace, Sentences, Pieces, Render, NonEmpty, CarriesNothing, Repeated, NonBlank;
    assert Out(tk, cfg, pieces) == SplitTexts(tk, cfg, text);
  }

  lemma {:induction false} CutIffOversized(tk: Tokenizer, cfg: Config, sentences: seq<string>)
    requires AllSolid(sentences)
    ensures RunsOnly(TakeAll(tk, cfg, sentences).pieces) <==> forall i | 0 <= i < |sentences| :: tk.Count(sentences[i]) <= cfg.target
  {
    if sentences != [] {
      var init, last := sentences[..|sentences| - 1], sentences[|sentences| - 1];
      CutIffOversized(tk, cfg, init);
      StripSolid(last);
      hide Strip, OverlapTail;
      var st, st' := TakeAll(tk, cfg, init), TakeAll(tk, cfg, sentences);
      assert forall k | 0 <= k < |st.pieces| :: st'.pieces[k] == st.pieces[k];
      assert tk.Count(last) > cfg.target ==> st'.pieces[|st'.pieces| - 1].Oversized?;
      assert forall i | 0 <= i < |init| :: sentences[i] == init[i];
    }
  }

  /** No sentence fits the overlap: as when it is negative, or zero and every sentence has a token. */
  predicate NeverCarries(tk: Tokenizer, cfg: Config, sentences: seq<string>) {
    forall i | 0 <= i < |sentences| :: tk.Count(sentences[i]) > cfg.overlap
  }

  lemma NoTail(tk: Tokenizer, cfg: Config, sentences: seq<string>)
    requires NeverCarries(tk, cfg, sentences)
    ensures OverlapTail(tk, sentences, cfg.overlap) == []
  {}

  lemma CarryStaysEmptyStep(tk: Tokenizer, cfg: Config, st: Split, sentence: string)
    requires Solid(sentence) && cfg.overlap < tk.Count(sentence) <= cfg.target
    requires CarriesNothing(st.pieces) && st.carried == [] && NeverCarries(tk, cfg, st.added)
    ensures var st' := Take(tk, cfg, st, sentence);
            CarriesNothing(st'.pieces) && st'.carried == [] && NeverCarries(tk, cfg, st'.added)
  {
    StripSolid(sentence);
    NoTail(tk, cfg, st.added);
    hide Strip, OverlapTail, Tokenizer.Sum;
    assert [] + st.added == st.added;
  }

  lemma {:induction false} CarryStaysEmpty(tk: Tokenizer, cfg: Config, sentences: seq<string>)
    requires AllSolid(sentences) && NeverCarries(tk, cfg, sentences)
    requires forall i | 0 <= i < |sentences| :: tk.Count(sentences[i]) <= cfg.target
    ensures var st := TakeAll(tk, cfg, sentences);
            CarriesNothing(st.pieces) && st.carried == [] && NeverCarries(tk, cfg, st.added)
  {
    if sentences != [] {
      var init, last := sentences[..|sentences| - 1], sentences[|sentences| - 1];
      CarryStaysEmpty(tk, cfg, init);
      CarryStaysEmptyStep(tk, cfg, TakeAll(tk, cfg, init), last);
      hide Take, CarriesNothing, NeverCarries, AllSolid;
    }
  }

  /** With no sentence that fits the overlap and none to cut, the returned texts are the paragraph. */
  lemma TextsAreTheParagraph(tk: Tokenizer, cfg: Config, text: string)
    requires cfg.overlap < cfg.target && Solid(text) && NeverCarries(tk, cfg, Sentences(text))
    requires forall i | 0 <= i < |Sentences(text)| :: tk.Count(Sentences(text)[i]) <= cfg.target
    ensures NonSpace(Concat(SplitTexts(tk, cfg, text))) == NonSpace(text)
  {
    var sentences := Sentences(text);
    SentencesAreSolid(text);
    CarryStaysEmpty(tk, cfg, sentences);
    CutIffOversized(tk, cfg, sentences);
    var st := TakeAll(tk, cfg, sentences);
    assert CarriesNothing(Flush(tk, cfg, st).pieces) && RunsOnly(Flush(tk, cfg, st).pieces);
    hide Sentences, TakeAll, NonSpace, Concat, SplitTexts, NeverCarries, AllSolid;
    TextsAreTheParagraphIff(tk, cfg, text);
  }

  // ---------------------------------------------------------------- no run ends early

  /** A run is followed directly by another one only where the next sentence did not fit. */
  predicate EndsFull(tk: Tokenizer, cfg: Config, run: Piece, next: Piece) {
    run.SentenceRun? && next.SentenceRun? && next.added != [] ==>
      tk.Sum(run.carried + run.added) + tk.Count(next.added[0]) > cfg.target
  }

  predicate AllFull(tk: Tokenizer, cfg: Config, pieces: seq<Piece>) {
    forall k | 0 < k < |pieces| :: EndsFull(tk, cfg, pieces[k - 1], pieces[k])
  }

  /** The pieces with what is still held, seen as a piece. */
  function WithCurrent(st: Split): seq<Piece> {
    if st.added == [] then st.pieces else st.pieces + [SentenceRun(st.carried, st.added)]
  }

  predicate FullSoFar(tk: Tokenizer, cfg: Config, st: Split) {
    AllFull(tk, cfg, WithCurrent(st)) && (st.added == [] ==> st.pieces == [] || st.pieces[|st.pieces| - 1].Oversized?)
  }

  lemma FullAppend(tk: Tokenizer, cfg: Config, pieces: seq<Piece>, piece: Piece)
    requires AllFull(tk, cfg, pieces) && (pieces != [] ==> EndsFull(tk, cfg, pieces[|pieces| - 1], piece))
    ensures AllFull(tk, cfg, pieces + [piece])
  {
    var all := pieces + [piece];
    forall k | 0 < k < |all| ensures EndsFull(tk, cfg, all[k - 1], all[k]) {
      if k < |pieces| { assert EndsFull(tk, cfg, pieces[k - 1], pieces[k]); }
    }
  }

  lemma FullPrefix(tk: Tokenizer, cfg: Config, pieces: seq<Piece>)
    requires AllFull(tk, cfg, pieces) && pieces != []
    ensures AllFull(tk, cfg, pieces[..|pieces| - 1])
    ensures |pieces| > 1 ==> EndsFull(tk, cfg, pieces[|pieces| - 2], pieces[|pieces| - 1])
  {
    var init, n := pieces[..|pieces| - 1], |pieces| - 1;
    forall k | 0 < k < |init| ensures EndsFull(tk, cfg, init[k - 1], init[k]) {
      assert EndsFull(tk, cfg, pieces[k - 1], pieces[k]);
    }
    if n > 0 { assert EndsFull(tk, cfg, pieces[n - 1], pieces[n]); }
  }

  lemma FlushFull(tk: Tokenizer, cfg: Config, st: Split)
    requires FullSoFar(tk, cfg, st)
    ensures AllFull(tk, cfg, Flush(tk, cfg, st).pieces)
    ensures st.carried + st.added != [] ==>
              Flush(tk, cfg, st).pieces != [] && Flush(tk, cfg, st).pieces[|Flush(tk, cfg, st).pieces| - 1] == SentenceRun(st.carried, st.added)
  {
    hide OverlapTail, AllFull;
    if st.added == [] && st.carried != [] { FullAppend(tk, cfg, st.pieces, SentenceRun(st.carried, st.added)); }
  }

  lemma TakeFull(tk: Tokenizer, cfg: Config, st: Split, sentence: string)
    requires FullSoFar(tk, cfg, st) && Solid(sentence)
    ensures FullSoFar(tk, cfg, Take(tk, cfg, st, sentence))
  {
    hide Strip, AllFull, OverlapTail, Tokenizer.Sum;
    StripSolid(sentence);
    FlushFull(tk, cfg, st);
    var flushed, current := Flush(tk, cfg, st), st.carried + st.added;
    if tk.Count(sentence) > cfg.target {
      FullAppend(tk, cfg, flushed.pieces, Oversized(sentence));
    } else if tk.Sum(current) + tk.Count(sentence) > cfg.target && current != [] {
      FullAppend(tk, cfg, flushed.pieces, SentenceRun(flushed.carried, [sentence]));
      assert flushed.added + [sentence] == [sentence];
    } else if st.added == [] {
      FullAppend(tk, cfg, st.pieces, SentenceRun(st.carried, [sentence]));
      assert st.added + [sentence] == [sentence];
    } else {
      FullPrefix(tk, cfg, WithCurrent(st));
      assert WithCurrent(st)[..|st.pieces|] == st.pieces;
      FullAppend(tk, cfg, st.pieces, SentenceRun(st.carried, st.added + [sentence]));
    }
  }

  lemma {:induction false} TakeAllFull(tk: Tokenizer, cfg: Config, sentences: seq<string>)
    requires AllSolid(sentences)
    ensures FullSoFar(tk, cfg, TakeAll(tk, cfg, sentences))
  {
    if sentences != [] {
      var init := sentences[..|sentences| - 1];
      TakeAllFull(tk, cfg, init);
      TakeFull(tk, cfg, TakeAll(tk, cfg, init), sentences[|sentences| - 1]);
      hide FullSoFar, Take;
    }
  }

  /** Runs are filled greedily: no run ends before the next sentence would exceed the target. */
  lemma RunsAreFull(tk: Tokenizer, cfg: Config, sentences: seq<string>)
    requires AllSolid(sentences)
    ensures AllFull(tk, cfg, Pieces(tk, cfg, sentences))
  {
    TakeAllFull(tk, cfg, sentences);
    FlushFull(tk, cfg, TakeAll(tk, cfg, sentences));
  }
}
