/**
 After an oversized sentence the splitter still holds the overlap it carried, and flushing it again gives a chunk
 that brings nothing new. This module says exactly when.
 */
module StaleChunks {
  import opened Text
  import opened SentenceSplit
  import W = WordTokens

  /** A chunk made of carried sentences only. */
  predicate Stale(piece: Piece) {
    piece.SentenceRun? && piece.added == []
  }

  predicate HasStale(pieces: seq<Piece>) {
    exists k :: 0 <= k < |pieces| && Stale(pieces[k])
  }

  /** The sentences that are not cut into windows. */
  function Small(tk: Tokenizer, cfg: Config, sentences: seq<string>): seq<string> {
    if sentences == [] then []
    else
      var last := sentences[|sentences| - 1];
      Small(tk, cfg, sentences[..|sentences| - 1]) + if tk.Count(last) > cfg.target then [] else [last]
  }

  /** The longest end of the small sentences that fits the overlap. */
  function Tail(tk: Tokenizer, cfg: Config, sentences: seq<string>): seq<string> {
    OverlapTail(tk, Small(tk, cfg, sentences), cfg.overlap)
  }

  /** The same tails under every budget up to the overlap. */
  ghost predicate SameTails(tk: Tokenizer, a: seq<string>, b: seq<string>, overlap: int) {
    forall budget | budget <= overlap :: OverlapTail(tk, a, budget) == OverlapTail(tk, b, budget)
  }

  lemma {:induction false} TailOfTail(tk: Tokenizer, sentences: seq<string>, overlap: int, budget: int)
    requires budget <= overlap
    ensures OverlapTail(tk, OverlapTail(tk, sentences, overlap), budget) == OverlapTail(tk, sentences, budget)
  {
    if sentences != [] {
      var init, last := sentences[..|sentences| - 1], sentences[|sentences| - 1];
      var c := tk.Count(last);
      if c <= overlap {
        var inner := OverlapTail(tk, init, overlap - c);
        TailOfTail(tk, init, overlap - c, budget - c);
        assert (inner + [last])[..|inner|] == inner;
      }
    }
  }

  lemma SameTailsGrow(tk: Tokenizer, a: seq<string>, b: seq<string>, overlap: int, sentence: string)
    ensures SameTails(tk, a, b, overlap) ==> SameTails(tk, a + [sentence], b + [sentence], overlap)
  {
    assert (a + [sentence])[..|a|] == a && (b + [sentence])[..|b|] == b;
    forall budget | budget <= overlap && SameTails(tk, a, b, overlap)
      ensures OverlapTail(tk, a + [sentence], budget) == OverlapTail(tk, b + [sentence], budget)
    {
      assert OverlapTail(tk, a, budget - tk.Count(sentence)) == OverlapTail(tk, b, budget - tk.Count(sentence));
    }
  }

  function Current(st: Split): seq<string> { st.carried + st.added }

  lemma FlushTails(tk: Tokenizer, cfg: Config, st: Split, small: seq<string>)
    requires SameTails(tk, Current(st), small, cfg.overlap)
    ensures var st' := Flush(tk, cfg, st);
            && SameTails(tk, Current(st'), small, cfg.overlap)
            && Current(st') == OverlapTail(tk, small, cfg.overlap) && st'.added == [] && st'.carried == Current(st')
  {
    var st' := Flush(tk, cfg, st);
    assert Current(st') == OverlapTail(tk, Current(st), cfg.overlap);
    forall budget | budget <= cfg.overlap
      ensures OverlapTail(tk, Current(st'), budget) == OverlapTail(tk, small, budget)
    {
      TailOfTail(tk, Current(st), cfg.overlap, budget);
      assert OverlapTail(tk, Current(st), budget) == OverlapTail(tk, small, budget);
    }
  }

  /** What the splitter holds has the same tails as all small sentences so far, and is just that tail after a cut one. */
  ghost predicate Holds(tk: Tokenizer, cfg: Config, st: Split, sentences: seq<string>) {
    && SameTails(tk, Current(st), Small(tk, cfg, sentences), cfg.overlap)
    && (st.added == [] <==> sentences == [] || tk.Count(sentences[|sentences| - 1]) > cfg.target)
    && (st.added == [] ==> st.carried == Tail(tk, cfg, sentences))
  }

  lemma TakeHolds(tk: Tokenizer, cfg: Config, st: Split, init: seq<string>, last: string)
    requires Holds(tk, cfg, st, init) && Solid(last)
    ensures Holds(tk, cfg, Take(tk, cfg, st, last), init + [last])
  {
    assert (init + [last])[..|init|] == init;
    StripSolid(last);
    var small, flushed := Small(tk, cfg, init), Flush(tk, cfg, st);
    FlushTails(tk, cfg, st, small);
    hide SameTails, OverlapTail, Strip, Flush;
    if tk.Count(last) > cfg.target {
      assert Small(tk, cfg, init + [last]) == small;
    } else {
      SameTailsGrow(tk, Current(st), small, cfg.overlap, last);
      SameTailsGrow(tk, Current(flushed), small, cfg.overlap, last);
      assert Current(st.(added := st.added + [last])) == Current(st) + [last];
      assert Current(flushed.(added := flushed.added + [last])) == Current(flushed) + [last];
    }
  }

  lemma {:induction false} TakeAllHolds(tk: Tokenizer, cfg: Config, sentences: seq<string>)
    requires AllSolid(sentences)
    ensures Holds(tk, cfg, TakeAll(tk, cfg, sentences), sentences)
  {
    if sentences != [] {
      var init, last := sentences[..|sentences| - 1], sentences[|sentences| - 1];
      TakeAllHolds(tk, cfg, init);
      TakeHolds(tk, cfg, TakeAll(tk, cfg, init), init, last);
      assert init + [last] == sentences;
    }
  }

  /**
   Sentence `i` is cut into windows while small sentences before it fit the overlap, and what follows it (another
   sentence that does not fit behind them, or the end) flushes them again.
   */
  predicate StaleAfter(tk: Tokenizer, cfg: Config, sentences: seq<string>, i: nat) {
    && i < |sentences| && tk.Count(sentences[i]) > cfg.target
    && Tail(tk, cfg, sentences[..i]) != []
    && (i + 1 < |sentences| ==> tk.Sum(Tail(tk, cfg, sentences[..i])) + tk.Count(sentences[i + 1]) > cfg.target)
  }

  predicate StaleBefore(tk: Tokenizer, cfg: Config, sentences: seq<string>, n: nat) {
    exists i :: 0 <= i < n && StaleAfter(tk, cfg, sentences, i)
  }

  lemma HasStaleAppend(pieces: seq<Piece>, piece: Piece)
    ensures HasStale(pieces + [piece]) <==> HasStale(pieces) || Stale(piece)
  {
    var all := pieces + [piece];
    assert all[|pieces|] == piece;
    assert forall k | 0 <= k < |pieces| :: all[k] == pieces[k];
  }

  lemma FlushStale(tk: Tokenizer, cfg: Config, st: Split)
    ensures HasStale(Flush(tk, cfg, st).pieces) <==> HasStale(st.pieces) || (st.added == [] && st.carried != [])
  {
    hide HasStale;
    HasStaleAppend(st.pieces, SentenceRun(st.carried, st.added));
  }

  /** A sentence makes a stale chunk exactly when it flushes a tail nothing was added to. */
  lemma TakeStale(tk: Tokenizer, cfg: Config, st: Split, sentence: string)
    requires Solid(sentence)
    ensures HasStale(Take(tk, cfg, st, sentence).pieces)
            <==> HasStale(st.pieces)
                 || (st.added == [] && st.carried != [] && tk.Sum(st.carried) + tk.Count(sentence) > cfg.target)
  {
    StripSolid(sentence);
    FlushStale(tk, cfg, st);
    hide HasStale, Strip, Flush;
    HasStaleAppend(Flush(tk, cfg, st).pieces, Oversized(sentence));
    assert st.added == [] ==> st.carried + st.added == st.carried;
  }

  lemma StaleBeforeLast(tk: Tokenizer, cfg: Config, sentences: seq<string>, n: nat)
    ensures StaleBefore(tk, cfg, sentences, n + 1) <==> StaleBefore(tk, cfg, sentences, n) || StaleAfter(tk, cfg, sentences, n)
  {
    hide StaleAfter;
  }

  lemma StaleOfPrefix(tk: Tokenizer, cfg: Config, init: seq<string>, last: string, n: nat)
    requires n < |init|
    ensures StaleBefore(tk, cfg, init + [last], n) <==> StaleBefore(tk, cfg, init, n)
  {
    forall i | 0 <= i < n ensures StaleAfter(tk, cfg, init + [last], i) <==> StaleAfter(tk, cfg, init, i) {
      assert (init + [last])[..i] == init[..i];
    }
    hide StaleAfter;
  }

  lemma {:induction false} TakeAllStale(tk: Tokenizer, cfg: Config, sentences: seq<string>)
    requires AllSolid(sentences)
    ensures HasStale(TakeAll(tk, cfg, sentences).pieces)
            <==> sentences != [] && StaleBefore(tk, cfg, sentences, |sentences| - 1)
  {
    if sentences != [] {
      var init, last := sentences[..|sentences| - 1], sentences[|sentences| - 1];
      assert sentences == init + [last];
      TakeAllStale(tk, cfg, init);
      TakeAllHolds(tk, cfg, init);
      TakeStale(tk, cfg, TakeAll(tk, cfg, init), last);
      if init != [] { StaleStep(tk, cfg, init, last); }
      hide HasStale, SameTails, Take, AllSolid, Tail;
    }
  }

  /** The condition for one more sentence. */
  lemma StaleStep(tk: Tokenizer, cfg: Config, init: seq<string>, last: string)
    requires init != []
    ensures StaleBefore(tk, cfg, init + [last], |init|)
            <==> StaleBefore(tk, cfg, init, |init| - 1)
                 || (tk.Count(init[|init| - 1]) > cfg.target && Tail(tk, cfg, init) != []
                     && tk.Sum(Tail(tk, cfg, init)) + tk.Count(last) > cfg.target)
  {
    var n := |init| - 1;
    StaleOfPrefix(tk, cfg, init, last, n);
    StaleBeforeLast(tk, cfg, init + [last], n);
    LastTail(tk, cfg, init);
    assert (init + [last])[..n] == init[..n];
    hide StaleBefore, Tail;
  }

  lemma LastTail(tk: Tokenizer, cfg: Config, sentences: seq<string>)
    requires sentences != []
    ensures tk.Count(sentences[|sentences| - 1]) > cfg.target ==>
              Tail(tk, cfg, sentences) == Tail(tk, cfg, sentences[..|sentences| - 1])
  {
    var init := sentences[..|sentences| - 1];
    assert Small(tk, cfg, init) + [] == Small(tk, cfg, init);
  }

  /** The exact condition, on the sentences alone: some cut sentence is followed by a second flush of the same tail. */
  lemma StaleExactly(tk: Tokenizer, cfg: Config, sentences: seq<string>)
    requires AllSolid(sentences)
    ensures HasStale(Pieces(tk, cfg, sentences)) <==> StaleBefore(tk, cfg, sentences, |sentences|)
  {
    TakeAllStale(tk, cfg, sentences);
    TakeAllHolds(tk, cfg, sentences);
    FlushStale(tk, cfg, TakeAll(tk, cfg, sentences));
    if sentences != [] {
      LastTail(tk, cfg, sentences);
      StaleBeforeLast(tk, cfg, sentences, |sentences| - 1);
    }
    hide HasStale, Tail, SameTails, TakeAll, AllSolid;
  }

  /** A tail is not empty exactly when the latest small sentence fits the overlap. */
  lemma TailIsNotEmpty(tk: Tokenizer, cfg: Config, sentences: seq<string>)
    ensures var small := Small(tk, cfg, sentences);
            Tail(tk, cfg, sentences) != [] <==> small != [] && tk.Count(small[|small| - 1]) <= cfg.overlap
  {}

  /** For the paragraphs the chunker splits. */
  lemma ParagraphStaleExactly(tk: Tokenizer, cfg: Config, text: string)
    requires Solid(text)
    ensures HasStale(Pieces(tk, cfg, Sentences(text))) <==> StaleBefore(tk, cfg, Sentences(text), |Sentences(text)|)
  {
    SentencesAreSolid(text);
    StaleExactly(tk, cfg, Sentences(text));
  }

  /** A stale chunk repeats the whole run before it exactly when that run fits the overlap. */
  lemma {:induction false} TailIsWhole(tk: Tokenizer, sentences: seq<string>, overlap: nat)
    ensures OverlapTail(tk, sentences, overlap) == sentences <==> tk.Sum(sentences) <= overlap
  {
    OverlapIsSuffix(tk, sentences, overlap);
    if tk.Sum(sentences) <= overlap {
      assert sentences[0..] == sentences;
      OverlapIsLongest(tk, sentences, overlap, 0);
    }
  }

  // ---------------------------------------------------------------- a text that is returned twice

  lemma {:induction false} FirstBreakIs(s: string, from: nat, i: nat)
    requires from <= i <= |s| && (i < |s| ==> BreakAt(s, i))
    requires forall k: nat | from <= k < i :: !BreakAt(s, k)
    ensures FirstBreak(s, from) == i
    decreases |s| - from
  {
    if from < i {
      assert !BreakAt(s, from);
      FirstBreakIs(s, from + 1, i);
    }
  }

  lemma OneSentence(s: string)
    requires Unbroken(s)
    ensures Sentences(s) == [s]
  {
    FirstBreakIs(s, 0, |s|);
  }

  lemma TwoSentences(small: string, big: string)
    requires Solid(small) && Solid(big) && Unbroken(small) && Unbroken(big) && Ends(small[|small| - 1])
    ensures Sentences(small + " " + big) == [small, big]
  {
    var s, n := small + " " + big, |small|;
    forall k: nat | k < n ensures !BreakAt(s, k) { assert BreakAt(s, k) ==> BreakAt(small, k); }
    assert BreakAt(s, n);
    FirstBreakIs(s, 0, n);
    assert SkipSpace(s, n) == n + 1;
    assert s[..n] == small && s[n + 1..] == big;
    OneSentence(big);
  }

  lemma PiecesOfTwo(tk: Tokenizer, cfg: Config, small: string, big: string)
    requires 0 <= cfg.overlap < cfg.target && Solid(small) && Solid(big)
    requires tk.Count(small) <= cfg.overlap && tk.Count(big) > cfg.target
    ensures Pieces(tk, cfg, [small, big]) == [SentenceRun([], [small]), Oversized(big), SentenceRun([small], [])]
  {
    StripSolid(small);
    StripSolid(big);
    SumNil(tk);
    hide Strip, Solid;
    assert [small][..0] == [] && [small, big][..1] == [small];
    assert [] + [small] == [small] == [small] + [];
    assert TakeAll(tk, cfg, [small]) == Split([], [], [small]);
    assert OverlapTail(tk, [small], cfg.overlap) == [small];
    hide OverlapTail, Tokenizer.Sum;
    assert TakeAll(tk, cfg, [small, big]) == Split([SentenceRun([], [small]), Oversized(big)], [small], []);
  }

  /** A short sentence before a closing oversized one: the paragraph's first and last texts are the same. */
  lemma ChunkCanRepeat(tk: Tokenizer, cfg: Config, small: string, big: string)
    requires 0 <= cfg.overlap < cfg.target && Solid(small) && Solid(big)
    requires Unbroken(small) && Unbroken(big) && Ends(small[|small| - 1])
    requires tk.Count(small) <= cfg.overlap && tk.Count(big) > cfg.target
    ensures var out := SplitTexts(tk, cfg, small + " " + big);
            |out| >= 2 && out[0] == small && out[|out| - 1] == small
  {
    TwoSentences(small, big);
    PiecesOfTwo(tk, cfg, small, big);
    RenderThree(tk, cfg, SentenceRun([], [small]), Oversized(big), SentenceRun([small], []));
    StripSolid(small);
    assert [] + [small] == [small] == [small] + [];
    var windows := RenderPiece(tk, cfg, Oversized(big));
    hide RenderPiece, Render, Sentences, Pieces, Strip;
    NonEmptyAppend([small] + windows, [small]);
    NonEmptyAppend([small], windows);
    assert NonEmpty([small]) == [small] by { assert [small][..0] == []; }
  }

  lemma RenderThree(tk: Tokenizer, cfg: Config, a: Piece, b: Piece, c: Piece)
    requires cfg.overlap < cfg.target
    ensures Render(tk, cfg, [a, b, c]) == RenderPiece(tk, cfg, a) + RenderPiece(tk, cfg, b) + RenderPiece(tk, cfg, c)
  {
    hide RenderPiece;
    assert [a, b, c][..2] == [a, b] && [a, b][..1] == [a] && [a][..0] == [];
    assert Render(tk, cfg, [a]) == RenderPiece(tk, cfg, a);
    assert Render(tk, cfg, [a, b]) == RenderPiece(tk, cfg, a) + RenderPiece(tk, cfg, b);
  }

  lemma Terminated()
    ensures W.WORDS.Count("a.") == 1 && Unbroken("a.") && Solid("a.") && Ends("a."[|"a."| - 1])
  {
    W.OneCharacter('a');
    W.LongerToken("a", '.');
    W.WordsRoundTrip("a.");
    hide W.Tokens, W.Encode, W.Decode;
    assert "a" + ['.'] == "a.";
  }

  lemma Spoken(n: nat)
    requires n > 0
    ensures W.WORDS.Count(W.Say(n)) == n && Unbroken(W.Say(n)) && Solid(W.Say(n))
  {
    W.SaySize(n);
    hide W.Tokens, W.Encode, W.Decode, W.Say;
  }

  /** Such texts exist for every configuration that carries any overlap. */
  lemma RepeatHappens(cfg: Config) returns (text: string)
    requires 1 <= cfg.overlap < cfg.target
    ensures var out := SplitTexts(W.WORDS, cfg, text); |out| >= 2 && out[0] == out[|out| - 1]
  {
    hide SplitTexts, W.Say, Unbroken, Solid, W.Encode, W.Decode, Ends;
    var small, big := "a.", W.Say(cfg.target + 1);
    Terminated();
    Spoken(cfg.target + 1);
    text := small + " " + big;
    ChunkCanRepeat(W.WORDS, cfg, small, big);
  }
}
