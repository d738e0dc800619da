/** What the semantic chunker returns, read as texts: where paragraphs and sentences stand, and why chunks end. */
module ChunkTexts {
  import opened Options
  import opened Text
  import opened Elements
  import opened Places
  import opened SemanticChunker
  import SentenceSplit
  import SentenceTexts

  function TextsOf(chunks: seq<Chunk>): seq<string> {
    seq(|chunks|, i requires 0 <= i < |chunks| => chunks[i].text)
  }

  /** The places of the paragraphs of block `k`. */
  function BlockPlaces(block: Block, k: nat): seq<Place> {
    seq(|block.parts|, i requires 0 <= i < |block.parts| => Place(k, At(PARAGRAPH_BREAK, block.parts, i)))
  }

  function PlacesOf(blocks: seq<Block>): seq<Place> {
    if blocks == [] then [] else PlacesOf(blocks[..|blocks| - 1]) + BlockPlaces(blocks[|blocks| - 1], |blocks| - 1)
  }

  /** Every part stands in its text, each behind the one before it. */
  ghost predicate AllStand(texts: seq<string>, parts: seq<string>, places: seq<Place>) {
    && |places| == |parts|
    && (forall m | 0 <= m < |places| :: StandsAt(texts, places[m], parts[m]))
    && (forall m, n | 0 <= m < n < |places| :: Behind(places[m], parts[m], places[n]))
  }

  lemma BlockStands(texts: seq<string>, block: Block, i: nat)
    requires i < |block.parts|
    ensures StandsAt(texts + [Join(PARAGRAPH_BREAK, block.parts)], BlockPlaces(block, |texts|)[i], block.parts[i])
  {
    PartStandsAt(PARAGRAPH_BREAK, block.parts, i);
    hide Join, At;
  }

  lemma StandOn(texts: seq<string>, parts: seq<string>, places: seq<Place>, block: Block)
    requires AllStand(texts, parts, places)
    ensures AllStand(texts + [Join(PARAGRAPH_BREAK, block.parts)], parts + block.parts, places + BlockPlaces(block, |texts|))
  {
    var text := Join(PARAGRAPH_BREAK, block.parts);
    var ps, all, n0 := places + BlockPlaces(block, |texts|), parts + block.parts, |places|;
    hide Join;
    forall m | 0 <= m < |ps| ensures StandsAt(texts + [text], ps[m], all[m]) && (m >= n0 ==> ps[m].text == |texts|) && (m < n0 ==> ps[m].text < |texts|) {
      if m < n0 {
        assert StandsAt(texts, places[m], parts[m]);
        StandsStill(texts, [text], places[m], parts[m]);
      } else {
        BlockStands(texts, block, m - n0);
      }
    }
    forall m, n | 0 <= m < n < |ps| ensures Behind(ps[m], all[m], ps[n]) {
      if m >= n0 {
        AtIncreases(PARAGRAPH_BREAK, block.parts, m - n0, n - n0);
      } else if n < n0 {
        assert Behind(places[m], parts[m], places[n]);
      }
    }
  }

  lemma TextsAppend(tk: Tokenizer, blocks: seq<Block>)
    requires blocks != []
    ensures var n := |blocks| - 1;
            TextsOf(Render(tk, blocks)) == TextsOf(Render(tk, blocks[..n])) + [Join(PARAGRAPH_BREAK, blocks[n].parts)]
  {
    hide Join;
    assert blocks == blocks[..|blocks| - 1] + [blocks[|blocks| - 1]];
  }

  lemma {:induction false} BlocksStand(tk: Tokenizer, blocks: seq<Block>)
    ensures AllStand(TextsOf(Render(tk, blocks)), Parts(blocks), PlacesOf(blocks))
    ensures |TextsOf(Render(tk, blocks))| == |blocks|
  {
    if blocks != [] {
      var init, last := blocks[..|blocks| - 1], blocks[|blocks| - 1];
      BlocksStand(tk, init);
      TextsAppend(tk, blocks);
      hide AllStand, TextsOf, Render, BlockPlaces, Join;
      StandOn(TextsOf(Render(tk, init)), Parts(init), PlacesOf(init), last);
    }
  }

  /** Every contributed text, whole paragraph or part of a split one, stands in a returned chunk, in source order. */
  lemma ContributionsReachChunks(tk: Tokenizer, cfg: Settings, elements: seq<Element>)
    requires cfg.Accepted()
    ensures AllStand(TextsOf(Render(tk, Blocks(tk, cfg, elements))), Contributions(tk, cfg, elements), PlacesOf(Blocks(tk, cfg, elements)))
  {
    hide AllStand, TextsOf, Render, Blocks;
    BlocksStand(tk, Blocks(tk, cfg, elements));
    ParagraphsConserved(tk, cfg, elements);
  }

  lemma {:induction false} ContributionAt(tk: Tokenizer, cfg: Settings, elements: seq<Element>, x: nat, k: nat)
    requires cfg.Accepted() && x < |elements| && k < |Contribution(tk, cfg, elements[x])|
    ensures var m := |Contributions(tk, cfg, elements[..x])| + k;
            m < |Contributions(tk, cfg, elements)| && Contributions(tk, cfg, elements)[m] == Contribution(tk, cfg, elements[x])[k]
  {
    hide Contribution;
    var n := |elements| - 1;
    if x == n {
    } else {
      assert elements[..n][..x] == elements[..x];
      ContributionAt(tk, cfg, elements[..n], x, k);
    }
  }

  lemma SentencePlace(tk: Tokenizer, cfg: SentenceSplit.Config, text: string, m: nat) returns (inner: Place)
    requires cfg.overlap < cfg.target && Solid(text)
    requires m < |SentenceSplit.Sentences(text)| && tk.Count(SentenceSplit.Sentences(text)[m]) <= cfg.target
    ensures StandsAt(SentenceSplit.SplitTexts(tk, cfg, text), inner, SentenceSplit.Sentences(text)[m])
    ensures inner.text < |SentenceSplit.SplitTexts(tk, cfg, text)|
  {
    hide SentenceSplit.Sentences, SentenceSplit.SplitTexts, SentenceSplit.Pieces;
    SentenceTexts.SentencesReachTexts(tk, cfg, text);
    inner := SentenceTexts.PlacesOf(tk, cfg, SentenceSplit.Pieces(tk, cfg, SentenceSplit.Sentences(text)))[m];
  }

  lemma ContributionPlace(tk: Tokenizer, cfg: Settings, elements: seq<Element>, x: nat, k: nat) returns (outer: Place)
    requires cfg.Accepted() && x < |elements| && k < |Contribution(tk, cfg, elements[x])|
    ensures StandsAt(TextsOf(Render(tk, Blocks(tk, cfg, elements))), outer, Contribution(tk, cfg, elements[x])[k])
  {
    hide Blocks, Render, TextsOf, Contribution, Contributions;
    ContributionsReachChunks(tk, cfg, elements);
    ContributionAt(tk, cfg, elements, x, k);
    outer := PlacesOf(Blocks(tk, cfg, elements))[|Contributions(tk, cfg, elements[..x])| + k];
  }

  /** Page furniture: what a reader would not look for. */
  predicate Furniture(kind: Kind) { kind == Header || kind == Footer || kind == PageBreak || kind == Image }

  /** Every element that is not page furniture and shows anything stands, stripped, in a chunk unless it is oversized. */
  lemma ParagraphsReachChunks(tk: Tokenizer, cfg: Settings, elements: seq<Element>, x: nat, i: nat) returns (place: Place)
    requires cfg.Accepted() && x < |elements| && !Furniture(elements[x].kind) && tk.Count(Strip(elements[x].text)) <= cfg.target
    requires i < |elements[x].text| && !Space(elements[x].text[i])
    ensures StandsAt(TextsOf(Render(tk, Blocks(tk, cfg, elements))), place, Strip(elements[x].text))
  {
    StripBlank(elements[x].text);
    assert Contribution(tk, cfg, elements[x]) == [Strip(elements[x].text)];
    hide Strip, Blocks, Render, TextsOf, Contribution, StandsAt;
    place := ContributionPlace(tk, cfg, elements, x, 0);
  }

  /** And furniture or blank elements contribute nothing. */
  lemma FurnitureIsLeftOut(tk: Tokenizer, cfg: Settings, e: Element)
    requires cfg.Accepted() && (Furniture(e.kind) || AllSpace(e.text))
    ensures Contribution(tk, cfg, e) == []
  {
    StripBlank(e.text);
  }

  lemma SplitContribution(tk: Tokenizer, cfg: Settings, e: Element)
    requires cfg.Accepted() && e.IsChunkable() && tk.Count(Strip(e.text)) > cfg.target
    ensures Solid(Strip(e.text)) && Contribution(tk, cfg, e) == SentenceSplit.SplitTexts(tk, cfg.Splitting(), Strip(e.text))
  {
    StripIsSolid(e.text);
    hide SentenceSplit.SplitTexts, Strip;
  }

  /** Every sentence of a split element, unless it is itself oversized, stands in some returned chunk. */
  lemma SentencesReachChunks(tk: Tokenizer, cfg: Settings, elements: seq<Element>, x: nat, m: nat) returns (place: Place)
    requires cfg.Accepted() && x < |elements| && elements[x].IsChunkable()
    requires tk.Count(Strip(elements[x].text)) > cfg.target
    requires var sentences := SentenceSplit.Sentences(Strip(elements[x].text)); m < |sentences| && tk.Count(sentences[m]) <= cfg.target
    ensures StandsAt(TextsOf(Render(tk, Blocks(tk, cfg, elements))), place, SentenceSplit.Sentences(Strip(elements[x].text))[m])
  {
    hide Strip, Blocks, Render, TextsOf, Contribution, SentenceSplit.Sentences, SentenceSplit.SplitTexts, Element.IsChunkable, Solid, StandsAt;
    var text, chunks := Strip(elements[x].text), TextsOf(Render(tk, Blocks(tk, cfg, elements)));
    SplitContribution(tk, cfg, elements[x]);
    var inner := SentencePlace(tk, cfg.Splitting(), text, m);
    var outer := ContributionPlace(tk, cfg, elements, x, inner.text);
    StandsThrough(chunks, outer, SentenceSplit.SplitTexts(tk, cfg.Splitting(), text), inner, SentenceSplit.Sentences(text)[m]);
    place := Place(outer.text, outer.offset + inner.offset);
  }

  // ---------------------------------------------------------------- no chunk ends early

  /** Why a paragraph is not in the chunk before it: one of them was split, or there was no room. */
  predicate MustBreak(tk: Tokenizer, cfg: Settings, block: Block, split: bool, text: string) {
    block.split || split || BufferTokens(tk, block.parts) + JOIN_TOKEN_COST + tk.Count(text) > cfg.target
  }

  predicate BreaksAt(tk: Tokenizer, cfg: Settings, blocks: seq<Block>, i: nat)
    requires 0 < i < |blocks|
  {
    blocks[i].parts != [] && MustBreak(tk, cfg, blocks[i - 1], blocks[i].split, blocks[i].parts[0])
  }

  predicate Filled(tk: Tokenizer, cfg: Settings, d: Draft) {
    && (forall i | 0 < i < |d.blocks| :: BreaksAt(tk, cfg, d.blocks, i))
    && (d.blocks != [] ==> d.Last().parts != [])
    && (d.blocks != [] && d.buffer != [] ==> MustBreak(tk, cfg, d.Last(), false, d.buffer[0]))
    && (d.blocks != [] && d.buffer == [] ==> d.Last().split)
  }

  lemma {:induction false} MoreTokens(tk: Tokenizer, parts: seq<string>, more: seq<string>)
    requires more != []
    ensures BufferTokens(tk, parts + more) >= BufferTokens(tk, more)
  {
    SumAppend(tk, parts, more);
  }

  /** Closing keeps every break justified, and its last block had no room for what did not fit the buffer. */
  lemma CloseFilled(tk: Tokenizer, cfg: Settings, d: Draft)
    requires Filled(tk, cfg, d)
    ensures var d' := Close(tk, cfg, d);
            && (forall i | 0 < i < |d'.blocks| :: BreaksAt(tk, cfg, d'.blocks, i))
            && (d'.blocks != [] ==> d'.Last().parts != [])
            && (d.buffer != [] ==> d'.blocks != [] && BufferTokens(tk, d'.Last().parts) >= BufferTokens(tk, d.buffer))
  {
    var d', n := Close(tk, cfg, d), |d.blocks|;
    if d.buffer != [] {
      if n > 0 { MoreTokens(tk, d.Last().parts, d.buffer); }
      hide BufferTokens, Join;
      forall i | 0 < i < |d'.blocks| ensures BreaksAt(tk, cfg, d'.blocks, i) {
        if i < n { assert BreaksAt(tk, cfg, d.blocks, i); }
      }
    }
  }

  lemma SinglesFilled(tk: Tokenizer, cfg: Settings, closed: Draft, texts: seq<string>, page: Option<int>, section: Option<string>)
    requires closed.buffer == [] && texts != [] && forall i | 0 < i < |closed.blocks| :: BreaksAt(tk, cfg, closed.blocks, i)
    ensures Filled(tk, cfg, closed.(blocks := closed.blocks + Singles(texts, page, section)))
  {
    hide BufferTokens;
    var all := closed.blocks + Singles(texts, page, section);
    forall i | 0 < i < |all| ensures BreaksAt(tk, cfg, all, i) {
      if i < |closed.blocks| { assert BreaksAt(tk, cfg, closed.blocks, i); }
    }
  }

  /** A paragraph that did not fit starts the next buffer. */
  lemma OverflowFilled(tk: Tokenizer, cfg: Settings, d: Draft, text: string, e: Element)
    requires Filled(tk, cfg, d) && BufferTokens(tk, d.buffer) + JOIN_TOKEN_COST + tk.Count(text) > cfg.target
    ensures Filled(tk, cfg, AddText(Close(tk, cfg, d), text, e))
  {
    CloseFilled(tk, cfg, d);
    ClosedIsEmpty(tk, cfg, d);
    NothingToClose(tk, cfg, d);
    hide Close, BufferTokens;
  }

  lemma NothingToClose(tk: Tokenizer, cfg: Settings, d: Draft)
    ensures d.buffer == [] ==> Close(tk, cfg, d) == d
  {}

  lemma RoomFilled(tk: Tokenizer, cfg: Settings, d: Draft, text: string, e: Element)
    requires Filled(tk, cfg, d)
    ensures Filled(tk, cfg, AddText(d, text, e))
  {
    hide BufferTokens;
  }

  lemma SplitFilled(tk: Tokenizer, cfg: Settings, d: Draft, text: string, e: Element)
    requires 0 <= cfg.overlap < cfg.target && tk.Measured() && Filled(tk, cfg, d) && Solid(text)
    ensures var closed := Close(tk, cfg, d);
            Filled(tk, cfg, closed.(blocks := closed.blocks
                                    + Singles(SentenceSplit.SplitTexts(tk, cfg.Splitting(), text), e.page, e.section)))
  {
    hide Close, Filled, SentenceSplit.SplitTexts, BreaksAt;
    CloseFilled(tk, cfg, d);
    ClosedIsEmpty(tk, cfg, d);
    SentenceSplit.SplitTextsFit(tk, cfg.Splitting(), text);
    SinglesFilled(tk, cfg, Close(tk, cfg, d), SentenceSplit.SplitTexts(tk, cfg.Splitting(), text), e.page, e.section);
  }

  lemma TakeFilled(tk: Tokenizer, cfg: Settings, d: Draft, e: Element)
    requires 0 <= cfg.overlap < cfg.target && tk.Measured() && Filled(tk, cfg, d)
    ensures Filled(tk, cfg, Take(tk, cfg, d, e))
  {
    hide Close, Filled, SentenceSplit.SplitTexts, Strip, Tokenizer.Measured, BufferTokens, Element.IsChunkable;
    var text := Strip(e.text);
    if e.IsChunkable() {
      if tk.Count(text) > cfg.target {
        ChunkableIsSolid(e);
        SplitFilled(tk, cfg, d, text, e);
      } else if BufferTokens(tk, d.buffer) + JOIN_TOKEN_COST + tk.Count(text) > cfg.target {
        OverflowFilled(tk, cfg, d, text, e);
      } else {
        RoomFilled(tk, cfg, d, text, e);
      }
    }
  }

  lemma ChunkableIsSolid(e: Element)
    ensures e.IsChunkable() ==> Solid(Strip(e.text))
  {
    StripIsSolid(e.text);
  }

  lemma {:induction false} TakeAllFilled(tk: Tokenizer, cfg: Settings, elements: seq<Element>)
    requires 0 <= cfg.overlap < cfg.target && tk.Measured()
    ensures Filled(tk, cfg, TakeAll(tk, cfg, elements))
  {
    if elements != [] {
      var init := elements[..|elements| - 1];
      TakeAllFilled(tk, cfg, init);
      hide Filled, Take, Tokenizer.Measured;
      TakeFilled(tk, cfg, TakeAll(tk, cfg, init), elements[|elements| - 1]);
    }
  }

  /** No chunk ends without a reason: the next one comes from a split paragraph, follows one, or did not fit. */
  lemma ChunksAreFull(tk: Tokenizer, cfg: Settings, elements: seq<Element>, i: nat)
    requires 0 <= cfg.overlap < cfg.target && tk.Measured() && 0 < i < |Blocks(tk, cfg, elements)|
    ensures BreaksAt(tk, cfg, Blocks(tk, cfg, elements), i)
  {
    hide Tokenizer.Measured, TakeAll, BreaksAt;
    TakeAllFilled(tk, cfg, elements);
    CloseFilled(tk, cfg, TakeAll(tk, cfg, elements));
  }
}
