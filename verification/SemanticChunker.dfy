/** The paragraph-aware chunker: fill to a token budget, merge small leftovers back, split oversized paragraphs. */
module SemanticChunker {
  import opened Options
  import opened Text
  import opened Elements
  import SentenceSplit
  import W = WordTokens

  datatype Settings = Settings(target: int, overlap: int, minTokens: int)
  {
    /** What the constructor accepts. */
    predicate Accepted() { overlap < target }
    function Splitting(): SentenceSplit.Config { SentenceSplit.Config(target, overlap) }
  }

  const PARAGRAPH_BREAK := "\n\n"
  const JOIN_TOKEN_COST := 1

  // ---------------------------------------------------------------- blocks: chunks as lists of paragraphs

  /**
   A chunk under construction: its paragraphs, its anchor, how many small leftovers it has absorbed, and whether it
   began as one text of a split paragraph.
   */
  datatype Block = Block(parts: seq<string>, page: Option<int>, section: Option<string>, absorbed: nat, split: bool)

  datatype Draft = Draft(blocks: seq<Block>, buffer: seq<string>, page: Option<int>, section: Option<string>)
  {
    function Last(): Block requires blocks != [] { blocks[|blocks| - 1] }
  }

  function BufferTokens(tk: Tokenizer, buffer: seq<string>): nat {
    tk.Sum(buffer) + if buffer == [] then 0 else (|buffer| - 1) * JOIN_TOKEN_COST
  }

  /** Close the buffer: append it as a block, or merge it into the last block when it is too small. */
  function Close(tk: Tokenizer, cfg: Settings, d: Draft): Draft {
    if d.buffer == [] then d
    else if tk.Count(Join(PARAGRAPH_BREAK, d.buffer)) < cfg.minTokens && d.blocks != [] then
      var last := d.blocks[|d.blocks| - 1];
      Draft(d.blocks[..|d.blocks| - 1] + [last.(parts := last.parts + d.buffer, absorbed := last.absorbed + 1)], [], None, None)
    else Draft(d.blocks + [Block(d.buffer, d.page, d.section, 0, false)], [], None, None)
  }

  /** Each text of a split paragraph is a block of its own. */
  function Singles(texts: seq<string>, page: Option<int>, section: Option<string>): seq<Block> {
    seq(|texts|, i requires 0 <= i < |texts| => Block([texts[i]], page, section, 0, true))
  }

  function Take(tk: Tokenizer, cfg: Settings, d: Draft, e: Element): Draft
    requires cfg.Accepted()
  {
    var text := Strip(e.text);
    if !e.IsChunkable() then d
    else if tk.Count(text) > cfg.target then
      var closed := Close(tk, cfg, d);
      closed.(blocks := closed.blocks + Singles(SentenceSplit.SplitTexts(tk, cfg.Splitting(), text), e.page, e.section))
    else
      var ready := if BufferTokens(tk, d.buffer) + JOIN_TOKEN_COST + tk.Count(text) > cfg.target then Close(tk, cfg, d) else d;
      AddText(ready, text, e)
  }

  /** The first paragraph of a buffer anchors its page and section. */
  function AddText(d: Draft, text: string, e: Element): Draft {
    if d.buffer == [] then Draft(d.blocks, [text], e.page, e.section) else d.(buffer := d.buffer + [text])
  }

  function TakeAll(tk: Tokenizer, cfg: Settings, elements: seq<Element>): Draft
    requires cfg.Accepted()
  {
    if elements == [] then Draft([], [], None, None)
    else Take(tk, cfg, TakeAll(tk, cfg, elements[..|elements| - 1]), elements[|elements| - 1])
  }

  function Blocks(tk: Tokenizer, cfg: Settings, elements: seq<Element>): seq<Block>
    requires cfg.Accepted()
  {
    Close(tk, cfg, TakeAll(tk, cfg, elements)).blocks
  }

  /** Block `i` as the chunk the source stores at position `i`. */
  function RenderAt(tk: Tokenizer, block: Block, i: nat): Chunk {
    var text := Join(PARAGRAPH_BREAK, block.parts);
    Chunk(text, i, tk.Count(text), block.page, block.section, None)
  }

  function Render(tk: Tokenizer, blocks: seq<Block>): seq<Chunk> {
    seq(|blocks|, i requires 0 <= i < |blocks| => RenderAt(tk, blocks[i], i))
  }

  lemma BufferTokensAppend(tk: Tokenizer, buffer: seq<string>, text: string)
    ensures BufferTokens(tk, buffer + [text])
            == BufferTokens(tk, buffer) + tk.Count(text) + if buffer == [] then 0 else JOIN_TOKEN_COST
  {
    assert (buffer + [text])[..|buffer|] == buffer;
  }

  // ---------------------------------------------------------------- the chunker

  predicate DraftOk(d: Draft) {
    AllSolid(d.buffer) && forall i | 0 <= i < |d.blocks| :: d.blocks[i].parts != []
  }

  lemma CloseDraftOk(tk: Tokenizer, cfg: Settings, d: Draft)
    ensures DraftOk(d) ==> DraftOk(Close(tk, cfg, d))
  {}

  lemma AddTextDraftOk(d: Draft, text: string, e: Element)
    ensures DraftOk(d) && Solid(text) ==> DraftOk(AddText(d, text, e))
    ensures AddText(d, text, e).buffer == d.buffer + [text]
  {}

  lemma RenderAppend(tk: Tokenizer, blocks: seq<Block>, block: Block)
    ensures Render(tk, blocks + [block]) == Render(tk, blocks) + [RenderAt(tk, block, |blocks|)]
  {}

  lemma RenderLength(tk: Tokenizer, blocks: seq<Block>)
    ensures |Render(tk, blocks)| == |blocks|
  {}

  lemma RenderSingle(tk: Tokenizer, text: string, page: Option<int>, section: Option<string>, i: nat)
    ensures RenderAt(tk, Block([text], page, section, 0, true), i) == Chunk(text, i, tk.Count(text), page, section, None)
  {}

  lemma RenderReplaceLast(tk: Tokenizer, blocks: seq<Block>, block: Block)
    requires blocks != []
    ensures Render(tk, blocks[..|blocks| - 1] + [block])
            == Render(tk, blocks)[..|blocks| - 1] + [RenderAt(tk, block, |blocks| - 1)]
  {}

  /** Absorbing a buffer into the last block rewrites the last chunk's text and count, and nothing else. */
  lemma MergedChunk(tk: Tokenizer, blocks: seq<Block>, buffer: seq<string>)
    requires blocks != [] && buffer != [] && blocks[|blocks| - 1].parts != []
    ensures var n := |blocks| - 1; var last, chunks := blocks[n], Render(tk, blocks);
            var text := chunks[n].text + PARAGRAPH_BREAK + Join(PARAGRAPH_BREAK, buffer);
            Render(tk, blocks[..n] + [last.(parts := last.parts + buffer, absorbed := last.absorbed + 1)])
            == chunks[..n] + [chunks[n].(text := text, tokens := tk.Count(text))]
  {
    var last := blocks[|blocks| - 1];
    JoinAppend(PARAGRAPH_BREAK, last.parts, buffer);
    RenderReplaceLast(tk, blocks, last.(parts := last.parts + buffer, absorbed := last.absorbed + 1));
    hide Join;
  }

  class Chunker {
    const tk: Tokenizer
    const cfg: Settings
    var out: seq<Chunk>
    var buffer: seq<string>
    var bufferTokens: nat
    var anchorPage: Option<int>
    var anchorSection: Option<string>

    ghost predicate Represents(d: Draft)
      reads this
    {
      && DraftOk(d)
      && out == Render(tk, d.blocks)
      && buffer == d.buffer && bufferTokens == BufferTokens(tk, buffer)
      && anchorPage == d.page && anchorSection == d.section
    }

    constructor (tk: Tokenizer, cfg: Settings)
      ensures this.tk == tk && this.cfg == cfg && Represents(Draft([], [], None, None))
    {
      this.tk, this.cfg := tk, cfg;
      out, buffer, bufferTokens, anchorPage, anchorSection := [], [], 0, None, None;
    }

    method Emit(ghost d: Draft)
      requires Represents(d)
      modifies this
      ensures Represents(Close(tk, cfg, d))
    {
      if buffer == [] { return; }
      CloseDraftOk(tk, cfg, d);
      JoinSolid(PARAGRAPH_BREAK, buffer);
      StripSolid(Join(PARAGRAPH_BREAK, buffer));
      assert BufferTokens(tk, []) == 0;
      ghost var blocks := d.blocks;
      RenderLength(tk, blocks);
      hide Strip, Render, BufferTokens, Solid;
      var text := Strip(Join(PARAGRAPH_BREAK, buffer));
      var tokens := tk.Count(text);
      if tokens < cfg.minTokens && out != [] {
        var prev := out[|out| - 1];
        var merged := prev.text + PARAGRAPH_BREAK + text;
        MergedChunk(tk, blocks, buffer);
        out := out[..|out| - 1] + [prev.(text := merged, tokens := tk.Count(merged))];
      } else {
        RenderAppend(tk, blocks, Block(buffer, anchorPage, anchorSection, 0, false));
        out := out + [Chunk(text, |out|, tokens, anchorPage, anchorSection, None)];
      }
      buffer, bufferTokens, anchorPage, anchorSection := [], 0, None, None;
    }

    method AppendSplit(text: string, e: Element, ghost d: Draft)
      requires Represents(d) && cfg.Accepted()
      modifies this`out
      ensures Represents(d.(blocks := d.blocks + Singles(SentenceSplit.SplitTexts(tk, cfg.Splitting(), text), e.page, e.section)))
    {
      hide BufferTokens, Join, Render, RenderAt, AllSolid, SentenceSplit.SplitTexts;
      var texts := SentenceSplit.SplitLongText(tk, cfg.Splitting(), text);
      ghost var added := Singles(texts, e.page, e.section);
      assert d.blocks + added[..0] == d.blocks;
      var i := 0;
      while i < |texts|
        invariant 0 <= i <= |texts|
        invariant out == Render(tk, d.blocks + added[..i])
      {
        RenderAppend(tk, d.blocks + added[..i], added[i]);
        RenderSingle(tk, texts[i], e.page, e.section, |out|);
        RenderLength(tk, d.blocks + added[..i]);
        assert d.blocks + added[..i] + [added[i]] == d.blocks + added[..i + 1];
        out := out + [Chunk(texts[i], |out|, tk.Count(texts[i]), e.page, e.section, None)];
        i := i + 1;
      }
      assert added[..i] == added;
    }

    method AppendText(text: string, tokens: nat, e: Element, ghost d: Draft)
      requires Represents(d) && Solid(text) && tokens == tk.Count(text)
      modifies this`buffer, this`bufferTokens, this`anchorPage, this`anchorSection
      ensures Represents(AddText(d, text, e))
    {
      AddTextDraftOk(d, text, e);
      BufferTokensAppend(tk, buffer, text);
      hide BufferTokens, Render, Solid, DraftOk;
      if buffer == [] {
        anchorPage, anchorSection := e.page, e.section;
      }
      buffer := buffer + [text];
      bufferTokens := bufferTokens + tokens + if |buffer| > 1 then JOIN_TOKEN_COST else 0;
    }

    method TakeElement(e: Element, ghost d: Draft)
      requires Represents(d) && cfg.Accepted()
      modifies this
      ensures Represents(Take(tk, cfg, d, e))
    {
      if !e.IsChunkable() { return; }
      var text := Strip(e.text);
      StripIsSolid(e.text);
      var tokens := tk.Count(text);
      if tokens > cfg.target {
        Emit(d);
        AppendSplit(text, e, Close(tk, cfg, d));
      } else if bufferTokens + JOIN_TOKEN_COST + tokens > cfg.target {
        Emit(d);
        AppendText(text, tokens, e, Close(tk, cfg, d));
      } else {
        AppendText(text, tokens, e, d);
      }
    }
  }

  method ChunkElements(tk: Tokenizer, cfg: Settings, elements: seq<Element>) returns (out: seq<Chunk>)
    requires cfg.Accepted()
    ensures out == Render(tk, Blocks(tk, cfg, elements))
  {
    var chunker := new Chunker(tk, cfg);
    var i := 0;
    while i < |elements|
      invariant 0 <= i <= |elements|
      invariant chunker.tk == tk && chunker.cfg == cfg
      invariant chunker.Represents(TakeAll(tk, cfg, elements[..i]))
    {
      chunker.TakeElement(elements[i], TakeAll(tk, cfg, elements[..i]));
      assert elements[..i + 1][..i] == elements[..i];
      i := i + 1;
    }
    assert elements[..i] == elements;
    chunker.Emit(TakeAll(tk, cfg, elements));
    out := chunker.out;
  }

  // ---------------------------------------------------------------- conservation

  /** What an element contributes: nothing, its stripped text, or the texts it is split into. */
  function Contribution(tk: Tokenizer, cfg: Settings, e: Element): seq<string>
    requires cfg.Accepted()
  {
    var text := Strip(e.text);
    if !e.IsChunkable() then []
    else if tk.Count(text) > cfg.target then SentenceSplit.SplitTexts(tk, cfg.Splitting(), text)
    else [text]
  }

  function Contributions(tk: Tokenizer, cfg: Settings, elements: seq<Element>): seq<string>
    requires cfg.Accepted()
  {
    if elements == [] then []
    else Contributions(tk, cfg, elements[..|elements| - 1]) + Contribution(tk, cfg, elements[|elements| - 1])
  }

  function Parts(blocks: seq<Block>): seq<string> {
    if blocks == [] then [] else Parts(blocks[..|blocks| - 1]) + blocks[|blocks| - 1].parts
  }

  function Content(d: Draft): seq<string> {
    Parts(d.blocks) + d.buffer
  }

  lemma PartsAppend(blocks: seq<Block>, block: Block)
    ensures Parts(blocks + [block]) == Parts(blocks) + block.parts
  {
    assert (blocks + [block])[..|blocks|] == blocks;
  }

  lemma SinglesAppend(blocks: seq<Block>, texts: seq<string>, text: string, page: Option<int>, section: Option<string>)
    ensures blocks + Singles(texts + [text], page, section)
            == (blocks + Singles(texts, page, section)) + [Block([text], page, section, 0, true)]
  {}

  lemma {:induction false} PartsOfSingles(blocks: seq<Block>, texts: seq<string>, page: Option<int>, section: Option<string>)
    ensures Parts(blocks + Singles(texts, page, section)) == Parts(blocks) + texts
  {
    if texts == [] {
      assert blocks + Singles(texts, page, section) == blocks;
    } else {
      var init, last := texts[..|texts| - 1], texts[|texts| - 1];
      assert texts == init + [last];
      PartsOfSingles(blocks, init, page, section);
      SinglesAppend(blocks, init, last, page, section);
      PartsAppend(blocks + Singles(init, page, section), Block([last], page, section, 0, true));
      assert Parts(blocks) + init + [last] == Parts(blocks) + texts;
    }
  }

  lemma CloseKeepsContent(tk: Tokenizer, cfg: Settings, d: Draft)
    ensures Content(Close(tk, cfg, d)) == Content(d)
  {
    var d' := Close(tk, cfg, d);
    if d.buffer != [] {
      if tk.Count(Join(PARAGRAPH_BREAK, d.buffer)) < cfg.minTokens && d.blocks != [] {
        PartsAppend(d.blocks[..|d.blocks| - 1], d'.blocks[|d.blocks| - 1]);
      } else {
        PartsAppend(d.blocks, Block(d.buffer, d.page, d.section, 0, false));
      }
    }
  }

  lemma ClosedIsEmpty(tk: Tokenizer, cfg: Settings, d: Draft)
    ensures Close(tk, cfg, d).buffer == []
  {}

  lemma AddTextContent(d: Draft, text: string, e: Element)
    ensures Content(AddText(d, text, e)) == Content(d) + [text]
  {}

  lemma TakeAddsContribution(tk: Tokenizer, cfg: Settings, d: Draft, e: Element)
    requires cfg.Accepted()
    ensures Content(Take(tk, cfg, d, e)) == Content(d) + Contribution(tk, cfg, e)
  {
    CloseKeepsContent(tk, cfg, d);
    ClosedIsEmpty(tk, cfg, d);
    var text, closed := Strip(e.text), Close(tk, cfg, d);
    hide Parts, Join, Strip, Close, BufferTokens, Element.IsChunkable;
    if !e.IsChunkable() {
    } else if tk.Count(text) > cfg.target {
      PartsOfSingles(closed.blocks, SentenceSplit.SplitTexts(tk, cfg.Splitting(), text), e.page, e.section);
    } else {
      AddTextContent(closed, text, e);
      AddTextContent(d, text, e);
    }
  }

  lemma {:induction false} TakeAllContent(tk: Tokenizer, cfg: Settings, elements: seq<Element>)
    requires cfg.Accepted()
    ensures Content(TakeAll(tk, cfg, elements)) == Contributions(tk, cfg, elements)
  {
    if elements != [] {
      var init := elements[..|elements| - 1];
      TakeAllContent(tk, cfg, init);
      TakeAddsContribution(tk, cfg, TakeAll(tk, cfg, init), elements[|elements| - 1]);
    }
  }

  /** Through every emit and merge-back, each paragraph lands in exactly one chunk and source order is kept. */
  lemma ParagraphsConserved(tk: Tokenizer, cfg: Settings, elements: seq<Element>)
    requires cfg.Accepted()
    ensures Parts(Blocks(tk, cfg, elements)) == Contributions(tk, cfg, elements)
  {
    TakeAllContent(tk, cfg, elements);
    CloseKeepsContent(tk, cfg, TakeAll(tk, cfg, elements));
    assert Close(tk, cfg, TakeAll(tk, cfg, elements)).buffer == [];
  }

  // ---------------------------------------------------------------- attribution

  /** A contributed text with the page and section of the element it came from, and whether it is all of it. */
  datatype Origin = Origin(text: string, page: Option<int>, section: Option<string>, whole: bool)

  function OriginsOf(tk: Tokenizer, cfg: Settings, e: Element): seq<Origin>
    requires cfg.Accepted()
  {
    var texts := Contribution(tk, cfg, e);
    seq(|texts|, i requires 0 <= i < |texts| => Origin(texts[i], e.page, e.section, tk.Count(Strip(e.text)) <= cfg.target))
  }

  function Origins(tk: Tokenizer, cfg: Settings, elements: seq<Element>): seq<Origin>
    requires cfg.Accepted()
  {
    if elements == [] then []
    else Origins(tk, cfg, elements[..|elements| - 1]) + OriginsOf(tk, cfg, elements[|elements| - 1])
  }

  /** Block `i` carries the page and section of the text it begins with, and knows whether that was a whole paragraph. */
  ghost predicate AnchoredAt(blocks: seq<Block>, origins: seq<Origin>, i: nat)
    requires i < |blocks|
  {
    var at := |Parts(blocks[..i])|;
    && at < |origins| && origins[at].page == blocks[i].page && origins[at].section == blocks[i].section
    && origins[at].whole == !blocks[i].split
  }

  ghost predicate Anchored(d: Draft, origins: seq<Origin>) {
    && |origins| == |Content(d)|
    && (forall i | 0 <= i < |d.blocks| :: AnchoredAt(d.blocks, origins, i))
    && (d.buffer != [] ==>
          var at := |Parts(d.blocks)|;
          origins[at].page == d.page && origins[at].section == d.section && origins[at].whole)
  }

  lemma AnchorStays(blocks: seq<Block>, blocks': seq<Block>, origins: seq<Origin>, more: seq<Origin>, i: nat)
    requires i < |blocks| && i < |blocks'| && blocks[..i] == blocks'[..i] && AnchoredAt(blocks, origins, i)
    requires blocks[i].page == blocks'[i].page && blocks[i].section == blocks'[i].section && blocks[i].split == blocks'[i].split
    ensures AnchoredAt(blocks', origins + more, i)
  {
    hide Parts;
  }

  lemma CloseAnchored(tk: Tokenizer, cfg: Settings, d: Draft, origins: seq<Origin>)
    requires Anchored(d, origins)
    ensures Anchored(Close(tk, cfg, d), origins)
  {
    var d' := Close(tk, cfg, d);
    CloseKeepsContent(tk, cfg, d);
    ClosedIsEmpty(tk, cfg, d);
    CloseGrowsBlocks(tk, cfg, d);
    assert origins + [] == origins;
    hide Content, Close, AnchoredAt;
    forall i | 0 <= i < |d'.blocks| ensures AnchoredAt(d'.blocks, origins, i) {
      if i < |d.blocks| {
        AnchorStays(d.blocks, d'.blocks, origins, [], i);
      } else {
        BufferAnchors(d, d'.blocks, origins);
      }
    }
  }

  /** Closing keeps every block's anchor and prefix, and adds at most one block, anchored as the buffer was. */
  lemma CloseGrowsBlocks(tk: Tokenizer, cfg: Settings, d: Draft)
    ensures var blocks := Close(tk, cfg, d).blocks;
            && |d.blocks| <= |blocks| <= |d.blocks| + 1
            && (forall i | 0 <= i < |d.blocks| ::
                  && blocks[..i] == d.blocks[..i] && blocks[i].page == d.blocks[i].page
                  && blocks[i].section == d.blocks[i].section && blocks[i].split == d.blocks[i].split)
            && (|blocks| > |d.blocks| ==>
                  && d.buffer != [] && blocks[..|d.blocks|] == d.blocks
                  && blocks[|d.blocks|].page == d.page && blocks[|d.blocks|].section == d.section && !blocks[|d.blocks|].split)
  {
    hide Join;
  }

  lemma BufferAnchors(d: Draft, blocks: seq<Block>, origins: seq<Origin>)
    requires Anchored(d, origins) && d.buffer != []
    requires |blocks| == |d.blocks| + 1 && blocks[..|d.blocks|] == d.blocks
    requires blocks[|d.blocks|].page == d.page && blocks[|d.blocks|].section == d.section && !blocks[|d.blocks|].split
    ensures AnchoredAt(blocks, origins, |d.blocks|)
  {
    hide Parts;
  }

  lemma AddTextAnchored(d: Draft, text: string, e: Element, origins: seq<Origin>)
    requires Anchored(d, origins)
    ensures Anchored(AddText(d, text, e), origins + [Origin(text, e.page, e.section, true)])
  {
    AddTextContent(d, text, e);
    hide Parts, AnchoredAt;
    var d' := AddText(d, text, e);
    forall i | 0 <= i < |d'.blocks| ensures AnchoredAt(d'.blocks, origins + [Origin(text, e.page, e.section, true)], i) {
      AnchorStays(d.blocks, d'.blocks, origins, [Origin(text, e.page, e.section, true)], i);
    }
  }

  lemma SinglesAnchored(d: Draft, texts: seq<string>, e: Element, origins: seq<Origin>, more: seq<Origin>)
    requires Anchored(d, origins) && d.buffer == [] && |more| == |texts|
    requires forall i | 0 <= i < |more| :: more[i] == Origin(texts[i], e.page, e.section, false)
    ensures Anchored(d.(blocks := d.blocks + Singles(texts, e.page, e.section)), origins + more)
  {
    var blocks := d.blocks + Singles(texts, e.page, e.section);
    PartsOfSingles(d.blocks, texts, e.page, e.section);
    forall i | 0 <= i < |blocks| ensures AnchoredAt(blocks, origins + more, i) {
      if i < |d.blocks| {
        assert blocks[..i] == d.blocks[..i];
        AnchorStays(d.blocks, blocks, origins, more, i);
      } else {
        var k := i - |d.blocks|;
        assert blocks[..i] == d.blocks + Singles(texts[..k], e.page, e.section);
        PartsOfSingles(d.blocks, texts[..k], e.page, e.section);
        assert (origins + more)[|origins| + k] == more[k];
      }
    }
  }

  lemma TakeAnchored(tk: Tokenizer, cfg: Settings, d: Draft, e: Element, origins: seq<Origin>)
    requires cfg.Accepted() && Anchored(d, origins)
    ensures Anchored(Take(tk, cfg, d, e), origins + OriginsOf(tk, cfg, e))
  {
    CloseAnchored(tk, cfg, d, origins);
    var text, closed := Strip(e.text), Close(tk, cfg, d);
    hide Parts, Join, AnchoredAt, Strip, Close;
    if !e.IsChunkable() {
      assert origins + OriginsOf(tk, cfg, e) == origins;
    } else if tk.Count(text) > cfg.target {
      ClosedIsEmpty(tk, cfg, d);
      SinglesAnchored(closed, SentenceSplit.SplitTexts(tk, cfg.Splitting(), text), e, origins, OriginsOf(tk, cfg, e));
    } else {
      assert OriginsOf(tk, cfg, e) == [Origin(text, e.page, e.section, true)];
      AddTextAnchored(closed, text, e, origins);
      AddTextAnchored(d, text, e, origins);
    }
  }

  lemma {:induction false} TakeAllAnchored(tk: Tokenizer, cfg: Settings, elements: seq<Element>)
    requires cfg.Accepted()
    ensures Anchored(TakeAll(tk, cfg, elements), Origins(tk, cfg, elements))
  {
    if elements != [] {
      var init := elements[..|elements| - 1];
      TakeAllAnchored(tk, cfg, init);
      TakeAnchored(tk, cfg, TakeAll(tk, cfg, init), elements[|elements| - 1], Origins(tk, cfg, init));
    }
  }

  /** Through every emit and merge-back, a chunk's page and section are those of the text it begins with. */
  lemma {:induction false} ChunksKeepTheirAnchor(tk: Tokenizer, cfg: Settings, elements: seq<Element>, i: nat)
    requires cfg.Accepted() && i < |Blocks(tk, cfg, elements)|
    ensures AnchoredAt(Blocks(tk, cfg, elements), Origins(tk, cfg, elements), i)
  {
    TakeAllAnchored(tk, cfg, elements);
    CloseAnchored(tk, cfg, TakeAll(tk, cfg, elements), Origins(tk, cfg, elements));
  }

  // ---------------------------------------------------------------- merge-back bound

  function Tokens(tk: Tokenizer, block: Block): nat {
    tk.Count(Join(PARAGRAPH_BREAK, block.parts))
  }

  /** A block within target plus overlap, or one that has absorbed a single small leftover. */
  predicate BlockFits(tk: Tokenizer, cfg: Settings, block: Block)
    requires cfg.overlap >= 0
  {
    && block.parts != [] && Join(PARAGRAPH_BREAK, block.parts) != ""
    && block.absorbed <= 1
    && (block.absorbed == 0 ==> Tokens(tk, block) <= cfg.target + cfg.overlap)
    && (block.absorbed == 1 ==> Tokens(tk, block) <= cfg.target + cfg.overlap + cfg.minTokens)
  }

  predicate LastAbsorbed(d: Draft) {
    d.blocks != [] && d.blocks[|d.blocks| - 1].absorbed > 0
  }

  /** Once the last block has absorbed a leftover, the buffer is empty-at-the-end or too large to be absorbed. */
  predicate MergeInv(tk: Tokenizer, cfg: Settings, d: Draft)
    requires cfg.overlap >= 0
  {
    && AllSolid(d.buffer)
    && BufferTokens(tk, d.buffer) <= cfg.target
    && AllFit(tk, cfg, d.blocks)
    && (LastAbsorbed(d) ==> d.buffer != [] && BufferTokens(tk, d.buffer) >= cfg.minTokens)
  }

  lemma BufferCount(tk: Tokenizer, buffer: seq<string>)
    requires tk.ParagraphJoinCostsOne() && buffer != [] && AllSolid(buffer)
    ensures tk.Count(Join(PARAGRAPH_BREAK, buffer)) == BufferTokens(tk, buffer)
    ensures Solid(Join(PARAGRAPH_BREAK, buffer))
  {
    ParagraphCount(tk, buffer);
    JoinSolid(PARAGRAPH_BREAK, buffer);
  }

  lemma AbsorbedTokens(tk: Tokenizer, parts: seq<string>, buffer: seq<string>)
    requires tk.ParagraphJoinCostsAtMostOne() && parts != [] && Join(PARAGRAPH_BREAK, parts) != ""
    requires buffer != [] && AllSolid(buffer)
    ensures Join(PARAGRAPH_BREAK, parts + buffer) != ""
    ensures tk.Count(Join(PARAGRAPH_BREAK, parts + buffer))
            <= tk.Count(Join(PARAGRAPH_BREAK, parts)) + 1 + tk.Count(Join(PARAGRAPH_BREAK, buffer))
  {
    JoinAppend(PARAGRAPH_BREAK, parts, buffer);
    JoinSolid(PARAGRAPH_BREAK, buffer);
  }

  lemma MergedFits(tk: Tokenizer, cfg: Settings, last: Block, buffer: seq<string>)
    requires cfg.overlap >= 0 && tk.ParagraphJoinCostsAtMostOne()
    requires BlockFits(tk, cfg, last) && last.absorbed == 0
    requires buffer != [] && AllSolid(buffer) && tk.Count(Join(PARAGRAPH_BREAK, buffer)) < cfg.minTokens
    ensures BlockFits(tk, cfg, last.(parts := last.parts + buffer, absorbed := last.absorbed + 1))
  {
    AbsorbedTokens(tk, last.parts, buffer);
  }

  predicate AllFit(tk: Tokenizer, cfg: Settings, blocks: seq<Block>)
    requires cfg.overlap >= 0
  {
    forall i | 0 <= i < |blocks| :: BlockFits(tk, cfg, blocks[i])
  }

  lemma AppendedFits(tk: Tokenizer, cfg: Settings, d: Draft)
    requires cfg.overlap >= 0 && tk.ParagraphJoinCostsOne()
    requires d.buffer != [] && AllSolid(d.buffer) && BufferTokens(tk, d.buffer) <= cfg.target
    ensures BlockFits(tk, cfg, Block(d.buffer, d.page, d.section, 0, false))
  {
    BufferCount(tk, d.buffer);
  }

  /** Closing keeps every block in bounds; if it merged, the buffer was small. */
  lemma CloseFits(tk: Tokenizer, cfg: Settings, d: Draft)
    requires cfg.overlap >= 0 && tk.ParagraphJoinCostsOne() && tk.ParagraphJoinCostsAtMostOne() && MergeInv(tk, cfg, d)
    ensures var d' := Close(tk, cfg, d);
            && d'.buffer == [] && AllFit(tk, cfg, d'.blocks)
            && (LastAbsorbed(d') ==> d.buffer != [] && BufferTokens(tk, d.buffer) < cfg.minTokens)
  {
    if d.buffer != [] {
      BufferCount(tk, d.buffer);
      if tk.Count(Join(PARAGRAPH_BREAK, d.buffer)) < cfg.minTokens && d.blocks != [] {
        MergedFits(tk, cfg, d.blocks[|d.blocks| - 1], d.buffer);
      } else {
        AppendedFits(tk, cfg, d);
      }
    }
  }

  lemma SinglesFit(tk: Tokenizer, cfg: Settings, text: string, page: Option<int>, section: Option<string>)
    requires 0 <= cfg.overlap < cfg.target && tk.SentenceJoinIsFree() && tk.WindowsAreStable() && Solid(text)
    ensures var blocks := Singles(SentenceSplit.SplitTexts(tk, cfg.Splitting(), text), page, section);
            blocks != [] && AllFit(tk, cfg, blocks) && blocks[|blocks| - 1].absorbed == 0
  {
    SentenceSplit.SplitTextsFit(tk, cfg.Splitting(), text);
    var texts := SentenceSplit.SplitTexts(tk, cfg.Splitting(), text);
    hide SentenceSplit.SplitTexts, BlockFits;
    forall i | 0 <= i < |texts| ensures BlockFits(tk, cfg, Singles(texts, page, section)[i]) {
      SingleFits(tk, cfg, texts[i], page, section);
    }
  }

  lemma SingleFits(tk: Tokenizer, cfg: Settings, text: string, page: Option<int>, section: Option<string>)
    requires cfg.overlap >= 0 && text != "" && tk.Count(text) <= cfg.target + cfg.overlap
    ensures BlockFits(tk, cfg, Block([text], page, section, 0, true))
  {}

  lemma AppendSinglesFits(tk: Tokenizer, cfg: Settings, closed: Draft, added: seq<Block>)
    requires cfg.target >= 0 && cfg.overlap >= 0 && closed.buffer == [] && AllFit(tk, cfg, closed.blocks)
    requires added != [] && AllFit(tk, cfg, added) && added[|added| - 1].absorbed == 0
    ensures MergeInv(tk, cfg, closed.(blocks := closed.blocks + added))
  {
    SentenceSplit.SumNil(tk);
  }

  /** After a merge that overflow forced, the paragraph that caused it is too large to be absorbed in turn. */
  lemma OverflowFits(tk: Tokenizer, cfg: Settings, d: Draft, closed: Draft, text: string, e: Element)
    requires cfg.overlap >= 0 && 2 * cfg.minTokens - 1 <= cfg.target
    requires Solid(text) && tk.Count(text) <= cfg.target
    requires BufferTokens(tk, d.buffer) + JOIN_TOKEN_COST + tk.Count(text) > cfg.target
    requires closed.buffer == [] && AllFit(tk, cfg, closed.blocks)
    requires LastAbsorbed(closed) ==> BufferTokens(tk, d.buffer) < cfg.minTokens
    ensures MergeInv(tk, cfg, AddText(closed, text, e))
  {
    SentenceSplit.SumOne(tk, text);
  }

  lemma RoomFits(tk: Tokenizer, cfg: Settings, d: Draft, text: string, e: Element)
    requires cfg.overlap >= 0 && MergeInv(tk, cfg, d)
    requires Solid(text) && BufferTokens(tk, d.buffer) + JOIN_TOKEN_COST + tk.Count(text) <= cfg.target
    ensures MergeInv(tk, cfg, AddText(d, text, e))
  {
    SentenceSplit.SumOne(tk, text);
    BufferTokensAppend(tk, d.buffer, text);
  }

  lemma TakeFits(tk: Tokenizer, cfg: Settings, d: Draft, e: Element)
    requires 0 <= cfg.overlap < cfg.target && 2 * cfg.minTokens - 1 <= cfg.target
    requires tk.Measured() && MergeInv(tk, cfg, d)
    ensures MergeInv(tk, cfg, Take(tk, cfg, d, e))
  {
    if e.IsChunkable() {
      var text, closed := Strip(e.text), Close(tk, cfg, d);
      StripIsSolid(e.text);
      CloseFits(tk, cfg, d);
      if tk.Count(text) > cfg.target {
        SinglesFit(tk, cfg, text, e.page, e.section);
        AppendSinglesFits(tk, cfg, closed,
                          Singles(SentenceSplit.SplitTexts(tk, cfg.Splitting(), text), e.page, e.section));
      } else if BufferTokens(tk, d.buffer) + JOIN_TOKEN_COST + tk.Count(text) > cfg.target {
        OverflowFits(tk, cfg, d, closed, text, e);
      } else {
        RoomFits(tk, cfg, d, text, e);
      }
    }
  }

  lemma {:induction false} TakeAllFits(tk: Tokenizer, cfg: Settings, elements: seq<Element>)
    requires 0 <= cfg.overlap < cfg.target && 2 * cfg.minTokens - 1 <= cfg.target && tk.Measured()
    ensures MergeInv(tk, cfg, TakeAll(tk, cfg, elements))
  {
    if elements == [] {
      SentenceSplit.SumNil(tk);
    } else {
      var init := elements[..|elements| - 1];
      TakeAllFits(tk, cfg, init);
      TakeFits(tk, cfg, TakeAll(tk, cfg, init), elements[|elements| - 1]);
    }
  }

  /**
   When the target is at least twice the minimum less one, a chunk absorbs at most one small leftover, so
   no chunk exceeds target plus overlap, plus the minimum if it did absorb one.
   */
  lemma MergeBackBounded(tk: Tokenizer, cfg: Settings, elements: seq<Element>)
    requires 0 <= cfg.overlap < cfg.target && 2 * cfg.minTokens - 1 <= cfg.target && tk.Measured()
    ensures AllFit(tk, cfg, Blocks(tk, cfg, elements))
  {
    TakeAllFits(tk, cfg, elements);
    CloseFits(tk, cfg, TakeAll(tk, cfg, elements));
  }

  /** The same bound on the chunks the chunker returns. */
  lemma ChunksBounded(tk: Tokenizer, cfg: Settings, elements: seq<Element>, i: nat)
    requires 0 <= cfg.overlap < cfg.target && 2 * cfg.minTokens - 1 <= cfg.target && tk.Measured()
    requires i < |Render(tk, Blocks(tk, cfg, elements))|
    ensures var chunk := Render(tk, Blocks(tk, cfg, elements))[i];
            chunk.index == i && chunk.tokens == tk.Count(chunk.text)
            && chunk.tokens <= cfg.target + cfg.overlap + (if cfg.minTokens > 0 then cfg.minTokens else 0)
  {
    MergeBackBounded(tk, cfg, elements);
    assert BlockFits(tk, cfg, Blocks(tk, cfg, elements)[i]);
  }

  // ---------------------------------------------------------------- and not otherwise

  function Repeat<T>(x: T, n: nat): (r: seq<T>)
    ensures |r| == n && forall i | 0 <= i < n :: r[i] == x
  {
    if n == 0 then [] else Repeat(x, n - 1) + [x]
  }

  lemma PileOneMore(tk: Tokenizer, cfg: Settings, d: Draft, e: Element)
    requires cfg.Accepted() && e.IsChunkable() && d.blocks != [] && d.buffer == [Strip(e.text)]
    requires tk.Count(Strip(e.text)) < cfg.minTokens
    requires tk.Count(Strip(e.text)) <= cfg.target < 2 * tk.Count(Strip(e.text)) + 1
    ensures var last := d.blocks[|d.blocks| - 1];
            Take(tk, cfg, d, e)
            == Draft(d.blocks[..|d.blocks| - 1] + [last.(parts := last.parts + d.buffer, absorbed := last.absorbed + 1)],
                     [Strip(e.text)], e.page, e.section)
  {
    SentenceSplit.SumOne(tk, Strip(e.text));
  }

  /** Two equal paragraphs: the first becomes a block, the second waits in the buffer. */
  lemma PileStart(tk: Tokenizer, cfg: Settings, e: Element)
    requires cfg.Accepted() && e.IsChunkable()
    requires tk.Count(Strip(e.text)) <= cfg.target < 2 * tk.Count(Strip(e.text)) + 1
    ensures TakeAll(tk, cfg, Repeat(e, 2)) == Draft([Block([Strip(e.text)], e.page, e.section, 0, false)], [Strip(e.text)], e.page, e.section)
  {
    var text := Strip(e.text);
    SentenceSplit.SumOne(tk, text);
    assert Repeat(e, 2)[..1] == Repeat(e, 1) && Repeat(e, 1)[..0] == [];
    hide Strip, Element.IsChunkable;
    assert TakeAll(tk, cfg, Repeat(e, 1)) == Draft([], [text], e.page, e.section);
  }

  /** Below that threshold, paragraphs of one fixed size pile up in one block. */
  lemma {:induction false} PileUp(tk: Tokenizer, cfg: Settings, e: Element, n: nat)
    requires cfg.Accepted() && e.IsChunkable() && n >= 1
    requires tk.Count(Strip(e.text)) < cfg.minTokens
    requires tk.Count(Strip(e.text)) <= cfg.target < 2 * tk.Count(Strip(e.text)) + 1
    ensures TakeAll(tk, cfg, Repeat(e, n + 1))
            == Draft([Block(Repeat(Strip(e.text), n), e.page, e.section, n - 1, false)], [Strip(e.text)], e.page, e.section)
  {
    hide Strip, Take, Element.IsChunkable;
    var text := Strip(e.text);
    if n == 1 {
      PileStart(tk, cfg, e);
      assert Repeat(text, 1) == [text];
    } else {
      PileUp(tk, cfg, e, n - 1);
      PileOneMore(tk, cfg, TakeAll(tk, cfg, Repeat(e, n)), e);
      assert Repeat(e, n + 1)[..n] == Repeat(e, n);
      assert Repeat(text, n - 1) + [text] == Repeat(text, n);
    }
  }

  lemma CloseSmall(tk: Tokenizer, cfg: Settings, d: Draft, text: string)
    requires d.buffer == [text] && d.blocks != [] && tk.Count(text) < cfg.minTokens
    ensures var last := d.blocks[|d.blocks| - 1];
            Close(tk, cfg, d).blocks
            == d.blocks[..|d.blocks| - 1] + [last.(parts := last.parts + [text], absorbed := last.absorbed + 1)]
  {
    assert Join(PARAGRAPH_BREAK, [text]) == text;
  }

  /** So a chunk can absorb any number of leftovers exactly when the target is below twice the minimum less one. */
  lemma {:induction false} MergeBackUnbounded(tk: Tokenizer, cfg: Settings, e: Element, n: nat)
    requires cfg.Accepted() && cfg.target < 2 * cfg.minTokens - 1
    requires e.IsChunkable() && n >= 1
    requires tk.Count(Strip(e.text)) == if cfg.target < cfg.minTokens then cfg.target else cfg.minTokens - 1
    ensures Blocks(tk, cfg, Repeat(e, n + 1)) == [Block(Repeat(Strip(e.text), n + 1), e.page, e.section, n, false)]
  {
    hide Strip, TakeAll, Element.IsChunkable, Close;
    var text := Strip(e.text);
    PileUp(tk, cfg, e, n);
    CloseSmall(tk, cfg, TakeAll(tk, cfg, Repeat(e, n + 1)), text);
    assert Repeat(text, n) + [text] == Repeat(text, n + 1);
  }

  lemma {:induction false} SumRepeat(tk: Tokenizer, text: string, n: nat)
    ensures tk.Sum(Repeat(text, n)) == n * tk.Count(text)
  {
    if n > 0 {
      assert Repeat(text, n)[..n - 1] == Repeat(text, n - 1);
      SumRepeat(tk, text, n - 1);
      assert n * tk.Count(text) == (n - 1) * tk.Count(text) + tk.Count(text);
    }
  }

  /** And then no size bound holds either: the one chunk grows past any limit. */
  lemma {:induction false} MergeBackExceedsAnyBound(tk: Tokenizer, cfg: Settings, e: Element, n: nat)
    requires cfg.Accepted() && cfg.target < 2 * cfg.minTokens - 1 && tk.ParagraphJoinCostsOne()
    requires e.IsChunkable() && n >= 1
    requires tk.Count(Strip(e.text)) == if cfg.target < cfg.minTokens then cfg.target else cfg.minTokens - 1
    ensures var chunks := Render(tk, Blocks(tk, cfg, Repeat(e, n + 1)));
            |chunks| == 1 && chunks[0].tokens == (n + 1) * tk.Count(Strip(e.text)) + n && chunks[0].tokens >= n
  {
    MergeBackUnbounded(tk, cfg, e, n);
    StripIsSolid(e.text);
    var text := Strip(e.text);
    var parts := Repeat(text, n + 1);
    assert AllSolid(parts);
    ParagraphCount(tk, parts);
    SumRepeat(tk, text, n + 1);
    assert (n + 1) * tk.Count(text) >= 0;
    hide Blocks, Strip, Join;
  }

  ghost predicate AlwaysBounded(tk: Tokenizer, cfg: Settings, bound: int)
    requires cfg.Accepted()
  {
    forall elements, i | 0 <= i < |Render(tk, Blocks(tk, cfg, elements))| ::
      Render(tk, Blocks(tk, cfg, elements))[i].tokens <= bound
  }

  function SizeBound(cfg: Settings): int {
    cfg.target + cfg.overlap + if cfg.minTokens > 0 then cfg.minTokens else 0
  }

  /** The size of paragraph that piles up. */
  function Leftover(cfg: Settings): int {
    if cfg.target < cfg.minTokens then cfg.target else cfg.minTokens - 1
  }

  lemma BoundedAbove(tk: Tokenizer, cfg: Settings)
    requires 0 <= cfg.overlap < cfg.target && 2 * cfg.minTokens - 1 <= cfg.target && tk.Measured()
    ensures AlwaysBounded(tk, cfg, SizeBound(cfg))
  {
    hide Render, Blocks;
    forall elements, i | 0 <= i < |Render(tk, Blocks(tk, cfg, elements))|
      ensures Render(tk, Blocks(tk, cfg, elements))[i].tokens <= SizeBound(cfg)
    {
      hide Tokenizer.Measured;
      ChunksBounded(tk, cfg, elements, i);
    }
  }

  lemma UnboundedBelow(tk: Tokenizer, cfg: Settings, text: string, bound: nat)
    requires 0 <= cfg.overlap < cfg.target < 2 * cfg.minTokens - 1 && tk.ParagraphJoinCostsOne()
    requires Solid(text) && tk.Count(text) == Leftover(cfg)
    ensures !AlwaysBounded(tk, cfg, bound)
  {
    var e, n := Element(text, NarrativeText, None, None, None), bound + 1;
    StripSolid(text);
    assert e.IsChunkable() && Strip(e.text) == text;
    hide Render, Blocks, Strip, Element.IsChunkable;
    MergeBackExceedsAnyBound(tk, cfg, e, n);
    var chunks := Render(tk, Blocks(tk, cfg, Repeat(e, n + 1)));
    assert chunks[0].tokens > bound;
  }

  /** On the word tokenizer: the size bound holds for every document exactly from twice the minimum less one on. */
  lemma BoundedIff(cfg: Settings)
    requires 0 <= cfg.overlap < cfg.target
    ensures AlwaysBounded(W.WORDS, cfg, SizeBound(cfg)) <==> 2 * cfg.minTokens - 1 <= cfg.target
  {
    hide AlwaysBounded;
    W.MeasuredIsConsistent();
    if 2 * cfg.minTokens - 1 <= cfg.target {
      BoundedAbove(W.WORDS, cfg);
    } else {
      W.SaySize(Leftover(cfg));
      UnboundedBelow(W.WORDS, cfg, W.Say(Leftover(cfg)), SizeBound(cfg));
    }
  }
}
