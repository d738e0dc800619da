/** The sliding-window chunker: one text stream, fixed token windows, and each window's page and section. */
module SlidingWindow {
  import opened Options
  import opened Text
  import opened Elements
  import opened TokenWindows
  import opened Places
  import W = WordTokens

  const BREAK := "\n\n"

  // ---------------------------------------------------------------- the stream

  /** The elements that reach the stream. */
  function Sources(elements: seq<Element>): seq<Element> {
    if elements == [] then []
    else Sources(elements[..|elements| - 1])
         + if elements[|elements| - 1].IsChunkable() then [elements[|elements| - 1]] else []
  }

  function Pieces(sources: seq<Element>): seq<string> {
    seq(|sources|, i requires 0 <= i < |sources| => Strip(sources[i].text))
  }

  /** Where piece `i` starts in the joined stream. */
  function Offset(pieces: seq<string>, i: nat): nat
    requires i <= |pieces|
  {
    At(BREAK, pieces, i)
  }

  /** Position `offset` falls into piece `k` or the break behind it. */
  predicate Owns(pieces: seq<string>, k: nat, offset: nat) {
    k < |pieces| && Offset(pieces, k) <= offset && (k + 1 < |pieces| ==> offset < Offset(pieces, k + 1))
  }

  /** The recorded offsets point at their pieces. */
  lemma PieceStartsAtOffset(pieces: seq<string>, i: nat)
    requires i < |pieces|
    ensures Offset(pieces, i) + |pieces[i]| <= |Join(BREAK, pieces)|
    ensures Join(BREAK, pieces)[Offset(pieces, i)..Offset(pieces, i) + |pieces[i]|] == pieces[i]
  {
    PartStandsAt(BREAK, pieces, i);
  }

  /** Every position of the stream has one owner, the last piece that starts at or before it. */
  lemma {:induction false} OwnerIsUnique(pieces: seq<string>, k: nat, k': nat, offset: nat)
    requires Owns(pieces, k, offset) && Owns(pieces, k', offset)
    ensures k == k'
  {
    if k < k' {
      if k + 1 < k' { AtIncreases(BREAK, pieces, k + 1, k'); }
    } else if k' < k {
      if k' + 1 < k { AtIncreases(BREAK, pieces, k' + 1, k); }
    }
  }

  predicate StartsAt(starts: seq<nat>, pieces: seq<string>) {
    |starts| == |pieces| && forall i | 0 <= i < |starts| :: starts[i] == Offset(pieces, i)
  }

  lemma OffsetKept(pieces: seq<string>, text: string, i: nat)
    requires i <= |pieces|
    ensures Offset(pieces + [text], i) == Offset(pieces, i)
  {
    hide At;
    assert (pieces + [text])[..|pieces|] == pieces;
    AtOfPrefix(BREAK, pieces + [text], |pieces|, i);
  }

  lemma OffsetBehind(pieces: seq<string>, text: string)
    ensures Offset(pieces + [text], |pieces| + 1) == Offset(pieces, |pieces|) + |text| + 2
  {
    OffsetKept(pieces, text, |pieces|);
  }

  lemma StartsAppend(starts: seq<nat>, pieces: seq<string>, text: string)
    ensures StartsAt(starts, pieces) ==> StartsAt(starts + [Offset(pieces, |pieces|)], pieces + [text])
  {
    hide Offset;
    forall i | 0 <= i <= |pieces| ensures Offset(pieces + [text], i) == Offset(pieces, i) {
      OffsetKept(pieces, text, i);
    }
  }

  lemma PiecesAppend(sources: seq<Element>, e: Element)
    ensures Pieces(sources + [e]) == Pieces(sources) + [Strip(e.text)]
  {}

  lemma SourcesAppend(elements: seq<Element>, e: Element)
    ensures Sources(elements + [e]) == if e.IsChunkable() then Sources(elements) + [e] else Sources(elements)
  {
    assert (elements + [e])[..|elements|] == elements;
  }

  lemma EmptyStream()
    ensures Sources([]) == [] && Pieces([]) == [] && StartsAt([], []) && Offset([], 0) == 0
  {}

  method BuildStream(elements: seq<Element>) returns (pieces: seq<string>, starts: seq<nat>, sources: seq<Element>)
    ensures sources == Sources(elements) && pieces == Pieces(sources) && StartsAt(starts, pieces)
  {
    hide Sources, Pieces, StartsAt, Offset, Strip, Element.IsChunkable;
    pieces, starts, sources := [], [], [];
    var cursor := 0;
    EmptyStream();
    for n := 0 to |elements|
      invariant sources == Sources(elements[..n]) && pieces == Pieces(sources)
      invariant StartsAt(starts, pieces) && cursor == Offset(pieces, |pieces|)
    {
      var e := elements[n];
      assert elements[..n + 1] == elements[..n] + [e];
      SourcesAppend(elements[..n], e);
      if e.IsChunkable() {
        var text := Strip(e.text);
        PiecesAppend(sources, e);
        StartsAppend(starts, pieces, text);
        OffsetBehind(pieces, text);
        starts, sources, pieces := starts + [cursor], sources + [e], pieces + [text];
        cursor := cursor + |text| + 2;
      }
    }
    assert elements[..|elements|] == elements;
  }

  // ---------------------------------------------------------------- chunks

  /** Chunk `i` is window `span`, attributed to the element owning the position the window's prefix decodes to. */
  ghost predicate ChunkFor(tk: Tokenizer, sources: seq<Element>, span: Span, i: nat, chunk: Chunk) {
    var pieces := Pieces(sources);
    var ids := tk.encode(Join(BREAK, pieces));
    && span.lo <= span.hi <= |ids|
    && chunk.text == tk.decode(ids[span.lo..span.hi]) && chunk.index == i && chunk.tokens == tk.Count(chunk.text)
    && chunk.tableHtml == None
    && exists k: nat :: Owns(pieces, k, |tk.decode(ids[..span.lo])|) && chunk.page == sources[k].page && chunk.section == sources[k].section
  }

  ghost predicate Chunked(tk: Tokenizer, sources: seq<Element>, spans: seq<Span>, out: seq<Chunk>) {
    |out| == |spans| && forall i | 0 <= i < |out| :: ChunkFor(tk, sources, spans[i], i, out[i])
  }

  function SpansOf(tk: Tokenizer, target: int, overlap: int, elements: seq<Element>): seq<Span>
    requires overlap < target
  {
    var pieces := Pieces(Sources(elements));
    if Join(BREAK, pieces) == "" then [] else Spans(|tk.encode(Join(BREAK, pieces))|, 0, target, target - overlap)
  }

  lemma ChunkedAppend(tk: Tokenizer, sources: seq<Element>, spans: seq<Span>, out: seq<Chunk>, span: Span, chunk: Chunk)
    ensures Chunked(tk, sources, spans, out) && ChunkFor(tk, sources, span, |out|, chunk) ==>
              Chunked(tk, sources, spans + [span], out + [chunk])
  {
    hide ChunkFor;
  }

  lemma NextSpan(n: nat, start: nat, target: int, step: nat)
    requires step > 0
    ensures Spans(n, start, target, step)
            == if start >= n then []
               else [Span(start, SliceEnd(n, start, target))]
                    + if start + target >= n then [] else Spans(n, start + step, target, step)
  {}

  method ChunkElements(tk: Tokenizer, target: int, overlap: int, elements: seq<Element>) returns (out: seq<Chunk>)
    requires overlap < target
    ensures Chunked(tk, Sources(elements), SpansOf(tk, target, overlap, elements), out)
  {
    var pieces, starts, sources := BuildStream(elements);
    var text := Join(BREAK, pieces);
    out := [];
    if text == "" { return; }
    assert pieces != [];
    var ids, step := tk.encode(text), target - overlap;
    out := ChunkWindows(tk, target, step, pieces, starts, sources, ids);
  }

  method ChunkWindows(tk: Tokenizer, target: int, step: nat, pieces: seq<string>, starts: seq<nat>, sources: seq<Element>,
                      ids: seq<nat>) returns (out: seq<Chunk>)
    requires step > 0 && pieces == Pieces(sources) && pieces != [] && StartsAt(starts, pieces)
    requires ids == tk.encode(Join(BREAK, pieces))
    ensures Chunked(tk, sources, Spans(|ids|, 0, target, step), out)
  {
    hide Pieces, StartsAt, ChunkFor, Spans;
    out := [];
    var start := 0;
    ghost var spans, made := Spans(|ids|, 0, target, step), [];
    while start < |ids|
      invariant made + Spans(|ids|, start, target, step) == spans
      invariant Chunked(tk, sources, made, out)
    {
      hide Chunked;
      NextSpan(|ids|, start, target, step);
      var span := Span(start, SliceEnd(|ids|, start, target));
      var chunk := Attribute(tk, pieces, starts, sources, span, |out|);
      ChunkedAppend(tk, sources, made, out, span, chunk);
      out, made := out + [chunk], made + [span];
      if start + target >= |ids| { break; }
      start := start + step;
    }
    if start >= |ids| { NextSpan(|ids|, start, target, step); }
    assert made == spans;
  }

  method Attribute(tk: Tokenizer, pieces: seq<string>, starts: seq<nat>, sources: seq<Element>, span: Span, index: nat)
    returns (chunk: Chunk)
    requires pieces == Pieces(sources) && pieces != [] && span.lo <= span.hi <= |tk.encode(Join(BREAK, pieces))|
    requires StartsAt(starts, pieces)
    ensures ChunkFor(tk, sources, span, index, chunk)
  {
    var ids := tk.encode(Join(BREAK, pieces));
    var window, offset := tk.decode(ids[span.lo..span.hi]), |tk.decode(ids[..span.lo])|;
    forall i, j | 0 <= i < j < |starts| ensures starts[i] < starts[j] { AtIncreases(BREAK, pieces, i, j); }
    var last := AnchorAt(offset, starts);
    assert starts[0] == 0;
    var k := last.value;
    assert k + 1 < |pieces| ==> starts[k + 1] == Offset(pieces, k + 1);
    assert Owns(pieces, k, offset);
    chunk := Chunk(window, index, tk.Count(window), sources[k].page, sources[k].section, None);
  }

  /** The chunker's texts are the token windows the semantic chunker's backstop makes of the same stream. */
  lemma ChunkTextsAreWindows(tk: Tokenizer, target: int, overlap: int, elements: seq<Element>, out: seq<Chunk>, i: nat)
    requires overlap < target && Chunked(tk, Sources(elements), SpansOf(tk, target, overlap, elements), out) && i < |out|
    ensures var windows := Windows(tk.encode(Join(BREAK, Pieces(Sources(elements)))), target, target - overlap);
            |windows| == |out| && out[i].text == tk.decode(windows[i])
  {
    hide Sources, Pieces, Join, Spans, WindowsFrom;
    WindowsAreSpans(tk.encode(Join(BREAK, Pieces(Sources(elements)))), 0, target, target - overlap);
    assert ChunkFor(tk, Sources(elements), SpansOf(tk, target, overlap, elements)[i], i, out[i]);
  }

  // ---------------------------------------------------------------- windows cut between characters

  /** The window and what is before and behind it decode to the text's own parts. */
  ghost predicate CutsCleanly(tk: Tokenizer, text: string, span: Span) {
    var ids := tk.encode(text);
    && span.lo <= span.hi <= |ids|
    && tk.decode(ids[..span.lo]) + tk.decode(ids[span.lo..span.hi]) + tk.decode(ids[span.hi..]) == text
  }

  /**
   A chunk whose window is cut between characters is a slice of the stream, and its page and section are those of
   the element in which (or in the break behind which) the slice begins. Other windows do not matter.
   */
  lemma ChunksAreAttributedSlices(tk: Tokenizer, target: int, overlap: int, elements: seq<Element>, out: seq<Chunk>, i: nat)
    returns (k: nat, at: nat)
    requires overlap < target && Chunked(tk, Sources(elements), SpansOf(tk, target, overlap, elements), out) && i < |out|
    requires CutsCleanly(tk, Join(BREAK, Pieces(Sources(elements))), SpansOf(tk, target, overlap, elements)[i])
    ensures var sources := Sources(elements); var pieces := Pieces(sources); var text := Join(BREAK, pieces);
            && at + |out[i].text| <= |text| && out[i].text == text[at..at + |out[i].text|]
            && Owns(pieces, k, at) && out[i].page == sources[k].page && out[i].section == sources[k].section
            && Offset(pieces, k) + |pieces[k]| <= |text|
            && text[Offset(pieces, k)..Offset(pieces, k) + |pieces[k]|] == pieces[k]
  {
    hide Sources, Strip, Spans, Join, Offset;
    var sources := Sources(elements);
    var pieces := Pieces(sources);
    var text, span := Join(BREAK, pieces), SpansOf(tk, target, overlap, elements)[i];
    var ids := tk.encode(text);
    assert ChunkFor(tk, sources, span, i, out[i]);
    at := |tk.decode(ids[..span.lo])|;
    k :| Owns(pieces, k, at) && out[i].page == sources[k].page && out[i].section == sources[k].section;
    PieceStartsAtOffset(pieces, k);
  }

  /** The word tokenizer cuts every window cleanly. */
  lemma WordsCutCleanly(text: string, span: Span)
    requires span.lo <= span.hi <= |W.WORDS.encode(text)|
    ensures CutsCleanly(W.WORDS, text, span)
  {
    hide W.Encode, W.Decode;
    var ids := W.Encode(text);
    W.WordsRoundTrip(text);
    W.DecodeAppend(ids[..span.lo], ids[span.lo..span.hi]);
    W.DecodeAppend(ids[..span.lo] + ids[span.lo..span.hi], ids[span.hi..]);
    assert ids == ids[..span.lo] + ids[span.lo..span.hi] + ids[span.hi..];
  }
}
