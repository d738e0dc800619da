/** Splitting one oversized paragraph at sentence ends, with a carried overlap and a token-window backstop. */
module SentenceSplit {
  import opened Text
  import TokenWindows

  // ---------------------------------------------------------------- sentences: re.split at (?<=[.!?])\s+

  predicate Ends(c: char) { c == '.' || c == '!' || c == '?' }

  /** The first position at or after `from` where whitespace follows a sentence end, or the text's length. */
  function FirstBreak(s: string, from: nat): (i: nat)
    requires from <= |s|
    ensures from <= i <= |s|
    ensures i < |s| ==> i > 0 && Ends(s[i - 1]) && Space(s[i])
    decreases |s| - from
  {
    if from == |s| then |s|
    else if from > 0 && Ends(s[from - 1]) && Space(s[from]) then from
    else FirstBreak(s, from + 1)
  }

  function SkipSpace(s: string, from: nat): (j: nat)
    requires from <= |s|
    ensures from <= j <= |s|
    ensures j < |s| ==> !Space(s[j])
    ensures from < |s| && Space(s[from]) ==> from < j
    decreases |s| - from
  {
    if from < |s| && Space(s[from]) then SkipSpace(s, from + 1) else from
  }

  function Sentences(s: string): seq<string>
    decreases |s|
  {
    var i := FirstBreak(s, 0);
    if i == |s| then [s] else [s[..i]] + Sentences(s[SkipSpace(s, i)..])
  }

  function Kept(c: char): string {
    if Space(c) then "" else [c]
  }

  function NonSpace(s: string): string {
    if s == "" then "" else Kept(s[0]) + NonSpace(s[1..])
  }

  function Concat(parts: seq<string>): string {
    if parts == [] then "" else parts[0] + Concat(parts[1..])
  }

  lemma NonSpaceCons(c: char, s: string)
    ensures NonSpace([c] + s) == Kept(c) + NonSpace(s)
  {
    assert ([c] + s)[1..] == s;
  }

  lemma NonSpaceNothing()
    ensures NonSpace("") == ""
  {}

  lemma {:induction false} NonSpaceAppend(a: string, b: string)
    ensures NonSpace(a + b) == NonSpace(a) + NonSpace(b)
  {
    hide NonSpace, Kept;
    if a == "" {
      NonSpaceNothing();
      assert a + b == b && "" + NonSpace(b) == NonSpace(b);
    } else {
      var c, rest := a[0], a[1..];
      assert a == [c] + rest && a + b == [c] + (rest + b);
      NonSpaceAppend(rest, b);
      NonSpaceCons(c, rest);
      NonSpaceCons(c, rest + b);
      Associative(Kept(c), NonSpace(rest), NonSpace(b));
    }
  }

  lemma {:induction false} SkippedIsSpace(s: string, from: nat)
    requires from <= |s|
    ensures NonSpace(s[from..]) == NonSpace(s[SkipSpace(s, from)..])
    decreases |s| - from
  {
    if from < |s| && Space(s[from]) {
      SkippedIsSpace(s, from + 1);
      assert s[from..][1..] == s[from + 1..];
    }
  }

  /** Replacing the text behind a break by anything with the same non-space characters. */
  lemma KeepBehind(s: string, i: nat, rest: string)
    requires i <= |s| && NonSpace(rest) == NonSpace(s[SkipSpace(s, i)..])
    ensures NonSpace(s[..i] + rest) == NonSpace(s)
  {
    hide NonSpace, SkipSpace;
    NonSpaceAppend(s[..i], rest);
    SkippedIsSpace(s, i);
    NonSpaceAppend(s[..i], s[i..]);
    assert s[..i] + s[i..] == s;
  }

  /** Sentence splitting drops nothing but whitespace. */
  lemma {:induction false} SentencesKeepText(s: string)
    ensures NonSpace(Concat(Sentences(s))) == NonSpace(s)
    decreases |s|
  {
    hide NonSpace, Concat;
    var i := FirstBreak(s, 0);
    if i == |s| {
      ConcatOne(s);
    } else {
      var rest := Sentences(s[SkipSpace(s, i)..]);
      SentencesKeepText(s[SkipSpace(s, i)..]);
      ConcatCons(s[..i], rest);
      KeepBehind(s, i, Concat(rest));
    }
  }

  lemma ConcatOne(s: string)
    ensures Concat([s]) == s
  {
    ConcatCons(s, []);
    assert [s] + [] == [s] && s + "" == s;
  }

  lemma ConcatCons(s: string, rest: seq<string>)
    ensures Concat([s] + rest) == s + Concat(rest)
  {
    assert ([s] + rest)[1..] == rest;
  }

  /** The sentences of a stripped paragraph are stripped and non-empty. */
  lemma {:induction false} SentencesAreSolid(s: string)
    requires Solid(s)
    ensures AllSolid(Sentences(s))
    decreases |s|
  {
    var i := FirstBreak(s, 0);
    if i < |s| {
      var j := SkipSpace(s, i);
      if j == |s| {
        SkippedToEnd(s, i);
      }
      assert Solid(s[j..]);
      SentencesAreSolid(s[j..]);
      assert !Space(s[i - 1]);
    }
  }

  /** Whitespace right behind a sentence end. */
  predicate BreakAt(s: string, i: nat) {
    0 < i < |s| && s[i - 1] in ".!?" && Space(s[i])
  }

  lemma {:induction false} NoEarlierBreak(s: string, from: nat, k: nat)
    requires from <= |s| && from <= k < FirstBreak(s, from)
    ensures !BreakAt(s, k)
    decreases |s| - from
  {
    if from < k { NoEarlierBreak(s, from + 1, k); }
  }

  predicate Unbroken(s: string) {
    forall k: nat | k < |s| :: !BreakAt(s, k)
  }

  /** Cuts are made at every break and nowhere else: no sentence has one inside, and all but the last end in a sentence end. */
  lemma {:induction false} SentencesBreakExactly(s: string, k: nat)
    requires k < |Sentences(s)|
    ensures Unbroken(Sentences(s)[k])
    ensures k + 1 < |Sentences(s)| ==> Sentences(s)[k] != "" && Sentences(s)[k][|Sentences(s)[k]| - 1] in ".!?"
    decreases |s|
  {
    var i := FirstBreak(s, 0);
    forall j: nat | j < i ensures !BreakAt(s, j) && !BreakAt(s[..i], j) {
      NoEarlierBreak(s, 0, j);
      assert BreakAt(s[..i], j) ==> BreakAt(s, j);
    }
    if i == |s| {
      assert s[..i] == s;
    } else if k > 0 {
      SentencesBreakExactly(s[SkipSpace(s, i)..], k - 1);
    }
  }

  lemma {:induction false} SkippedToEnd(s: string, from: nat)
    requires from < |s| && SkipSpace(s, from) == |s|
    ensures Space(s[|s| - 1])
    decreases |s| - from
  {
    if from + 1 < |s| { SkippedToEnd(s, from + 1); }
  }

  // ---------------------------------------------------------------- the carried overlap

  /** Walking back from the end while the total stays within `budget`. */
  function OverlapTail(tk: Tokenizer, sentences: seq<string>, budget: int): seq<string> {
    if sentences == [] then []
    else
      var last := sentences[|sentences| - 1];
      if tk.Count(last) > budget then []
      else OverlapTail(tk, sentences[..|sentences| - 1], budget - tk.Count(last)) + [last]
  }

  method TakeOverlap(tk: Tokenizer, current: seq<string>, overlap: int) returns (tail: seq<string>, tailTokens: nat)
    ensures tail == OverlapTail(tk, current, overlap) && tailTokens == tk.Sum(tail)
  {
    tail, tailTokens := [], 0;
    var i := |current|;
    SumNil(tk);
    assert current[..i] == current;
    assert OverlapTail(tk, current, overlap) + [] == OverlapTail(tk, current, overlap);
    while i > 0
      invariant 0 <= i <= |current|
      invariant OverlapTail(tk, current, overlap) == OverlapTail(tk, current[..i], overlap - tailTokens) + tail
      invariant tailTokens == tk.Sum(tail)
    {
      var prev := current[i - 1];
      var tokens := tk.Count(prev);
      assert current[..i][..i - 1] == current[..i - 1];
      if tailTokens + tokens > overlap { return; }
      SumAppend(tk, [prev], tail);
      assert tk.Sum([prev]) == tokens by { assert [prev][..0] == []; }
      tail := [prev] + tail;
      tailTokens := tailTokens + tokens;
      i := i - 1;
    }
  }

  lemma SumNil(tk: Tokenizer)
    ensures tk.Sum([]) == 0
  {}

  lemma SumOne(tk: Tokenizer, sentence: string)
    ensures tk.Sum([sentence]) == tk.Count(sentence)
  {
    assert [sentence][..0] == [];
  }

  lemma SumSnoc(tk: Tokenizer, init: seq<string>, last: string)
    ensures tk.Sum(init + [last]) == tk.Sum(init) + tk.Count(last)
  {
    assert (init + [last])[..|init|] == init;
  }

  lemma SuffixSnoc(init: seq<string>, last: string, k: nat)
    requires k <= |init|
    ensures (init + [last])[k..] == init[k..] + [last]
  {}

  lemma {:induction false} OverlapEnds(tk: Tokenizer, sentences: seq<string>, budget: int)
    ensures var tail := OverlapTail(tk, sentences, budget);
            |tail| <= |sentences| && tail == sentences[|sentences| - |tail|..]
  {
    if sentences != [] {
      var init, last := sentences[..|sentences| - 1], sentences[|sentences| - 1];
      if tk.Count(last) <= budget {
        OverlapEnds(tk, init, budget - tk.Count(last));
        SuffixSnoc(init, last, |init| - |OverlapTail(tk, init, budget - tk.Count(last))|);
        assert sentences == init + [last];
      }
    }
  }

  lemma {:induction false} OverlapFits(tk: Tokenizer, sentences: seq<string>, budget: nat)
    ensures tk.Sum(OverlapTail(tk, sentences, budget)) <= budget
  {
    if sentences != [] {
      var init, last := sentences[..|sentences| - 1], sentences[|sentences| - 1];
      if tk.Count(last) <= budget {
        OverlapFits(tk, init, budget - tk.Count(last));
        SumSnoc(tk, OverlapTail(tk, init, budget - tk.Count(last)), last);
      }
    }
  }

  lemma {:induction false} OverlapIsSuffix(tk: Tokenizer, sentences: seq<string>, budget: int)
    ensures var tail := OverlapTail(tk, sentences, budget);
            && |tail| <= |sentences| && tail == sentences[|sentences| - |tail|..]
            && (budget >= 0 ==> tk.Sum(tail) <= budget)
  {
    hide OverlapTail;
    OverlapEnds(tk, sentences, budget);
    if budget >= 0 { OverlapFits(tk, sentences, budget); }
  }

  /** The carried overlap is the longest suffix of the flushed sentences whose tokens fit in the overlap. */
  lemma {:induction false} OverlapIsLongest(tk: Tokenizer, sentences: seq<string>, budget: nat, k: nat)
    requires k <= |sentences| && tk.Sum(sentences[k..]) <= budget
    ensures |sentences| - k <= |OverlapTail(tk, sentences, budget)|
  {
    if k < |sentences| {
      var init, last := sentences[..|sentences| - 1], sentences[|sentences| - 1];
      SuffixSnoc(init, last, k);
      assert sentences == init + [last];
      SumAppend(tk, init[k..], [last]);
      SumOne(tk, last);
      OverlapIsLongest(tk, init, budget - tk.Count(last), k);
    }
  }

  // ---------------------------------------------------------------- pieces

  /** A run of sentences, some carried over from the previous run, or one sentence cut into token windows. */
  datatype Piece =
    | SentenceRun(carried: seq<string>, added: seq<string>)
    | Oversized(sentence: string)

  /** `carried` and `added` together are the source's `current`. */
  datatype Split = Split(pieces: seq<Piece>, carried: seq<string>, added: seq<string>)

  datatype Config = Config(target: int, overlap: int)

  function Flush(tk: Tokenizer, cfg: Config, st: Split): Split {
    if st.carried + st.added == [] then st
    else Split(st.pieces + [SentenceRun(st.carried, st.added)], OverlapTail(tk, st.carried + st.added, cfg.overlap), [])
  }

  function Take(tk: Tokenizer, cfg: Config, st: Split, sentence: string): Split {
    if Strip(sentence) == "" then st
    else if tk.Count(sentence) > cfg.target then
      var flushed := Flush(tk, cfg, st);
      flushed.(pieces := flushed.pieces + [Oversized(sentence)])
    else
      var current := st.carried + st.added;
      var ready := if tk.Sum(current) + tk.Count(sentence) > cfg.target && current != [] then Flush(tk, cfg, st) else st;
      ready.(added := ready.added + [sentence])
  }

  function TakeAll(tk: Tokenizer, cfg: Config, sentences: seq<string>): Split {
    if sentences == [] then Split([], [], [])
    else Take(tk, cfg, TakeAll(tk, cfg, sentences[..|sentences| - 1]), sentences[|sentences| - 1])
  }

  function Pieces(tk: Tokenizer, cfg: Config, sentences: seq<string>): seq<Piece> {
    Flush(tk, cfg, TakeAll(tk, cfg, sentences)).pieces
  }

  function DecodeAll(tk: Tokenizer, windows: seq<seq<nat>>): seq<string> {
    if windows == [] then [] else DecodeAll(tk, windows[..|windows| - 1]) + [tk.decode(windows[|windows| - 1])]
  }

  function RenderPiece(tk: Tokenizer, cfg: Config, piece: Piece): seq<string>
    requires cfg.overlap < cfg.target
  {
    match piece
    case SentenceRun(carried, added) => [Strip(Join(" ", carried + added))]
    case Oversized(sentence) =>
      DecodeAll(tk, TokenWindows.Windows(tk.encode(sentence), cfg.target, cfg.target - cfg.overlap))
  }

  function Render(tk: Tokenizer, cfg: Config, pieces: seq<Piece>): seq<string>
    requires cfg.overlap < cfg.target
  {
    if pieces == [] then []
    else Render(tk, cfg, pieces[..|pieces| - 1]) + RenderPiece(tk, cfg, pieces[|pieces| - 1])
  }

  function NonEmpty(texts: seq<string>): seq<string> {
    if texts == [] then []
    else NonEmpty(texts[..|texts| - 1]) + if texts[|texts| - 1] != "" then [texts[|texts| - 1]] else []
  }

  /** What the splitter returns. */
  function SplitTexts(tk: Tokenizer, cfg: Config, text: string): seq<string>
    requires cfg.overlap < cfg.target
  {
    NonEmpty(Render(tk, cfg, Pieces(tk, cfg, Sentences(text))))
  }

  method WindowTexts(tk: Tokenizer, cfg: Config, sentence: string) returns (texts: seq<string>)
    requires cfg.overlap < cfg.target
    ensures texts == RenderPiece(tk, cfg, Oversized(sentence))
  {
    var windows := TokenWindows.TokenWindowSplit(tk.encode(sentence), cfg.target, cfg.overlap);
    texts := [];
    var i := 0;
    while i < |windows|
      invariant 0 <= i <= |windows|
      invariant texts == DecodeAll(tk, windows[..i])
    {
      assert windows[..i + 1][..i] == windows[..i];
      texts := texts + [tk.decode(windows[i])];
      i := i + 1;
    }
    assert windows[..i] == windows;
  }

  /** Loop state of `SplitLongText`, updated in place by the loop and by its flush. */
  class Splitter {
    const tk: Tokenizer
    const cfg: Config
    var chunks: seq<string>
    var current: seq<string>
    var currentTokens: nat

    ghost predicate Represents(st: Split)
      reads this
      requires cfg.overlap < cfg.target
    {
      && chunks == Render(tk, cfg, st.pieces)
      && current == st.carried + st.added
      && currentTokens == tk.Sum(current)
    }

    constructor (tk: Tokenizer, cfg: Config)
      requires cfg.overlap < cfg.target
      ensures this.tk == tk && this.cfg == cfg
      ensures Represents(Split([], [], []))
    {
      this.tk, this.cfg := tk, cfg;
      chunks, current, currentTokens := [], [], 0;
    }

    method FlushCurrent(ghost st: Split)
      requires cfg.overlap < cfg.target && Represents(st)
      modifies this
      ensures Represents(Flush(tk, cfg, st))
    {
      if current == [] { return; }
      ghost var run := SentenceRun(st.carried, st.added);
      assert (st.pieces + [run])[..|st.pieces|] == st.pieces;
      chunks := chunks + [Strip(Join(" ", current))];
      current, currentTokens := TakeOverlap(tk, current, cfg.overlap);
      assert current + [] == current;
    }

    method AppendWindows(sentence: string, ghost st: Split)
      requires cfg.overlap < cfg.target && Represents(st)
      modifies this`chunks
      ensures Represents(st.(pieces := st.pieces + [Oversized(sentence)]))
    {
      var windows := WindowTexts(tk, cfg, sentence);
      assert (st.pieces + [Oversized(sentence)])[..|st.pieces|] == st.pieces;
      chunks := chunks + windows;
    }

    method AppendSentence(sentence: string, tokens: nat, ghost st: Split)
      requires cfg.overlap < cfg.target && Represents(st) && tokens == tk.Count(sentence)
      modifies this`current, this`currentTokens
      ensures Represents(st.(added := st.added + [sentence]))
    {
      SumAppend(tk, current, [sentence]);
      SumOne(tk, sentence);
      assert st.carried + (st.added + [sentence]) == current + [sentence];
      current := current + [sentence];
      currentTokens := currentTokens + tokens;
    }

    method TakeSentence(sentence: string, ghost st: Split)
      requires cfg.overlap < cfg.target && Represents(st)
      modifies this
      ensures Represents(Take(tk, cfg, st, sentence))
    {
      if Strip(sentence) == "" { return; }
      var tokens := tk.Count(sentence);
      if tokens > cfg.target {
        FlushCurrent(st);
        AppendWindows(sentence, Flush(tk, cfg, st));
        return;
      }
      if currentTokens + tokens > cfg.target && current != [] {
        FlushCurrent(st);
        AppendSentence(sentence, tokens, Flush(tk, cfg, st));
      } else {
        AppendSentence(sentence, tokens, st);
      }
    }
  }

  method SplitLongText(tk: Tokenizer, cfg: Config, text: string) returns (out: seq<string>)
    requires cfg.overlap < cfg.target
    ensures out == SplitTexts(tk, cfg, text)
  {
    var sentences := Sentences(text);
    var splitter := new Splitter(tk, cfg);
    var i := 0;
    while i < |sentences|
      invariant 0 <= i <= |sentences|
      invariant splitter.tk == tk && splitter.cfg == cfg
      invariant splitter.Represents(TakeAll(tk, cfg, sentences[..i]))
    {
      splitter.TakeSentence(sentences[i], TakeAll(tk, cfg, sentences[..i]));
      assert sentences[..i + 1][..i] == sentences[..i];
      i := i + 1;
    }
    assert sentences[..i] == sentences;
    splitter.FlushCurrent(TakeAll(tk, cfg, sentences));
    out := DropEmpty(splitter.chunks);
  }

  method DropEmpty(chunks: seq<string>) returns (out: seq<string>)
    ensures out == NonEmpty(chunks)
  {
    out := [];
    var i := 0;
    while i < |chunks|
      invariant 0 <= i <= |chunks|
      invariant out == NonEmpty(chunks[..i])
    {
      assert chunks[..i + 1][..i] == chunks[..i];
      if chunks[i] != "" { out := out + [chunks[i]]; }
      i := i + 1;
    }
    assert chunks[..i] == chunks;
  }

  // ---------------------------------------------------------------- conservation

  /** The sentences a piece introduces: not the carried ones. */
  function Introduces(piece: Piece): seq<string> {
    match piece
    case SentenceRun(_, added) => added
    case Oversized(sentence) => [sentence]
  }

  function Sources(pieces: seq<Piece>): seq<string> {
    if pieces == [] then [] else Sources(pieces[..|pieces| - 1]) + Introduces(pieces[|pieces| - 1])
  }

  function NonBlank(sentences: seq<string>): seq<string> {
    if sentences == [] then []
    else NonBlank(sentences[..|sentences| - 1]) + if Strip(sentences[|sentences| - 1]) != "" then [sentences[|sentences| - 1]] else []
  }

  lemma SourcesAppend(pieces: seq<Piece>, piece: Piece)
    ensures Sources(pieces + [piece]) == Sources(pieces) + Introduces(piece)
  {
    assert (pieces + [piece])[..|pieces|] == pieces;
  }

  lemma FlushKeepsSources(tk: Tokenizer, cfg: Config, st: Split)
    ensures AllSources(Flush(tk, cfg, st)) == AllSources(st)
  {
    SourcesAppend(st.pieces, SentenceRun(st.carried, st.added));
  }

  function AllSources(st: Split): seq<string> {
    Sources(st.pieces) + st.added
  }

  lemma TakeAddsSource(tk: Tokenizer, cfg: Config, st: Split, sentence: string)
    ensures AllSources(Take(tk, cfg, st, sentence))
            == AllSources(st) + if Strip(sentence) != "" then [sentence] else []
  {
    FlushKeepsSources(tk, cfg, st);
    var flushed := Flush(tk, cfg, st);
    if Strip(sentence) != "" {
      if tk.Count(sentence) > cfg.target {
        assert flushed.added == [];
        SourcesAppend(flushed.pieces, Oversized(sentence));
      } else {
        AddSource(st, sentence);
        AddSource(flushed, sentence);
      }
    }
  }

  lemma AddSource(st: Split, sentence: string)
    ensures AllSources(st.(added := st.added + [sentence])) == AllSources(st) + [sentence]
  {}

  lemma {:induction false} TakeAllKeepsSources(tk: Tokenizer, cfg: Config, sentences: seq<string>)
    ensures AllSources(TakeAll(tk, cfg, sentences)) == NonBlank(sentences)
  {
    if sentences != [] {
      var init, last := sentences[..|sentences| - 1], sentences[|sentences| - 1];
      TakeAllKeepsSources(tk, cfg, init);
      TakeAddsSource(tk, cfg, TakeAll(tk, cfg, init), last);
    }
  }

  /** Every non-blank sentence is introduced by exactly one piece, and the pieces keep source order. */
  lemma EverySentenceOnceInOrder(tk: Tokenizer, cfg: Config, sentences: seq<string>)
    ensures Sources(Pieces(tk, cfg, sentences)) == NonBlank(sentences)
  {
    var st := TakeAll(tk, cfg, sentences);
    TakeAllKeepsSources(tk, cfg, sentences);
    FlushKeepsSources(tk, cfg, st);
    assert Flush(tk, cfg, st).added == [];
  }

  // ---------------------------------------------------------------- overlap chain and sizes

  /** The overlap in force after some pieces: the tail of the latest sentence run. */
  function CarryAfter(tk: Tokenizer, cfg: Config, pieces: seq<Piece>): seq<string> {
    if pieces == [] then []
    else match pieces[|pieces| - 1]
      case SentenceRun(carried, added) => OverlapTail(tk, carried + added, cfg.overlap)
      case Oversized(_) => CarryAfter(tk, cfg, pieces[..|pieces| - 1])
  }

  predicate RunOk(tk: Tokenizer, cfg: Config, pieces: seq<Piece>, k: nat)
    requires k < |pieces|
  {
    match pieces[k]
    case Oversized(sentence) => tk.Count(sentence) > cfg.target
    case SentenceRun(carried, added) =>
      && carried + added != []
      && carried == CarryAfter(tk, cfg, pieces[..k])
      && tk.Sum(carried) <= cfg.overlap
      && tk.Sum(carried + added) <= cfg.target + cfg.overlap
      && (added == [] ==> k > 0 && pieces[k - 1].Oversized?)
  }

  predicate PiecesOk(tk: Tokenizer, cfg: Config, pieces: seq<Piece>) {
    forall k | 0 <= k < |pieces| :: RunOk(tk, cfg, pieces, k)
  }

  predicate SplitOk(tk: Tokenizer, cfg: Config, st: Split) {
    && PiecesOk(tk, cfg, st.pieces)
    && st.carried == CarryAfter(tk, cfg, st.pieces)
    && tk.Sum(st.carried) <= cfg.overlap
    && tk.Sum(st.carried + st.added) <= cfg.target + cfg.overlap
    && (st.added == [] && st.pieces != [] ==> st.pieces[|st.pieces| - 1].Oversized?)
  }

  lemma AppendPiece(tk: Tokenizer, cfg: Config, pieces: seq<Piece>, piece: Piece)
    requires PiecesOk(tk, cfg, pieces)
    requires RunOk(tk, cfg, pieces + [piece], |pieces|)
    ensures PiecesOk(tk, cfg, pieces + [piece])
    ensures CarryAfter(tk, cfg, pieces + [piece])
            == if piece.Oversized? then CarryAfter(tk, cfg, pieces) else OverlapTail(tk, piece.carried + piece.added, cfg.overlap)
  {
    var all := pieces + [piece];
    assert all[..|pieces|] == pieces;
    forall k | 0 <= k < |all| ensures RunOk(tk, cfg, all, k) {
      if k < |pieces| {
        assert RunOk(tk, cfg, pieces, k);
        assert all[..k] == pieces[..k];
      }
    }
  }

  lemma FlushOk(tk: Tokenizer, cfg: Config, st: Split)
    requires cfg.overlap >= 0 && SplitOk(tk, cfg, st)
    ensures var st' := Flush(tk, cfg, st);
            && PiecesOk(tk, cfg, st'.pieces) && st'.added == []
            && st'.carried == CarryAfter(tk, cfg, st'.pieces) && tk.Sum(st'.carried) <= cfg.overlap
  {
    if st.carried + st.added != [] {
      var run := SentenceRun(st.carried, st.added);
      assert (st.pieces + [run])[..|st.pieces|] == st.pieces;
      AppendPiece(tk, cfg, st.pieces, run);
      OverlapIsSuffix(tk, st.carried + st.added, cfg.overlap);
    }
  }

  lemma TakeOversizedOk(tk: Tokenizer, cfg: Config, flushed: Split, sentence: string)
    requires cfg.target >= 0 && cfg.overlap >= 0 && tk.Count(sentence) > cfg.target
    requires PiecesOk(tk, cfg, flushed.pieces) && flushed.added == []
    requires flushed.carried == CarryAfter(tk, cfg, flushed.pieces) && tk.Sum(flushed.carried) <= cfg.overlap
    ensures SplitOk(tk, cfg, flushed.(pieces := flushed.pieces + [Oversized(sentence)]))
  {
    hide CarryAfter, PiecesOk;
    AppendPiece(tk, cfg, flushed.pieces, Oversized(sentence));
    assert flushed.carried + [] == flushed.carried;
  }

  lemma AddSentenceOk(tk: Tokenizer, cfg: Config, st: Split, sentence: string)
    requires cfg.overlap >= 0 && PiecesOk(tk, cfg, st.pieces)
    requires st.carried == CarryAfter(tk, cfg, st.pieces) && tk.Sum(st.carried) <= cfg.overlap
    requires tk.Sum(st.carried + st.added) + tk.Count(sentence) <= cfg.target + cfg.overlap
    ensures SplitOk(tk, cfg, st.(added := st.added + [sentence]))
  {
    hide CarryAfter, PiecesOk;
    SumOne(tk, sentence);
    SumAppend(tk, st.carried + st.added, [sentence]);
    assert st.carried + (st.added + [sentence]) == st.carried + st.added + [sentence];
  }

  lemma TakeOk(tk: Tokenizer, cfg: Config, st: Split, sentence: string)
    requires cfg.target >= 0 && cfg.overlap >= 0 && SplitOk(tk, cfg, st)
    ensures SplitOk(tk, cfg, Take(tk, cfg, st, sentence))
  {
    hide CarryAfter, PiecesOk, Strip;
    FlushOk(tk, cfg, st);
    var flushed, current := Flush(tk, cfg, st), st.carried + st.added;
    if Strip(sentence) == "" {
    } else if tk.Count(sentence) > cfg.target {
      TakeOversizedOk(tk, cfg, flushed, sentence);
    } else if tk.Sum(current) + tk.Count(sentence) > cfg.target && current != [] {
      assert flushed.carried + [] == flushed.carried;
      AddSentenceOk(tk, cfg, flushed, sentence);
    } else {
      SumNil(tk);
      AddSentenceOk(tk, cfg, st, sentence);
    }
  }

  lemma {:induction false} TakeAllOk(tk: Tokenizer, cfg: Config, sentences: seq<string>)
    requires cfg.target >= 0 && cfg.overlap >= 0
    ensures SplitOk(tk, cfg, TakeAll(tk, cfg, sentences))
  {
    if sentences != [] {
      TakeAllOk(tk, cfg, sentences[..|sentences| - 1]);
      TakeOk(tk, cfg, TakeAll(tk, cfg, sentences[..|sentences| - 1]), sentences[|sentences| - 1]);
    }
  }

  /**
   Every sentence run starts with the longest fitting tail of the run before it, is bounded by target plus
   overlap, and repeats only carried sentences at most right after an oversized sentence.
   */
  lemma RunsCarryTheOverlap(tk: Tokenizer, cfg: Config, sentences: seq<string>)
    requires cfg.target >= 0 && cfg.overlap >= 0
    ensures PiecesOk(tk, cfg, Pieces(tk, cfg, sentences))
  {
    TakeAllOk(tk, cfg, sentences);
    FlushOk(tk, cfg, TakeAll(tk, cfg, sentences));
  }

  // ---------------------------------------------------------------- token bound of the returned texts

  predicate Fit(tk: Tokenizer, limit: nat, texts: seq<string>) {
    forall i | 0 <= i < |texts| :: texts[i] != "" && tk.Count(texts[i]) <= limit
  }

  predicate SolidSplit(st: Split) {
    && AllSolid(st.carried) && AllSolid(st.added)
    && forall k | 0 <= k < |st.pieces| && st.pieces[k].SentenceRun? ::
         AllSolid(st.pieces[k].carried) && AllSolid(st.pieces[k].added)
  }

  lemma FlushSolid(tk: Tokenizer, cfg: Config, st: Split)
    requires SolidSplit(st)
    ensures SolidSplit(Flush(tk, cfg, st))
  {
    OverlapIsSuffix(tk, st.carried + st.added, cfg.overlap);
  }

  lemma {:induction false} TakeAllSolid(tk: Tokenizer, cfg: Config, sentences: seq<string>)
    requires AllSolid(sentences)
    ensures SolidSplit(TakeAll(tk, cfg, sentences))
  {
    if sentences != [] {
      var init := sentences[..|sentences| - 1];
      TakeAllSolid(tk, cfg, init);
      FlushSolid(tk, cfg, TakeAll(tk, cfg, init));
    }
  }

  lemma {:induction false} DecodeAllFit(tk: Tokenizer, windows: seq<seq<nat>>, limit: nat)
    requires tk.WindowsAreStable()
    requires forall i | 0 <= i < |windows| :: 0 < |windows[i]| <= limit
    ensures |DecodeAll(tk, windows)| == |windows| && Fit(tk, limit, DecodeAll(tk, windows))
  {
    if windows != [] { DecodeAllFit(tk, windows[..|windows| - 1], limit); }
  }

  lemma {:induction false} WindowSizes(ids: seq<nat>, start: nat, target: nat, step: nat)
    requires 0 < step && 0 < target
    ensures forall i | 0 <= i < |TokenWindows.WindowsFrom(ids, start, target, step)| ::
              0 < |TokenWindows.WindowsFrom(ids, start, target, step)[i]| <= target
    decreases if start < |ids| then |ids| - start else 0
  {
    if start < |ids| && start + target < |ids| {
      WindowSizes(ids, start + step, target, step);
      var rest := TokenWindows.WindowsFrom(ids, start + step, target, step);
      assert TokenWindows.Later(ids, start, target, step) == rest;
      assert TokenWindows.WindowsFrom(ids, start, target, step) == [ids[start..start + target]] + rest;
    }
  }

  lemma SentencesFit(tk: Tokenizer, limit: nat, sentences: seq<string>)
    requires tk.SentenceJoinIsFree() && AllSolid(sentences) && sentences != [] && tk.Sum(sentences) <= limit
    ensures Strip(Join(" ", sentences)) != "" && tk.Count(Strip(Join(" ", sentences))) <= limit
  {
    JoinSolid(" ", sentences);
    StripSolid(Join(" ", sentences));
    SentenceCount(tk, sentences);
  }

  lemma RunFits(tk: Tokenizer, cfg: Config, pieces: seq<Piece>, k: nat)
    requires 0 <= cfg.overlap < cfg.target && tk.SentenceJoinIsFree()
    requires k < |pieces| && pieces[k].SentenceRun? && RunOk(tk, cfg, pieces, k)
    requires AllSolid(pieces[k].carried) && AllSolid(pieces[k].added)
    ensures PieceFits(tk, cfg, pieces[k])
  {
    SentencesFit(tk, cfg.target + cfg.overlap, pieces[k].carried + pieces[k].added);
  }

  lemma SomeWindow(ids: seq<nat>, target: nat, step: nat)
    requires 0 < step && 0 < target && ids != []
    ensures var windows := TokenWindows.Windows(ids, target, step);
            windows != [] && forall i | 0 <= i < |windows| :: 0 < |windows[i]| <= target
  {
    WindowSizes(ids, 0, target, step);
  }

  lemma FitWider(tk: Tokenizer, limit: nat, wider: nat, texts: seq<string>)
    ensures Fit(tk, limit, texts) && limit <= wider ==> Fit(tk, wider, texts)
  {}

  lemma WindowsFit(tk: Tokenizer, cfg: Config, sentence: string)
    requires 0 <= cfg.overlap < cfg.target && tk.WindowsAreStable() && tk.Count(sentence) > cfg.target
    ensures PieceFits(tk, cfg, Oversized(sentence))
  {
    hide TokenWindows.Windows, DecodeAll, Fit;
    var windows := TokenWindows.Windows(tk.encode(sentence), cfg.target, cfg.target - cfg.overlap);
    SomeWindow(tk.encode(sentence), cfg.target, cfg.target - cfg.overlap);
    DecodeAllFit(tk, windows, cfg.target);
    FitWider(tk, cfg.target, cfg.target + cfg.overlap, DecodeAll(tk, windows));
  }

  predicate PieceFits(tk: Tokenizer, cfg: Config, piece: Piece)
    requires 0 <= cfg.overlap < cfg.target
  {
    RenderPiece(tk, cfg, piece) != [] && Fit(tk, cfg.target + cfg.overlap, RenderPiece(tk, cfg, piece))
  }

  lemma {:induction false} RenderFits(tk: Tokenizer, cfg: Config, pieces: seq<Piece>)
    requires cfg.overlap < cfg.target && 0 <= cfg.overlap
    requires forall k | 0 <= k < |pieces| :: PieceFits(tk, cfg, pieces[k])
    ensures Fit(tk, cfg.target + cfg.overlap, Render(tk, cfg, pieces)) && (pieces != [] ==> Render(tk, cfg, pieces) != [])
  {
    if pieces != [] { RenderFits(tk, cfg, pieces[..|pieces| - 1]); }
  }

  lemma {:induction false} NonEmptyAppend(a: seq<string>, b: seq<string>)
    ensures NonEmpty(a + b) == NonEmpty(a) + NonEmpty(b)
  {
    if b == [] {
      assert a + b == a;
    } else {
      var init := b[..|b| - 1];
      NonEmptyAppend(a, init);
      assert (a + b)[..|a + b| - 1] == a + init;
    }
  }

  lemma {:induction false} NothingFiltered(tk: Tokenizer, limit: nat, texts: seq<string>)
    requires Fit(tk, limit, texts)
    ensures NonEmpty(texts) == texts
  {
    if texts != [] { NothingFiltered(tk, limit, texts[..|texts| - 1]); }
  }

  lemma {:induction false} SolidNonBlank(sentences: seq<string>)
    requires AllSolid(sentences)
    ensures NonBlank(sentences) == sentences
  {
    hide Strip, Solid;
    if sentences != [] {
      var init, last := sentences[..|sentences| - 1], sentences[|sentences| - 1];
      assert Strip(last) != "" by { StripSolid(last); }
      SolidNonBlank(init);
      assert init + [last] == sentences;
    }
  }

  /** A paragraph splits into one text or more, each non-empty and within target plus overlap tokens. */
  lemma SplitTextsFit(tk: Tokenizer, cfg: Config, text: string)
    requires 0 <= cfg.overlap < cfg.target && tk.SentenceJoinIsFree() && tk.WindowsAreStable()
    requires Solid(text)
    ensures SplitTexts(tk, cfg, text) != []
    ensures Fit(tk, cfg.target + cfg.overlap, SplitTexts(tk, cfg, text))
  {
    var sentences := Sentences(text);
    SentencesAreSolid(text);
    TakeAllSolid(tk, cfg, sentences);
    FlushSolid(tk, cfg, TakeAll(tk, cfg, sentences));
    RunsCarryTheOverlap(tk, cfg, sentences);
    var st := Flush(tk, cfg, TakeAll(tk, cfg, sentences));
    forall k | 0 <= k < |st.pieces|
      ensures PieceFits(tk, cfg, st.pieces[k])
    {
      assert RunOk(tk, cfg, st.pieces, k);
      if st.pieces[k].Oversized? { WindowsFit(tk, cfg, st.pieces[k].sentence); } else { RunFits(tk, cfg, st.pieces, k); }
    }
    RenderFits(tk, cfg, st.pieces);
    NothingFiltered(tk, cfg.target + cfg.overlap, Render(tk, cfg, st.pieces));
    EverySentenceOnceInOrder(tk, cfg, sentences);
    SolidNonBlank(sentences);
  }
}
