/** The structure-aware chunker: tables stand alone, headings open sections, the rest fills a token budget. */
module StructureAware {
  import opened Options
  import opened Text
  import opened Elements

  /** `table_html or text`. */
  function Body(e: Element): string {
    if e.tableHtml.Some? && e.tableHtml.value != "" then e.tableHtml.value else e.text
  }

  predicate IsHeading(e: Element) { e.IsChunkable() && (e.kind.Title? || e.kind.Heading?) }
  predicate IsContent(e: Element) { e.IsChunkable() && !e.kind.Title? && !e.kind.Heading? }

  // ---------------------------------------------------------------- what the elements say

  function Headings(elements: seq<Element>): nat {
    if elements == [] then 0
    else Headings(elements[..|elements| - 1]) + if IsHeading(elements[|elements| - 1]) then 1 else 0
  }

  function LatestHeading(elements: seq<Element>): Option<string> {
    if elements == [] then None
    else if IsHeading(elements[|elements| - 1]) then Some(Strip(elements[|elements| - 1].text))
    else LatestHeading(elements[..|elements| - 1])
  }

  /** A content element with the number and the text of the latest heading before it. */
  datatype Tagged = Tagged(element: Element, heading: nat, section: Option<string>)

  function Contents(elements: seq<Element>): seq<Tagged> {
    if elements == [] then []
    else
      var init, e := elements[..|elements| - 1], elements[|elements| - 1];
      Contents(init) + if IsContent(e) then [Tagged(e, Headings(init), LatestHeading(init))] else []
  }

  // ---------------------------------------------------------------- groups

  /** The elements of one chunk, under one heading. */
  datatype Group = Group(elements: seq<Element>, heading: nat, section: Option<string>)
  {
    function Tags(): seq<Tagged> {
      seq(|elements|, i requires 0 <= i < |elements| => Tagged(elements[i], heading, section))
    }
    predicate IsTable() { |elements| == 1 && elements[0].kind.Table? }
  }

  function Tokens(tk: Tokenizer, elements: seq<Element>): nat {
    if elements == [] then 0 else Tokens(tk, elements[..|elements| - 1]) + tk.Count(Body(elements[|elements| - 1]))
  }

  function Flat(groups: seq<Group>): seq<Tagged> {
    if groups == [] then [] else Flat(groups[..|groups| - 1]) + groups[|groups| - 1].Tags()
  }

  predicate GroupOk(tk: Tokenizer, target: int, g: Group) {
    && g.elements != []
    && (forall i | 0 <= i < |g.elements| :: g.elements[i].kind.Table? ==> |g.elements| == 1)
    && (|g.elements| > 1 ==> Tokens(tk, g.elements) <= target)
  }

  predicate Whole(groups: seq<Group>) {
    forall i | 0 <= i < |groups| :: groups[i].elements != []
  }

  /** Why two neighbours are not one group: a table, a heading, or no room for the next element. */
  predicate MustSplit(tk: Tokenizer, target: int, g: Group, next: Group) {
    || g.IsTable() || next.IsTable() || g.heading < next.heading
    || (next.elements != [] && Tokens(tk, g.elements) + tk.Count(Body(next.elements[0])) > target)
  }

  ghost predicate Grouped(tk: Tokenizer, target: int, groups: seq<Group>) {
    && (forall i | 0 <= i < |groups| :: GroupOk(tk, target, groups[i]))
    && (forall i | 0 < i < |groups| :: MustSplit(tk, target, groups[i - 1], groups[i]))
  }

  /** In order, nothing lost or repeated; tables alone; within budget; and no split without a reason. */
  ghost predicate Partitions(tk: Tokenizer, target: int, elements: seq<Element>, groups: seq<Group>) {
    Flat(groups) == Contents(elements) && Grouped(tk, target, groups)
  }

  /** The groups so far; when `filling`, the last one is still the buffer. */
  datatype Draft = Draft(groups: seq<Group>, filling: bool, heading: nat, section: Option<string>)
  {
    function Last(): Group requires groups != [] { groups[|groups| - 1] }
    function Init(): seq<Group> requires groups != [] { groups[..|groups| - 1] }
  }

  function Start(d: Draft, e: Element, filling: bool): Draft {
    d.(groups := d.groups + [Group([e], d.heading, d.section)], filling := filling)
  }

  function Take(tk: Tokenizer, target: int, d: Draft, e: Element): Draft {
    if !e.IsChunkable() then d
    else if IsHeading(e) then Draft(d.groups, false, d.heading + 1, Some(Strip(e.text)))
    else if e.kind.Table? then Start(d, e, false)
    else if d.filling && d.groups != [] && Tokens(tk, d.Last().elements) + tk.Count(Body(e)) <= target then
      d.(groups := d.Init() + [d.Last().(elements := d.Last().elements + [e])])
    else Start(d, e, true)
  }

  function TakeAll(tk: Tokenizer, target: int, elements: seq<Element>): Draft {
    if elements == [] then Draft([], false, 0, None)
    else Take(tk, target, TakeAll(tk, target, elements[..|elements| - 1]), elements[|elements| - 1])
  }

  /** The groups the chunker forms. */
  function Groups(tk: Tokenizer, target: int, elements: seq<Element>): seq<Group> {
    TakeAll(tk, target, elements).groups
  }

  lemma TokensAppend(tk: Tokenizer, elements: seq<Element>, e: Element)
    ensures Tokens(tk, elements + [e]) == Tokens(tk, elements) + tk.Count(Body(e))
  {
    assert (elements + [e])[..|elements|] == elements;
  }

  lemma FlatAppend(groups: seq<Group>, g: Group)
    ensures Flat(groups + [g]) == Flat(groups) + g.Tags()
  {
    assert (groups + [g])[..|groups|] == groups;
  }

  ghost predicate DraftOk(tk: Tokenizer, target: int, d: Draft, elements: seq<Element>) {
    && Partitions(tk, target, elements, d.groups)
    && d.heading == Headings(elements) && d.section == LatestHeading(elements)
    && (d.filling ==> d.groups != [] && d.Last().heading == d.heading && d.Last().section == d.section && !d.Last().IsTable())
    && (!d.filling && d.groups != [] ==> d.Last().IsTable() || d.Last().heading < d.heading)
    && (d.groups != [] ==> d.Last().heading <= d.heading)
  }

  lemma GroupedAppend(tk: Tokenizer, target: int, groups: seq<Group>, g: Group)
    requires Grouped(tk, target, groups) && GroupOk(tk, target, g)
    requires groups != [] ==> MustSplit(tk, target, groups[|groups| - 1], g)
    ensures Grouped(tk, target, groups + [g])
  {
    hide GroupOk, MustSplit;
  }

  /** A new group, either because the last one is closed or because the element does not fit. */
  lemma StartOk(tk: Tokenizer, target: int, d: Draft, elements: seq<Element>, e: Element)
    requires DraftOk(tk, target, d, elements) && IsContent(e)
    requires d.filling && !e.kind.Table? ==> Tokens(tk, d.Last().elements) + tk.Count(Body(e)) > target
    ensures DraftOk(tk, target, Start(d, e, !e.kind.Table?), elements + [e])
  {
    var g := Group([e], d.heading, d.section);
    assert (elements + [e])[..|elements|] == elements;
    FlatAppend(d.groups, g);
    assert g.Tags() == [Tagged(e, d.heading, d.section)];
    hide Flat, Tokens, Headings, LatestHeading, Element.IsChunkable, Grouped;
    if d.groups != [] { assert MustSplit(tk, target, d.Last(), g); }
    assert GroupOk(tk, target, g);
    GroupedAppend(tk, target, d.groups, g);
  }

  /** A group with room takes one more element of its section. */
  lemma GrownGroup(tk: Tokenizer, target: int, g: Group, e: Element)
    requires GroupOk(tk, target, g) && !g.IsTable() && !e.kind.Table? && Tokens(tk, g.elements) + tk.Count(Body(e)) <= target
    ensures var grown := g.(elements := g.elements + [e]);
            && GroupOk(tk, target, grown) && !grown.IsTable() && grown.elements[0] == g.elements[0]
            && grown.Tags() == g.Tags() + [Tagged(e, g.heading, g.section)]
  {
    TokensAppend(tk, g.elements, e);
    hide Tokens;
  }

  lemma ReplaceLast(tk: Tokenizer, target: int, groups: seq<Group>, g: Group)
    requires groups != [] && Grouped(tk, target, groups) && GroupOk(tk, target, g) && !groups[|groups| - 1].IsTable()
    requires g.elements[0] == groups[|groups| - 1].elements[0] && g.heading == groups[|groups| - 1].heading
    ensures Grouped(tk, target, groups[..|groups| - 1] + [g])
  {
    assert g.elements != [];
    hide Tokens, GroupOk;
    var groups' := groups[..|groups| - 1] + [g];
    forall i | 0 < i < |groups'| ensures MustSplit(tk, target, groups'[i - 1], groups'[i]) {
      assert MustSplit(tk, target, groups[i - 1], groups[i]);
      assert GroupOk(tk, target, groups[i]);
    }
  }

  lemma FillOk(tk: Tokenizer, target: int, d: Draft, elements: seq<Element>, e: Element)
    requires DraftOk(tk, target, d, elements) && IsContent(e) && !e.kind.Table? && d.filling
    requires Tokens(tk, d.Last().elements) + tk.Count(Body(e)) <= target
    ensures DraftOk(tk, target, d.(groups := d.Init() + [d.Last().(elements := d.Last().elements + [e])]), elements + [e])
  {
    var was, g := d.Last(), d.Last().(elements := d.Last().elements + [e]);
    assert GroupOk(tk, target, was);
    GrownGroup(tk, target, was, e);
    ReplaceLast(tk, target, d.groups, g);
    assert (elements + [e])[..|elements|] == elements;
    FlatAppend(d.Init(), g);
    FlatAppend(d.Init(), was);
    assert d.groups == d.Init() + [was];
    hide Flat, Grouped, Tokens, GroupOk, Group.Tags, Body;
  }

  lemma SkipOk(tk: Tokenizer, target: int, d: Draft, elements: seq<Element>, e: Element)
    requires DraftOk(tk, target, d, elements) && !IsContent(e)
    ensures DraftOk(tk, target, Take(tk, target, d, e), elements + [e])
  {
    assert (elements + [e])[..|elements|] == elements;
  }

  /** The chunker's groups partition the content, whatever the tokenizer and the target. */
  lemma {:induction false} GroupsPartition(tk: Tokenizer, target: int, elements: seq<Element>)
    ensures DraftOk(tk, target, TakeAll(tk, target, elements), elements)
  {
    if elements != [] {
      var init, e := elements[..|elements| - 1], elements[|elements| - 1];
      GroupsPartition(tk, target, init);
      var d := TakeAll(tk, target, init);
      assert elements == init + [e];
      hide DraftOk, Tokens;
      if !IsContent(e) { SkipOk(tk, target, d, init, e); }
      else if e.kind.Table? { StartOk(tk, target, d, init, e); }
      else if d.filling && d.groups != [] && Tokens(tk, d.Last().elements) + tk.Count(Body(e)) <= target {
        FillOk(tk, target, d, init, e);
      } else { StartOk(tk, target, d, init, e); }
    }
  }

  // ---------------------------------------------------------------- and there is only one partition

  lemma {:induction false} FlatCons(g: Group, rest: seq<Group>)
    ensures Flat([g] + rest) == g.Tags() + Flat(rest)
  {
    if rest == [] {
      assert [g] + rest == [] + [g];
      FlatAppend([], g);
    } else {
      var init, last := rest[..|rest| - 1], rest[|rest| - 1];
      FlatCons(g, init);
      assert [g] + rest == ([g] + init) + [last] && rest == init + [last];
      FlatAppend([g] + init, last);
      FlatAppend(init, last);
    }
  }

  lemma {:induction false} TokensGrow(tk: Tokenizer, elements: seq<Element>, n: nat)
    requires n <= |elements|
    ensures Tokens(tk, elements[..n]) <= Tokens(tk, elements)
  {
    if n == |elements| {
      assert elements[..n] == elements;
    } else {
      TokensGrow(tk, elements[..|elements| - 1], n);
      assert elements[..|elements| - 1][..n] == elements[..n];
    }
  }

  /** The tags of a first group, and the first tag behind it. */
  lemma HeadTags(g: Group, rest: seq<Group>)
    ensures |Flat([g] + rest)| == |g.elements| + |Flat(rest)|
    ensures forall i | 0 <= i < |g.elements| :: Flat([g] + rest)[i] == Tagged(g.elements[i], g.heading, g.section)
  {
    FlatCons(g, rest);
  }

  lemma NextTag(g: Group, rest: seq<Group>)
    requires rest != [] && rest[0].elements != []
    ensures |Flat([g] + rest)| > |g.elements|
    ensures Flat([g] + rest)[|g.elements|] == Tagged(rest[0].elements[0], rest[0].heading, rest[0].section)
  {
    FlatCons(g, rest);
    assert rest == [rest[0]] + rest[1..];
    HeadTags(rest[0], rest[1..]);
  }

  /** A group with room for an element of its own section could take it. */
  lemma PrefixCouldGrow(tk: Tokenizer, target: int, g: Group, next: Group, g': Group)
    requires GroupOk(tk, target, g') && 0 < |g.elements| < |g'.elements| && next.elements != []
    requires g.elements == g'.elements[..|g.elements|] && next.elements[0] == g'.elements[|g.elements|]
    requires g.heading == next.heading
    ensures !MustSplit(tk, target, g, next)
  {
    var n := |g.elements|;
    assert g'.elements[..n + 1] == g.elements + [next.elements[0]];
    TokensAppend(tk, g.elements, next.elements[0]);
    TokensGrow(tk, g'.elements, n + 1);
    assert !g'.elements[0].kind.Table? && !g'.elements[n].kind.Table?;
    hide Tokens;
  }

  /** If one partition's first group is a proper part of the other's, nothing forced it to end there. */
  lemma {:induction false} ShorterCouldGrow(tk: Tokenizer, target: int, g: Group, rest: seq<Group>, g': Group, rest': seq<Group>)
    requires g.elements != [] && Whole(rest) && GroupOk(tk, target, g')
    requires Flat([g] + rest) == Flat([g'] + rest') && |g.elements| < |g'.elements|
    ensures rest != [] && !MustSplit(tk, target, g, rest[0])
  {
    assert Flat([]) == [];
    hide Flat, MustSplit, GroupOk;
    var n := |g.elements|;
    HeadTags(g, rest);
    HeadTags(g', rest');
    assert rest != [];
    NextTag(g, rest);
    assert Flat([g] + rest)[n] == Tagged(g'.elements[n], g'.heading, g'.section);
    forall i | 0 <= i < n ensures g.elements[i] == g'.elements[i] && g.heading == g'.heading {
      assert Flat([g] + rest)[i] == Tagged(g.elements[i], g.heading, g.section);
    }
    assert g.elements[0] == g'.elements[0];
    PrefixCouldGrow(tk, target, g, rest[0], g');
  }

  lemma SplitsHere(tk: Tokenizer, target: int, groups: seq<Group>)
    ensures Grouped(tk, target, groups) && |groups| > 1 ==> MustSplit(tk, target, groups[0], groups[1])
  {
    var i := 1;
    assert Grouped(tk, target, groups) && |groups| > 1 ==> MustSplit(tk, target, groups[i - 1], groups[i]);
  }

  lemma GroupedTail(tk: Tokenizer, target: int, groups: seq<Group>)
    requires Grouped(tk, target, groups) && groups != []
    ensures Grouped(tk, target, groups[1..]) && GroupOk(tk, target, groups[0]) && Whole(groups)
    ensures groups == [groups[0]] + groups[1..]
  {
    hide MustSplit, Tokens;
    var tail := groups[1..];
    forall i | 0 < i < |tail| ensures MustSplit(tk, target, tail[i - 1], tail[i]) {
      var j := i + 1;
      assert MustSplit(tk, target, groups[j - 1], groups[j]);
    }
    forall i | 0 <= i < |groups| ensures groups[i].elements != [] { assert GroupOk(tk, target, groups[i]); }
  }

  lemma FirstNotShorter(tk: Tokenizer, target: int, groups: seq<Group>, groups': seq<Group>)
    requires Grouped(tk, target, groups) && Grouped(tk, target, groups') && Flat(groups) == Flat(groups')
    requires groups != [] && groups' != []
    ensures |groups[0].elements| >= |groups'[0].elements|
  {
    GroupedTail(tk, target, groups);
    GroupedTail(tk, target, groups');
    SplitsHere(tk, target, groups);
    hide Grouped, MustSplit, Flat, Tokens;
    if |groups[0].elements| < |groups'[0].elements| {
      ShorterCouldGrow(tk, target, groups[0], groups[1..], groups'[0], groups'[1..]);
    }
  }

  /** Any two partitions are equal: the chunker's is the only one. */
  lemma {:induction false} PartitionIsDetermined(tk: Tokenizer, target: int, groups: seq<Group>, groups': seq<Group>)
    requires Grouped(tk, target, groups) && Grouped(tk, target, groups') && Flat(groups) == Flat(groups')
    ensures groups == groups'
    decreases |groups|
  {
    if groups == [] || groups' == [] {
      NonEmptyFlat(tk, target, groups);
      NonEmptyFlat(tk, target, groups');
    } else {
      FirstNotShorter(tk, target, groups, groups');
      FirstNotShorter(tk, target, groups', groups);
      GroupedTail(tk, target, groups);
      GroupedTail(tk, target, groups');
      FlatCons(groups[0], groups[1..]);
      FlatCons(groups'[0], groups'[1..]);
      SameTags(groups[0], groups'[0], Flat(groups[1..]), Flat(groups'[1..]));
      PartitionIsDetermined(tk, target, groups[1..], groups'[1..]);
    }
  }

  lemma NonEmptyFlat(tk: Tokenizer, target: int, groups: seq<Group>)
    requires Grouped(tk, target, groups)
    ensures groups != [] ==> Flat(groups) != []
  {
    if groups != [] {
      GroupedTail(tk, target, groups);
      FlatCons(groups[0], groups[1..]);
    }
  }

  lemma SameTags(g: Group, g': Group, rest: seq<Tagged>, rest': seq<Tagged>)
    requires |g.elements| == |g'.elements| > 0 && g.Tags() + rest == g'.Tags() + rest'
    ensures g == g' && rest == rest'
  {
    var n := |g.elements|;
    assert g.Tags() == (g.Tags() + rest)[..n] == g'.Tags();
    assert rest == (g.Tags() + rest)[n..] == rest';
    forall i | 0 <= i < n ensures g.elements[i] == g'.elements[i] {
      assert g.Tags()[i] == g'.Tags()[i];
    }
    assert g.Tags()[0] == g'.Tags()[0];
  }

  // ---------------------------------------------------------------- chunks

  function Bodies(elements: seq<Element>): seq<string> {
    seq(|elements|, i requires 0 <= i < |elements| => Body(elements[i]))
  }

  function TextOf(elements: seq<Element>): string {
    Strip(Join("\n\n", Bodies(elements)))
  }

  /** The first element anchors the page; the active section wins over its own. */
  function ChunkOf(tk: Tokenizer, elements: seq<Element>, section: Option<string>, index: nat): Chunk
    requires elements != []
  {
    var anchor, text := elements[0], TextOf(elements);
    Chunk(text, index, tk.Count(text), anchor.page,
          if section.Some? && section.value != "" then section else anchor.section,
          if |elements| == 1 then anchor.tableHtml else None)
  }

  /** One chunk per group with any text, numbered in order. */
  function Render(tk: Tokenizer, groups: seq<Group>): seq<Chunk>
    requires Whole(groups)
  {
    if groups == [] then []
    else
      var out, g := Render(tk, groups[..|groups| - 1]), groups[|groups| - 1];
      if TextOf(g.elements) == "" then out else out + [ChunkOf(tk, g.elements, g.section, |out|)]
  }

  lemma RenderAppend(tk: Tokenizer, groups: seq<Group>, g: Group)
    requires Whole(groups) && g.elements != []
    ensures Render(tk, groups + [g])
            == if TextOf(g.elements) == "" then Render(tk, groups)
               else Render(tk, groups) + [ChunkOf(tk, g.elements, g.section, |Render(tk, groups)|)]
  {
    assert (groups + [g])[..|groups|] == groups;
  }

  lemma {:induction false} JoinBlank(parts: seq<string>)
    ensures AllSpace(Join("\n\n", parts)) <==> forall i | 0 <= i < |parts| :: AllSpace(parts[i])
  {
    if |parts| > 1 {
      var init, last := parts[..|parts| - 1], parts[|parts| - 1];
      JoinBlank(init);
      AllSpaceAppend(Join("\n\n", init), "\n\n");
      AllSpaceAppend(Join("\n\n", init) + "\n\n", last);
      hide AllSpace;
      assert forall i | 0 <= i < |init| :: parts[i] == init[i];
    }
  }

  lemma AllSpaceAppend(a: string, b: string)
    ensures AllSpace(a + b) <==> AllSpace(a) && AllSpace(b)
  {
    assert forall i | 0 <= i < |b| :: (a + b)[|a| + i] == b[i];
    assert forall i | 0 <= i < |a| :: (a + b)[i] == a[i];
  }

  /** Markup that is present but blank hides the element's own text. */
  predicate BlankMarkup(e: Element) {
    e.tableHtml.Some? && e.tableHtml.value != "" && AllSpace(e.tableHtml.value)
  }

  /** A group leaves no chunk exactly when every element carries blank markup. */
  lemma DroppedIffBlankMarkup(elements: seq<Element>)
    requires forall i | 0 <= i < |elements| :: elements[i].IsChunkable()
    ensures TextOf(elements) == "" <==> forall i | 0 <= i < |elements| :: BlankMarkup(elements[i])
  {
    hide Strip;
    StripBlank(Join("\n\n", Bodies(elements)));
    JoinBlank(Bodies(elements));
    forall i | 0 <= i < |elements| ensures AllSpace(Bodies(elements)[i]) <==> BlankMarkup(elements[i]) {
      StripBlank(elements[i].text);
    }
  }

  // ---------------------------------------------------------------- the chunker

  class Chunker {
    const tk: Tokenizer
    const target: int
    var out: seq<Chunk>
    var buffer: seq<Element>
    var bufferTokens: nat
    var section: Option<string>

    constructor (tk: Tokenizer, target: int)
      ensures this.tk == tk && this.target == target && Represents(Draft([], false, 0, None))
    {
      this.tk, this.target := tk, target;
      out, buffer, bufferTokens, section := [], [], 0, None;
    }

    ghost predicate Represents(d: Draft) reads this {
      && Whole(d.groups) && section == d.section && bufferTokens == Tokens(tk, buffer)
      && if d.filling then
           && d.groups != [] && d.Last().section == d.section && buffer == d.Last().elements
           && out == Render(tk, d.Init())
         else buffer == [] && out == Render(tk, d.groups)
    }

    method Emit(ghost d: Draft)
      requires Represents(d)
      modifies this`out, this`buffer, this`bufferTokens
      ensures Represents(d.(filling := false))
    {
      if buffer == [] { return; }
      assert Tokens(tk, []) == 0;
      RenderAppend(tk, d.Init(), d.Last());
      hide TextOf, ChunkOf, Tokens, Render;
      assert d.groups == d.Init() + [d.Last()];
      if TextOf(buffer) != "" {
        out := out + [ChunkOf(tk, buffer, section, |out|)];
      }
      buffer, bufferTokens := [], 0;
    }

    /** An element into an empty buffer. */
    method Begin(e: Element, tokens: nat, ghost d: Draft)
      requires Represents(d) && !d.filling && tokens == tk.Count(Body(e))
      modifies this`buffer, this`bufferTokens
      ensures Represents(Start(d, e, true))
    {
      buffer, bufferTokens := [e], tokens;
      assert Start(d, e, true).Init() == d.groups;
      TokensAppend(tk, [], e);
      assert [] + [e] == [e];
    }

    method TakeElement(e: Element, ghost d: Draft)
      requires Represents(d)
      modifies this
      ensures Represents(Take(tk, target, d, e))
    {
      hide Strip, Tokens, Render, Element.IsChunkable, Body;
      if !e.IsChunkable() { return; }
      if e.kind.Title? || e.kind.Heading? {
        Emit(d);
        section := Some(Strip(e.text));
        return;
      }
      var tokens := tk.Count(Body(e));
      ghost var closed := d.(filling := false);
      if e.kind.Table? {
        Emit(d);
        Begin(e, tokens, closed);
        Emit(Start(closed, e, true));
      } else if bufferTokens + tokens > target && buffer != [] {
        Emit(d);
        Begin(e, tokens, closed);
      } else if buffer == [] {
        Begin(e, tokens, closed);
      } else {
        TokensAppend(tk, buffer, e);
        buffer, bufferTokens := buffer + [e], bufferTokens + tokens;
        assert Take(tk, target, d, e).Init() == d.Init();
      }
    }
  }

  method ChunkElements(tk: Tokenizer, target: int, elements: seq<Element>) returns (out: seq<Chunk>)
    ensures Partitions(tk, target, elements, Groups(tk, target, elements))
    ensures Whole(Groups(tk, target, elements)) && out == Render(tk, Groups(tk, target, elements))
  {
    var chunker := new Chunker(tk, target);
    var i := 0;
    while i < |elements|
      invariant 0 <= i <= |elements|
      invariant chunker.tk == tk && chunker.target == target
      invariant chunker.Represents(TakeAll(tk, target, elements[..i]))
    {
      chunker.TakeElement(elements[i], TakeAll(tk, target, elements[..i]));
      assert elements[..i + 1][..i] == elements[..i];
      i := i + 1;
    }
    assert elements[..i] == elements;
    GroupsPartition(tk, target, elements);
    chunker.Emit(TakeAll(tk, target, elements));
    out := chunker.out;
  }
}
