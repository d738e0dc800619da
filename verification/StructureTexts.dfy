/** What the structure-aware chunker returns, read as texts: where every element stands, and under which section. */
module StructureTexts {
  import opened Options
  import opened Text
  import opened Elements
  import opened Places
  import opened StructureAware

  // ---------------------------------------------------------------- stripping keeps what is inside

  lemma {:induction false} StripLeftKeeps(a: string, core: string) returns (a': string)
    requires core != "" && !Space(core[0])
    ensures StripLeft(a + core) == a' + core
  {
    if a == "" || !Space(a[0]) {
      a' := a;
      assert a == "" ==> a + core == core;
    } else {
      a' := StripLeftKeeps(a[1..], core);
      assert (a + core)[1..] == a[1..] + core;
    }
  }

  lemma {:induction false} StripRightKeeps(core: string, b: string) returns (b': string)
    requires core != "" && !Space(core[|core| - 1])
    ensures StripRight(core + b) == core + b'
  {
    if b == "" || !Space(b[|b| - 1]) {
      b' := b;
      assert b == "" ==> core + b == core;
    } else {
      b' := StripRightKeeps(core, b[..|b| - 1]);
      assert (core + b)[..|core + b| - 1] == core + b[..|b| - 1];
    }
  }

  /** A solid part of a text is a part of the stripped text. */
  lemma StripKeeps(a: string, core: string, b: string) returns (at: nat)
    requires Solid(core)
    ensures StandsAt([Strip(a + core + b)], Place(0, at), core)
  {
    hide StripLeft, StripRight;
    assert a + core + b == a + (core + b);
    var a' := StripLeftKeeps(a, core + b);
    assert a' + (core + b) == (a' + core) + b;
    var b' := StripRightKeeps(a' + core, b);
    at := |a'|;
    assert Strip(a + core + b) == a' + core + b';
  }

  /** Stripping takes whitespace off both ends and nothing else. */
  lemma {:induction false} StripLeftTakes(s: string) returns (a: string)
    ensures s == a + StripLeft(s)
  {
    if s != [] && Space(s[0]) {
      a := StripLeftTakes(s[1..]);
      a := [s[0]] + a;
    } else {
      a := "";
    }
  }

  lemma StripTakes(s: string) returns (a: string, b: string)
    ensures s == a + Strip(s) + b
  {
    a := StripLeftTakes(s);
    StripRightSolid(StripLeft(s));
    b := StripLeft(s)[|Strip(s)|..];
    assert StripLeft(s) == Strip(s) + b;
    assert a + (Strip(s) + b) == a + Strip(s) + b;
  }

  lemma Regroup(x: string, a: string, core: string, b: string, y: string)
    ensures x + (a + core + b) + y == (x + a) + core + (b + y)
  {}

  /** What a part of a text holds, stripped, stands in the stripped text. */
  lemma PartStands(full: string, lo: nat, body: string) returns (at: nat)
    requires lo + |body| <= |full| && full[lo..lo + |body|] == body && Strip(body) != ""
    ensures StandsAt([Strip(full)], Place(0, at), Strip(body))
  {
    StripIsSolid(body);
    hide Strip, StandsAt, Solid;
    var a, b := StripTakes(body);
    var x, core, y := full[..lo], Strip(body), full[lo + |body|..];
    assert full == x + body + y;
    Regroup(x, a, core, b, y);
    at := StripKeeps(x + a, core, b + y);
  }

  /** Every element of a group stands, stripped, in the group's text. */
  lemma ElementStands(elements: seq<Element>, i: nat) returns (at: nat)
    requires i < |elements| && Strip(Body(elements[i])) != ""
    ensures StandsAt([TextOf(elements)], Place(0, at), Strip(Body(elements[i])))
  {
    hide Join, At, Strip, Body, StandsAt;
    var bodies := Bodies(elements);
    PartStandsAt("\n\n", bodies, i);
    at := PartStands(Join("\n\n", bodies), At("\n\n", bodies, i), bodies[i]);
  }

  // ---------------------------------------------------------------- from content to chunk

  /** Content `m` is element `i` of group `k`. */
  lemma {:induction false} ContentInGroup(groups: seq<Group>, m: nat) returns (k: nat, i: nat)
    requires m < |Flat(groups)|
    ensures k < |groups| && i < |groups[k].elements|
    ensures Flat(groups)[m] == Tagged(groups[k].elements[i], groups[k].heading, groups[k].section)
    ensures m == |Flat(groups[..k])| + i
  {
    var n := |groups| - 1;
    var before := Flat(groups[..n]);
    if m < |before| {
      k, i := ContentInGroup(groups[..n], m);
      assert groups[..n][..k] == groups[..k];
    } else {
      k, i := n, m - |before|;
    }
  }

  /** A group with any text has its chunk, numbered by the groups with text before it. */
  lemma {:induction false} GroupHasChunk(tk: Tokenizer, groups: seq<Group>, k: nat)
    requires Whole(groups) && k < |groups| && TextOf(groups[k].elements) != ""
    ensures Whole(groups[..k])
    ensures var c, g := |Render(tk, groups[..k])|, groups[k];
            c < |Render(tk, groups)| && Render(tk, groups)[c] == ChunkOf(tk, g.elements, g.section, c)
  {
    hide TextOf, ChunkOf;
    var n := |groups| - 1;
    if k < n {
      GroupHasChunk(tk, groups[..n], k);
      assert groups[..n][..k] == groups[..k];
    }
  }

  lemma {:induction false} ChunksGrow(tk: Tokenizer, groups: seq<Group>, k: nat, l: nat)
    requires Whole(groups) && k <= l <= |groups|
    ensures Whole(groups[..k]) && Whole(groups[..l]) && |Render(tk, groups[..k])| <= |Render(tk, groups[..l])|
  {
    hide TextOf, ChunkOf;
    if k < l {
      ChunksGrow(tk, groups, k, l - 1);
      assert groups[..l][..l - 1] == groups[..l - 1];
    }
  }

  lemma {:induction false} HeadingHasText(elements: seq<Element>)
    ensures LatestHeading(elements).Some? ==> LatestHeading(elements).value != ""
  {
    if elements != [] { HeadingHasText(elements[..|elements| - 1]); }
  }

  lemma {:induction false} ContentIsTagged(elements: seq<Element>, m: nat)
    requires m < |Contents(elements)|
    ensures IsContent(Contents(elements)[m].element)
    ensures Contents(elements)[m].section.Some? ==> Contents(elements)[m].section.value != ""
  {
    var init := elements[..|elements| - 1];
    HeadingHasText(init);
    if m < |Contents(init)| { ContentIsTagged(init, m); }
    hide Element.IsChunkable, LatestHeading, Headings;
  }

  /** The group content `m` is in. */
  function GroupOfContent(groups: seq<Group>, m: nat): nat {
    if groups == [] then 0
    else if m < |Flat(groups[..|groups| - 1])| then GroupOfContent(groups[..|groups| - 1], m)
    else |groups| - 1
  }

  lemma {:induction false} GroupOfContentIs(groups: seq<Group>, m: nat, k: nat, i: nat)
    requires k < |groups| && i < |groups[k].elements| && m == |Flat(groups[..k])| + i
    ensures GroupOfContent(groups, m) == k
  {
    var n := |groups| - 1;
    if k < n {
      assert groups[..n][..k] == groups[..k];
      assert groups[..n][..k + 1] == groups[..k + 1] && groups[..k + 1][..k] == groups[..k];
      FlatGrows(groups, k + 1, n);
      GroupOfContentIs(groups[..n], m, k, i);
    }
  }

  lemma {:induction false} FlatGrows(groups: seq<Group>, k: nat, l: nat)
    requires k <= l <= |groups|
    ensures |Flat(groups[..k])| <= |Flat(groups[..l])|
  {
    if k < l {
      FlatGrows(groups, k, l - 1);
      assert groups[..l][..l - 1] == groups[..l - 1];
    }
  }

  lemma {:induction false} LaterContentLaterGroup(groups: seq<Group>, m: nat, n: nat)
    requires m <= n
    ensures GroupOfContent(groups, m) <= GroupOfContent(groups, n) && GroupOfContent(groups, n) <= |groups|
  {
    if groups != [] { LaterContentLaterGroup(groups[..|groups| - 1], m, n); }
  }

  /** The number of the chunk content `m` is in. */
  function ChunkOfContent(tk: Tokenizer, groups: seq<Group>, m: nat): nat
    requires Whole(groups)
  {
    LaterContentLaterGroup(groups, m, m);
    |Render(tk, groups[..GroupOfContent(groups, m)])|
  }

  lemma LaterContentLaterChunk(tk: Tokenizer, groups: seq<Group>, m: nat, n: nat)
    requires Whole(groups) && m <= n
    ensures ChunkOfContent(tk, groups, m) <= ChunkOfContent(tk, groups, n)
  {
    LaterContentLaterGroup(groups, m, n);
    ChunksGrow(tk, groups, GroupOfContent(groups, m), GroupOfContent(groups, n));
  }

  /** The chunk shows the element, under the latest heading before it; a table is its chunk. */
  ghost predicate Shows(chunk: Chunk, tag: Tagged) {
    && (exists at :: StandsAt([chunk.text], Place(0, at), Strip(Body(tag.element))))
    && (tag.section.Some? ==> chunk.section == tag.section)
    && (tag.element.kind.Table? ==> chunk.text == Strip(Body(tag.element)) && chunk.tableHtml == tag.element.tableHtml
                                    && chunk.page == tag.element.page)
  }

  /** The chunk's page, and its section where no heading came before, are those of the content that begins its group. */
  ghost predicate AnchoredAt(chunk: Chunk, groups: seq<Group>, contents: seq<Tagged>, first: nat, m: nat) {
    && first <= m < |contents| && GroupOfContent(groups, first) == GroupOfContent(groups, m)
    && (first > 0 ==> GroupOfContent(groups, first - 1) < GroupOfContent(groups, m))
    && chunk.page == contents[first].element.page
    && (contents[m].section == None ==> chunk.section == contents[first].element.section)
  }

  lemma FlatAt(groups: seq<Group>, k: nat)
    requires Whole(groups) && k < |groups|
    ensures var first := |Flat(groups[..k])|; first < |Flat(groups)| && Flat(groups)[first].element == groups[k].elements[0]
  {
    var upTo := groups[..k + 1];
    assert upTo[..k] == groups[..k] && upTo[k] == groups[k];
    FlatAppend(groups[..k], groups[k]);
    assert upTo == groups[..k] + [groups[k]];
    FlatPrefix(groups, k + 1);
    hide Flat;
  }

  /** A group begins with its first element. */
  lemma GroupBegins(groups: seq<Group>, k: nat)
    requires Whole(groups) && k < |groups|
    ensures var first := |Flat(groups[..k])|;
            && GroupOfContent(groups, first) == k
            && (first > 0 ==> GroupOfContent(groups, first - 1) < k)
            && first < |Flat(groups)| && Flat(groups)[first].element == groups[k].elements[0]
  {
    hide Flat, GroupOfContent;
    var first := |Flat(groups[..k])|;
    FlatAt(groups, k);
    GroupOfContentIs(groups, first, k, 0);
    if first > 0 {
      var l, i := ContentInGroup(groups[..k], first - 1);
      assert groups[..k][..l] == groups[..l] && groups[..k][l] == groups[l];
      GroupOfContentIs(groups, first - 1, l, i);
    }
  }

  lemma {:induction false} FlatPrefix(groups: seq<Group>, k: nat)
    requires k <= |groups|
    ensures Flat(groups[..k]) <= Flat(groups)
  {
    if k < |groups| {
      FlatPrefix(groups[..|groups| - 1], k);
      assert groups[..|groups| - 1][..k] == groups[..k];
    } else {
      assert groups[..k] == groups;
    }
  }

  lemma BlankBody(e: Element)
    requires e.IsChunkable() && !BlankMarkup(e)
    ensures Strip(Body(e)) != ""
  {
    StripBlank(Body(e));
    StripBlank(e.text);
  }

  lemma GroupShows(tk: Tokenizer, g: Group, i: nat, index: nat, target: int)
    requires GroupOk(tk, target, g) && i < |g.elements| && Strip(Body(g.elements[i])) != ""
    requires g.section.Some? ==> g.section.value != ""
    ensures TextOf(g.elements) != "" && Shows(ChunkOf(tk, g.elements, g.section, index), Tagged(g.elements[i], g.heading, g.section))
    ensures var chunk := ChunkOf(tk, g.elements, g.section, index);
            && chunk.index == index && chunk.tokens == tk.Count(chunk.text) && chunk.page == g.elements[0].page
            && (g.section == None ==> chunk.section == g.elements[0].section)
  {
    var at := ElementStands(g.elements, i);
    var e := g.elements[i];
    if e.kind.Table? {
      assert g.elements == [e];
      assert Bodies(g.elements) == [Body(e)];
    }
    hide Strip, Body, Tokens;
  }

  /**
   Every content element whose markup is not blank stands, stripped, in a returned chunk whose section is the latest
   heading before it and whose page is that of the content its group begins with; chunks follow the order of the
   elements; and a table is alone in its chunk.
   */
  lemma ContentsReachChunks(tk: Tokenizer, target: int, elements: seq<Element>, m: nat) returns (c: nat)
    requires m < |Contents(elements)| && !BlankMarkup(Contents(elements)[m].element)
    ensures Whole(Groups(tk, target, elements))
    ensures c < |Render(tk, Groups(tk, target, elements))|
    ensures var chunk, groups := Render(tk, Groups(tk, target, elements))[c], Groups(tk, target, elements);
            && Shows(chunk, Contents(elements)[m]) && chunk.index == c && chunk.tokens == tk.Count(chunk.text)
            && exists first :: AnchoredAt(chunk, groups, Contents(elements), first, m)
    ensures c == ChunkOfContent(tk, Groups(tk, target, elements), m)
  {
    var groups, tag := Groups(tk, target, elements), Contents(elements)[m];
    GroupsPartition(tk, target, elements);
    forall i | 0 <= i < |groups| ensures groups[i].elements != [] { assert GroupOk(tk, target, groups[i]); }
    ContentIsTagged(elements, m);
    var k, i := ContentInGroup(groups, m);
    GroupOfContentIs(groups, m, k, i);
    GroupBegins(groups, k);
    BlankBody(tag.element);
    assert GroupOk(tk, target, groups[k]);
    hide Groups, Contents, GroupOk, Strip, Shows, Element.IsChunkable, Grouped;
    c := |Render(tk, groups[..k])|;
    GroupShows(tk, groups[k], i, c, target);
    GroupHasChunk(tk, groups, k);
    assert AnchoredAt(Render(tk, groups)[c], groups, Contents(elements), |Flat(groups[..k])|, m);
  }
}
