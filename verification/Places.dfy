/** Where parts stand in joined texts. */
module Places {
  import opened Text

  /** A position in one of several texts. */
  datatype Place = Place(text: nat, offset: nat)

  predicate StandsAt(texts: seq<string>, p: Place, part: string) {
    && p.text < |texts| && p.offset + |part| <= |texts[p.text]|
    && texts[p.text][p.offset..p.offset + |part|] == part
  }

  /** `q` lies in a later text, or in the same one behind the end of the part at `p`. */
  predicate Behind(p: Place, part: string, q: Place) {
    p.text < q.text || (p.text == q.text && p.offset + |part| <= q.offset)
  }

  /** Offset of part `i` in the joined text. */
  function At(sep: string, parts: seq<string>, i: nat): nat
    requires i <= |parts|
  {
    if i == 0 then 0 else At(sep, parts, i - 1) + |parts[i - 1]| + |sep|
  }

  lemma {:induction false} AtIncreases(sep: string, parts: seq<string>, i: nat, j: nat)
    requires i < j <= |parts|
    ensures At(sep, parts, i) + |parts[i]| + |sep| <= At(sep, parts, j)
  {
    if i + 1 < j { AtIncreases(sep, parts, i, j - 1); }
  }

  lemma {:induction false} AtOfPrefix(sep: string, parts: seq<string>, n: nat, i: nat)
    requires i <= n <= |parts|
    ensures At(sep, parts[..n], i) == At(sep, parts, i)
  {
    if i > 0 { AtOfPrefix(sep, parts, n, i - 1); }
  }

  /** The joined text is what comes before its last part, and that part. */
  lemma {:induction false} LastStandsAt(sep: string, parts: seq<string>)
    requires parts != []
    ensures var n, full := |parts| - 1, Join(sep, parts);
            && At(sep, parts, n) + |parts[n]| == |full| && full[At(sep, parts, n)..] == parts[n]
            && Join(sep, parts[..n]) <= full
  {
    var n := |parts| - 1;
    if n > 0 {
      LastStandsAt(sep, parts[..n]);
      AtOfPrefix(sep, parts, n, n - 1);
      assert Join(sep, parts) == Join(sep, parts[..n]) + sep + parts[n];
    }
  }

  /** Every part stands at its offset. */
  lemma {:induction false} PartStandsAt(sep: string, parts: seq<string>, i: nat)
    requires i < |parts|
    ensures At(sep, parts, i) + |parts[i]| <= |Join(sep, parts)|
    ensures Join(sep, parts)[At(sep, parts, i)..At(sep, parts, i) + |parts[i]|] == parts[i]
  {
    var n := |parts| - 1;
    LastStandsAt(sep, parts);
    AtOfPrefix(sep, parts, n, i);
    hide Join, At;
    if i < n {
      PartStandsAt(sep, parts[..n], i);
      var lo, hi := At(sep, parts, i), At(sep, parts, i) + |parts[i]|;
      assert Join(sep, parts)[lo..hi] == Join(sep, parts[..n])[lo..hi];
    }
  }

  /** More texts behind do not move a place. */
  lemma StandsStill(texts: seq<string>, more: seq<string>, p: Place, part: string)
    requires StandsAt(texts, p, part)
    ensures StandsAt(texts + more, p, part)
  {}

  /** A part of a part stands in the text as well. */
  /** What stands in a text that stands in another stands there. */
  lemma StandsThrough(texts: seq<string>, outer: Place, parts: seq<string>, inner: Place, part: string)
    requires StandsAt(parts, inner, part) && StandsAt(texts, outer, parts[inner.text])
    ensures StandsAt(texts, Place(outer.text, outer.offset + inner.offset), part)
  {
    PartOfPart(texts, outer, parts[inner.text], inner.offset, part);
  }

  lemma PartOfPart(texts: seq<string>, p: Place, part: string, offset: nat, inner: string)
    requires StandsAt(texts, p, part) && offset + |inner| <= |part| && part[offset..offset + |inner|] == inner
    ensures StandsAt(texts, Place(p.text, p.offset + offset), inner)
  {
    var t, lo := texts[p.text], p.offset;
    var outer, slice := t[lo..lo + |part|], t[lo + offset..lo + offset + |inner|];
    forall i | 0 <= i < |inner| ensures slice[i] == inner[i] {
      assert slice[i] == t[lo + offset + i] == outer[offset + i];
      assert inner[i] == part[offset..offset + |inner|][i] == part[offset + i];
    }
    assert slice == inner;
  }
}
