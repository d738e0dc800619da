/** Python's `sorted(..., reverse=True)` on a numeric key: descending, ties in their original order. */
module StableSort {

  datatype Scored<T> = Scored(item: T, score: real)

  /** `e` goes behind everything that does not score below it. */
  function Insert<T>(s: seq<Scored<T>>, e: Scored<T>): seq<Scored<T>> {
    if s == [] || s[|s| - 1].score >= e.score then s + [e]
    else Insert(s[..|s| - 1], e) + [s[|s| - 1]]
  }

  function SortDesc<T>(s: seq<Scored<T>>): seq<Scored<T>> {
    if s == [] then [] else Insert(SortDesc(s[..|s| - 1]), s[|s| - 1])
  }

  predicate Ahead<T>(slot: T -> int, a: Scored<T>, b: Scored<T>) {
    a.score > b.score || (a.score == b.score && slot(a.item) < slot(b.item))
  }

  ghost predicate InOrder<T>(slot: T -> int, s: seq<Scored<T>>) {
    forall i, j | 0 <= i < j < |s| :: Ahead(slot, s[i], s[j])
  }

  lemma {:induction false} InsertAdds<T>(s: seq<Scored<T>>, e: Scored<T>)
    ensures multiset(Insert(s, e)) == multiset(s) + multiset{e}
  {
    if s != [] && s[|s| - 1].score < e.score {
      InsertAdds(s[..|s| - 1], e);
      assert s == s[..|s| - 1] + [s[|s| - 1]];
    }
  }

  lemma {:induction false} SortPermutes<T>(s: seq<Scored<T>>)
    ensures multiset(SortDesc(s)) == multiset(s) && |SortDesc(s)| == |s|
  {
    if s != [] {
      SortPermutes(s[..|s| - 1]);
      InsertAdds(SortDesc(s[..|s| - 1]), s[|s| - 1]);
      assert s == s[..|s| - 1] + [s[|s| - 1]];
    }
    assert |multiset(SortDesc(s))| == |SortDesc(s)|;
  }

  lemma {:induction false} InsertOrders<T>(slot: T -> int, s: seq<Scored<T>>, e: Scored<T>)
    requires InOrder(slot, s) && forall x | x in s :: slot(x.item) < slot(e.item)
    ensures InOrder(slot, Insert(s, e))
  {
    if s != [] {
      var n := |s| - 1;
      if s[n].score < e.score {
        InsertOrders(slot, s[..n], e);
        InsertAdds(s[..n], e);
        var t := Insert(s[..n], e);
        forall i | 0 <= i < |t| ensures Ahead(slot, t[i], s[n]) {
          assert t[i] in multiset(t);
          if t[i] != e { assert t[i] in s[..n]; }
        }
      } else {
        forall i | 0 <= i <= n ensures Ahead(slot, s[i], e) {
          assert i < n ==> Ahead(slot, s[i], s[n]);
        }
      }
    }
  }

  /** Where `slot` numbers the input, the result is ordered by score, then by position in the input. */
  lemma {:induction false} SortIsStable<T>(slot: T -> int, s: seq<Scored<T>>)
    requires forall i, j | 0 <= i < j < |s| :: slot(s[i].item) < slot(s[j].item)
    ensures InOrder(slot, SortDesc(s))
  {
    if s != [] {
      var n := |s| - 1;
      SortIsStable(slot, s[..n]);
      SortPermutes(s[..n]);
      forall x | x in SortDesc(s[..n]) ensures slot(x.item) < slot(s[n].item) {
        assert x in multiset(SortDesc(s[..n])) && x in s[..n];
      }
      InsertOrders(slot, SortDesc(s[..n]), s[n]);
    }
  }
}
