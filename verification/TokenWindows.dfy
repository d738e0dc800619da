/** Fixed-size token windows with overlap: the sliding-window chunker and the semantic chunker's backstop. */
module TokenWindows {

  import opened Options

  /** Token positions `[lo, hi)`. */
  datatype Span = Span(lo: nat, hi: nat)

  function Min(a: nat, b: nat): nat { if a < b then a else b }

  /** Where Python's slice `[start : start + target]` of `n` items ends; a negative end counts from the back. */
  function SliceEnd(n: nat, start: nat, target: int): (e: nat)
    requires start <= n
    ensures start <= e <= n
    ensures target >= 0 ==> e == Min(start + target, n)
  {
    var stop := start + target;
    var at := if stop > n then n else if stop >= 0 then stop else if n + stop >= 0 then n + stop else 0;
    if at < start then start else at
  }

  /** The windows over `n` tokens from `start` on, each `step` after the previous, until one reaches the end. */
  function Spans(n: nat, start: nat, target: int, step: nat): (spans: seq<Span>)
    requires step > 0
    ensures forall k | 0 <= k < |spans| :: spans[k].lo <= spans[k].hi <= n
    decreases if start < n then n - start else 0
  {
    if start >= n then []
    else
      var first := Span(start, SliceEnd(n, start, target));
      if start + target >= n then [first] else [first] + Spans(n, start + step, target, step)
  }

  /** The token windows from `start` on. */
  function WindowsFrom(ids: seq<nat>, start: nat, target: int, step: nat): seq<seq<nat>>
    requires step > 0
    decreases if start < |ids| then |ids| - start else 0
  {
    if start >= |ids| then [] else [ids[start..SliceEnd(|ids|, start, target)]] + Later(ids, start, target, step)
  }

  function Later(ids: seq<nat>, start: nat, target: int, step: nat): seq<seq<nat>>
    requires step > 0 && start < |ids|
    decreases |ids| - start, 0
  {
    if start + target >= |ids| then [] else WindowsFrom(ids, start + step, target, step)
  }

  function Windows(ids: seq<nat>, target: int, step: nat): seq<seq<nat>>
    requires step > 0
  {
    WindowsFrom(ids, 0, target, step)
  }

  /**
   The semantic chunker's backstop. Its loop guards the step with `max(1, ...)`, which `overlap < target` makes
   redundant; a negative overlap passes that check.
   */
  method TokenWindowSplit(ids: seq<nat>, target: int, overlap: int) returns (windows: seq<seq<nat>>)
    requires overlap < target
    ensures windows == Windows(ids, target, target - overlap)
  {
    var step := if target - overlap > 1 then target - overlap else 1;
    windows := [];
    var start := 0;
    while start < |ids|
      invariant windows + WindowsFrom(ids, start, target, step) == Windows(ids, target, step)
    {
      windows := windows + [ids[start..SliceEnd(|ids|, start, target)]];
      if start + target >= |ids| { break; }
      start := start + step;
    }
  }

  // ---------------------------------------------------------------- reconstruction

  /** Concatenate the windows, dropping the first `overlap` tokens of every window but the first. */
  function Reassemble(windows: seq<seq<nat>>, overlap: nat): seq<nat> {
    if windows == [] then [] else windows[0] + DropOverlaps(windows[1..], overlap)
  }

  function DropOverlaps(windows: seq<seq<nat>>, overlap: nat): seq<nat> {
    if windows == [] then []
    else (if overlap <= |windows[0]| then windows[0][overlap..] else []) + DropOverlaps(windows[1..], overlap)
  }

  lemma DropCons(w: seq<nat>, rest: seq<seq<nat>>, overlap: nat)
    requires overlap <= |w|
    ensures DropOverlaps([w] + rest, overlap) == w[overlap..] + DropOverlaps(rest, overlap)
  {
    assert ([w] + rest)[1..] == rest;
  }

  lemma SliceParts(ids: seq<nat>, a: nat, b: nat, c: nat)
    requires a <= b <= c <= |ids|
    ensures ids[a..c][b - a..] == ids[b..c]
    ensures ids[b..c] + ids[c..] == ids[b..]
  {}

  /** The windows from `start` on, without their overlaps, are the tokens from `start + overlap` on. */
  lemma {:induction false} DropFrom(ids: seq<nat>, start: nat, target: nat, overlap: nat)
    requires overlap < target && start + overlap < |ids|
    ensures DropOverlaps(WindowsFrom(ids, start, target, target - overlap), overlap) == ids[start + overlap..]
    decreases |ids| - start
  {
    var end := Min(start + target, |ids|);
    DropLater(ids, start, target, overlap);
    DropCons(ids[start..end], Later(ids, start, target, target - overlap), overlap);
    SliceParts(ids, start, start + overlap, end);
  }

  lemma {:induction false} DropLater(ids: seq<nat>, start: nat, target: nat, overlap: nat)
    requires overlap < target && start < |ids|
    ensures DropOverlaps(Later(ids, start, target, target - overlap), overlap) == ids[Min(start + target, |ids|)..]
    decreases |ids| - start, 0
  {
    if start + target < |ids| {
      DropFrom(ids, start + target - overlap, target, overlap);
    }
  }

  /** Nothing is lost, added or reordered: the windows reassemble to the token stream. */
  lemma WindowsReassemble(ids: seq<nat>, target: nat, overlap: nat)
    requires overlap < target
    ensures Reassemble(Windows(ids, target, target - overlap), overlap) == ids
  {
    if ids != [] {
      var end := Min(target, |ids|);
      DropLater(ids, 0, target, overlap);
      FirstWindow(ids[0..end], Later(ids, 0, target, target - overlap), overlap);
      assert ids[0..end] + ids[end..] == ids;
    }
  }

  lemma FirstWindow(w: seq<nat>, rest: seq<seq<nat>>, overlap: nat)
    ensures Reassemble([w] + rest, overlap) == w + DropOverlaps(rest, overlap)
  {
    assert ([w] + rest)[1..] == rest;
  }

  // ---------------------------------------------------------------- positions and count

  /** How many steps of `b` it takes to reach `a`. */
  function CeilDiv(a: nat, b: nat): nat
    requires b > 0
  {
    if a == 0 then 0 else if a <= b then 1 else 1 + CeilDiv(a - b, b)
  }

  /** `CeilDiv` is division rounded up. */
  lemma {:induction false} CeilDivRoundsUp(a: nat, b: nat)
    requires b > 0
    ensures a <= CeilDiv(a, b) * b < a + b
  {
    if a > b {
      CeilDivRoundsUp(a - b, b);
      var q := CeilDiv(a - b, b);
      assert (1 + q) * b == b + q * b;
    }
  }

  /** Window `k` is the tokens of span `k`. */
  lemma {:induction false} WindowsAreSpans(ids: seq<nat>, start: nat, target: int, step: nat)
    requires step > 0
    ensures var ws, spans := WindowsFrom(ids, start, target, step), Spans(|ids|, start, target, step);
            |ws| == |spans| && forall k | 0 <= k < |ws| :: ws[k] == ids[spans[k].lo..spans[k].hi]
    decreases if start < |ids| then |ids| - start else 0
  {
    if start < |ids| && start + target < |ids| { WindowsAreSpans(ids, start + step, target, step); }
  }

  lemma {:induction false} CountFrom(n: nat, start: nat, target: nat, step: nat)
    requires step > 0 && start < n
    ensures |Spans(n, start, target, step)| <= 1 + CeilDiv(if n - start > target then n - start - target else 0, step)
    ensures step <= target ==>
              |Spans(n, start, target, step)| == 1 + CeilDiv(if n - start > target then n - start - target else 0, step)
    decreases n - start
  {
    if start + target < n && start + step < n {
      CountFrom(n, start + step, target, step);
    }
  }

  /** The window count in closed form. */
  lemma WindowCount(ids: seq<nat>, target: nat, overlap: nat)
    requires overlap < target && ids != []
    ensures |Windows(ids, target, target - overlap)|
            == 1 + CeilDiv(if |ids| > target then |ids| - target else 0, target - overlap)
  {
    WindowsAreSpans(ids, 0, target, target - overlap);
    CountFrom(|ids|, 0, target, target - overlap);
  }

  /** No later window lies inside its predecessor: each starts `step` later and ends strictly later. */
  lemma {:induction false} WindowsAdvance(n: nat, start: nat, target: nat, overlap: nat, k: nat)
    requires overlap < target && k + 1 < |Spans(n, start, target, target - overlap)|
    ensures var spans := Spans(n, start, target, target - overlap);
            spans[k].hi < spans[k + 1].hi && spans[k].hi == spans[k + 1].lo + overlap
    decreases k
  {
    if k > 0 {
      WindowsAdvance(n, start + target - overlap, target, overlap, k - 1);
    }
  }

  // ---------------------------------------------------------------- negative overlap

  predicate Covers(spans: seq<Span>, p: nat) {
    exists k | 0 <= k < |spans| :: spans[k].lo <= p < spans[k].hi
  }

  ghost predicate AllCovered(n: nat, target: nat, step: nat)
    requires step > 0
  {
    forall p: nat | p < n :: Covers(Spans(n, 0, target, step), p)
  }

  lemma {:induction false} Covered(n: nat, start: nat, target: nat, step: nat, p: nat)
    requires 0 < step <= target && start <= p < n
    ensures Covers(Spans(n, start, target, step), p)
    decreases n - start
  {
    var spans := Spans(n, start, target, step);
    if p < start + target {
      assert spans[0].lo <= p < spans[0].hi;
    } else {
      var rest := Spans(n, start + step, target, step);
      Covered(n, start + step, target, step, p);
      var k :| 0 <= k < |rest| && rest[k].lo <= p < rest[k].hi;
      assert spans[k + 1] == rest[k];
    }
  }

  lemma {:induction false} StartsAtOrAfter(n: nat, start: nat, target: nat, step: nat)
    requires step > 0
    ensures forall k | 0 <= k < |Spans(n, start, target, step)| :: start <= Spans(n, start, target, step)[k].lo
    decreases if start < n then n - start else 0
  {
    if start < n && start + target < n { StartsAtOrAfter(n, start + step, target, step); }
  }

  /** The constructor's check lets a negative overlap through; then tokens between windows are lost. */
  lemma CoverageIffNoGap(n: nat, target: nat, overlap: int)
    requires overlap < target && target > 0
    ensures AllCovered(n, target, target - overlap) <==> overlap >= 0 || n <= target
  {
    var step := target - overlap;
    var spans := Spans(n, 0, target, step);
    if overlap >= 0 {
      forall p: nat | p < n ensures Covers(spans, p) { Covered(n, 0, target, step, p); }
    } else if n <= target {
      forall p: nat | p < n ensures Covers(spans, p) { assert spans[0].lo <= p < spans[0].hi; }
    } else {
      StartsAtOrAfter(n, step, target, step);
      assert spans == [Span(0, target)] + Spans(n, step, target, step);
      assert !Covers(spans, target);
    }
  }

  // ---------------------------------------------------------------- page and section anchors

  /** The element whose start offset most recently precedes `offset`; `starts` are the elements' offsets. */
  method AnchorAt(offset: nat, starts: seq<nat>) returns (last: Option<nat>)
    requires forall i, j | 0 <= i < j < |starts| :: starts[i] < starts[j]
    ensures last.Some? ==> last.value < |starts| && starts[last.value] <= offset
    ensures last.Some? ==> forall i | last.value < i < |starts| :: offset < starts[i]
    ensures last.None? ==> forall i | 0 <= i < |starts| :: offset < starts[i]
  {
    last := None;
    var i := 0;
    while i < |starts|
      invariant 0 <= i <= |starts|
      invariant if i == 0 then last == None else last == Some(i - 1) && starts[i - 1] <= offset
    {
      if starts[i] > offset { break; }
      last := Some(i);
      i := i + 1;
    }
  }
}
