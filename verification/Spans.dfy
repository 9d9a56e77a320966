/** Candidate spans: reading them off a labelling, and merging the ones that overlap. */
module Spans {
  import opened Wrappers
  import opened Labels
  import opened Decoder
  import opened Offsets
  import opened Sequences

  datatype Source = Model | Deterministic

  datatype Span = Span(category: Category, start: nat, end: nat, sources: set<Source>)

  datatype SpanError = MissingOffset | InvalidRange

  // ----- From a labelling to spans -----

  // The tokens first..last carry one segment: a single S, or tagged tokens of one category from a B to the next E.
  ghost predicate Segment(labels: seq<TokenLabel>, first: nat, last: nat) {
    && first <= last < |labels| && labels[first].Tagged?
    && (forall t | first <= t <= last :: labels[t].Tagged? && labels[t].category == labels[first].category)
    && (if first == last then labels[first].tag.S? else labels[first].tag.B? && labels[last].tag.E?)
    && (forall t | first < t < last :: !labels[t].tag.E?)
  }

  datatype Run = Run(first: nat, last: nat)

  ghost predicate Segments(labels: seq<TokenLabel>, runs: seq<Run>) {
    && (forall k | 0 <= k < |runs| :: Segment(labels, runs[k].first, runs[k].last))
    && (forall k, l | 0 <= k < l < |runs| :: runs[k].last < runs[l].first)
  }

  ghost predicate InSomeRun(runs: seq<Run>, t: nat) {
    exists k :: 0 <= k < |runs| && runs[k].first <= t <= runs[k].last
  }

  // Every tagged token below n is in a run.
  ghost predicate RunsReach(labels: seq<TokenLabel>, runs: seq<Run>, n: nat)
    requires n <= |labels|
  {
    forall t: nat | t < n && labels[t].Tagged? :: InSomeRun(runs, t)
  }

  ghost predicate SpanOfRun(labels: seq<TokenLabel>, offsets: seq<TokenOffset>, run: Run, s: Span)
    requires Segment(labels, run.first, run.last) && run.last < |offsets|
  {
    s.category == labels[run.first].category && s.start == offsets[run.first].startByte
    && s.end == offsets[run.last].endByte && s.sources == {Model}
  }

  ghost predicate SpansOfRuns(labels: seq<TokenLabel>, offsets: seq<TokenOffset>, runs: seq<Run>, spans: seq<Span>)
    requires Segments(labels, runs) && |labels| <= |offsets|
  {
    && |spans| == |runs|
    && forall k | 0 <= k < |runs| :: SpanOfRun(labels, offsets, runs[k], spans[k])
  }

  function EndOf(offsets: seq<TokenOffset>, t: nat): int
    requires t <= |offsets|
  {
    if t == 0 then 0 else offsets[t - 1].endByte
  }

  // Token t is a non-empty range that starts where the previous one ended.
  predicate Follows(offsets: seq<TokenOffset>, length: nat, t: nat)
    requires t < |offsets|
  {
    ValidByteRange(length, offsets[t].startByte, offsets[t].endByte) && offsets[t].startByte == EndOf(offsets, t)
  }

  ghost predicate CoversExactly(offsets: seq<TokenOffset>, length: nat) {
    && (forall t | 0 <= t < |offsets| :: Follows(offsets, length, t))
    && length == EndOf(offsets, |offsets|)
  }

  lemma {:induction false} OffsetsRise(offsets: seq<TokenOffset>, length: nat, s: nat, t: nat)
    requires CoversExactly(offsets, length) && s <= t < |offsets|
    ensures offsets[s].startByte <= offsets[t].startByte && offsets[s].endByte <= offsets[t].endByte
    ensures s < t ==> offsets[s].endByte <= offsets[t].startByte
  {
    if s < t {
      OffsetsRise(offsets, length, s, t - 1);
      assert Follows(offsets, length, t) && Follows(offsets, length, t - 1);
    }
  }

  /** A byte lies between two tokens' outer ends exactly when it lies in one of the tokens between them. */
  lemma {:induction false} BytesOfTokens(offsets: seq<TokenOffset>, length: nat, first: nat, last: nat, j: int)
    requires CoversExactly(offsets, length) && first <= last < |offsets|
    ensures offsets[first].startByte <= j < offsets[last].endByte <==>
            exists t :: first <= t <= last && offsets[t].startByte <= j < offsets[t].endByte
  {
    OffsetsRise(offsets, length, first, last);
    assert Follows(offsets, length, last);
    if first < last {
      BytesOfTokens(offsets, length, first, last - 1, j);
      if offsets[first].startByte <= j < offsets[last].endByte {
        if j >= offsets[last - 1].endByte {
          assert offsets[last].startByte <= j < offsets[last].endByte;
        }
      }
    }
    if t :| first <= t <= last && offsets[t].startByte <= j < offsets[t].endByte {
      OffsetsRise(offsets, length, first, t);
      OffsetsRise(offsets, length, t, last);
    }
  }

  // The position is where a new segment may begin.
  ghost predicate AtSegmentStart(labels: seq<TokenLabel>, n: nat)
    requires n <= |labels|
  {
    n == |labels| || ValidStart(labels[n])
  }

  /** After a background token or a finished segment of a legal labelling, a new segment may begin. */
  lemma NextSegmentStart(labels: seq<TokenLabel>, n: nat)
    requires ValidPath(labels) && n < |labels| && ValidEnd(labels[n])
    ensures AtSegmentStart(labels, n + 1)
  {
    if n + 1 < |labels| {
      assert IsValidTransition(labels[n], labels[n + 1]);
    }
  }

  /**
    Reads the model's spans off a labelling.

    Each span is one complete segment, in order. For a legal labelling every tagged token is in
    one: no B lacks its E.
   */
  method ModelSpans(byteLength: nat, labels: seq<TokenLabel>, offsets: seq<TokenOffset>)
    returns (r: Result<seq<Span>, SpanError>, ghost runs: seq<Run>)
    ensures r.Success? && |labels| <= |offsets| ==>
        Segments(labels, runs) && SpansOfRuns(labels, offsets, runs, r.value)
    ensures r.Success? && ValidPath(labels) ==> RunsReach(labels, runs, |labels|)
    ensures |labels| <= |offsets| && CoversExactly(offsets, byteLength) ==> r.Success?
  {
    var spans: seq<Span> := [];
    runs := [];
    var index := 0;
    ghost var legal := ValidPath(labels);
    while index < |labels|
      invariant index <= |labels|
      invariant Segments(labels, runs) && forall k | 0 <= k < |runs| :: runs[k].last < index
      invariant |labels| <= |offsets| ==> SpansOfRuns(labels, offsets, runs, spans)
      invariant legal ==> AtSegmentStart(labels, index) && RunsReach(labels, runs, index)
    {
      var parsed := labels[index];
      if parsed.O? {
        if legal { NextSegmentStart(labels, index); }
        index := index + 1;
      } else if parsed.tag.S? {
        if index >= |offsets| {
          return Failure(MissingOffset), runs;
        }
        assert CoversExactly(offsets, byteLength) ==> Follows(offsets, byteLength, index);
        if !ValidByteRange(byteLength, offsets[index].startByte, offsets[index].endByte) {
          return Failure(InvalidRange), runs;
        }
        spans := spans + [Span(parsed.category, offsets[index].startByte, offsets[index].endByte, {Model})];
        if legal { NextSegmentStart(labels, index); }
        runs := AddRun(labels, runs, Run(index, index), index, legal);
        index := index + 1;
      } else if !parsed.tag.B? {
        index := index + 1;
      } else {
        var end := ClosingIndex(labels, index);
        if end.Some? {
          var last := end.value;
          if last >= |offsets| {
            return Failure(MissingOffset), runs;
          }
          if CoversExactly(offsets, byteLength) {
            OffsetsRise(offsets, byteLength, index, last);
            assert Follows(offsets, byteLength, index) && Follows(offsets, byteLength, last);
          }
          if !ValidByteRange(byteLength, offsets[index].startByte, offsets[last].endByte) {
            return Failure(InvalidRange), runs;
          }
          spans := spans + [Span(parsed.category, offsets[index].startByte, offsets[last].endByte, {Model})];
          if legal { NextSegmentStart(labels, last); }
          runs := AddRun(labels, runs, Run(index, last), index, legal);
          index := last + 1;
        } else {
          index := index + 1;
        }
      }
    }
    return Success(spans), runs;
  }

  ghost method AddRun(labels: seq<TokenLabel>, runs: seq<Run>, run: Run, index: nat, legal: bool)
    returns (more: seq<Run>)
    requires Segments(labels, runs) && forall k | 0 <= k < |runs| :: runs[k].last < index
    requires run.first == index && Segment(labels, run.first, run.last)
    requires legal ==> RunsReach(labels, runs, index)
    ensures more == runs + [run] && Segments(labels, more)
    ensures legal ==> RunsReach(labels, more, run.last + 1)
  {
    more := runs + [run];
    forall t: nat | legal && t < run.last + 1 && labels[t].Tagged?
      ensures InSomeRun(more, t)
    {
      if t < index {
        assert InSomeRun(runs, t);
        var k :| 0 <= k < |runs| && runs[k].first <= t <= runs[k].last;
        assert more[k] == runs[k];
      } else {
        assert more[|runs|] == run;
      }
    }
  }

  // The E that closes the B at `index`, if the labels in between continue its category.
  method ClosingIndex(labels: seq<TokenLabel>, index: nat) returns (r: Option<nat>)
    requires index < |labels| && labels[index].Tagged? && labels[index].tag.B?
    ensures r.Some? ==> Segment(labels, index, r.value)
    ensures ValidPath(labels) ==> r.Some?
  {
    var endIndex := index + 1;
    while endIndex < |labels|
      invariant index < endIndex <= |labels|
      invariant forall t | index < t < endIndex ::
                  labels[t].Tagged? && labels[t].category == labels[index].category && !labels[t].tag.E?
      invariant ValidPath(labels) ==> !ValidEnd(labels[endIndex - 1])
    {
      var next := labels[endIndex];
      assert ValidPath(labels) ==> IsValidTransition(labels[endIndex - 1], next);
      if next.O? || next.category != labels[index].category {
        return None;
      }
      if next.tag.E? {
        return Some(endIndex);
      }
      endIndex := endIndex + 1;
    }
    return None;
  }

  // ----- Merging overlapping candidates -----

  predicate Before(a: Span, b: Span) {
    a.start < b.start || (a.start == b.start && a.end <= b.end)
  }

  ghost predicate Sorted(spans: seq<Span>) {
    forall m, n | 0 <= m < n < |spans| :: Before(spans[m], spans[n])
  }

  // The candidates by start and then end.
  function ByStart(candidates: seq<Span>): seq<Span> {
    StableSort(Before, candidates)
  }

  lemma ByStartSorts(candidates: seq<Span>)
    ensures Sorted(ByStart(candidates)) && forall x :: x in ByStart(candidates) <==> x in candidates
  {
    assert TotalPreorder(Before);
    StableSortSorts(Before, candidates);
    StableSortKeeps(Before, candidates);
  }

  predicate Within(inner: Span, outer: Span) {
    outer.start <= inner.start && inner.end <= outer.end
  }

  ghost predicate NonEmpty(spans: seq<Span>) {
    forall s | s in spans :: s.start < s.end
  }

  ghost predicate Disjoint(spans: seq<Span>) {
    forall k, l | 0 <= k < l < |spans| :: spans[k].end <= spans[l].start
  }

  // Position i is inside one of the spans.
  ghost predicate Hidden(spans: seq<Span>, i: int) {
    exists s :: s in spans && s.start <= i < s.end
  }

  ghost predicate Housed(c: Span, output: seq<Span>) {
    exists o :: o in output && Within(c, o)
  }

  // What a merged span says about the candidates it swallowed.
  ghost predicate Summarises(candidates: seq<Span>, o: Span) {
    && (exists c :: c in candidates && Within(c, o) && c.category == o.category)
    && (o.category.Secret? <==> exists c :: c in candidates && Within(c, o) && c.category.Secret?)
    && (forall source :: source in o.sources <==> exists c :: c in candidates && Within(c, o) && source in c.sources)
  }

  ghost predicate Covers(candidates: seq<Span>, output: seq<Span>) {
    && NonEmpty(output) && Disjoint(output)
    && (forall c {:trigger Housed(c, output)} | c in candidates :: Housed(c, output))
    && (forall i :: Hidden(output, i) <==> Hidden(candidates, i))
  }

  ghost predicate SummarisesAll(candidates: seq<Span>, output: seq<Span>) {
    forall o {:trigger Summarises(candidates, o)} | o in output :: Summarises(candidates, o)
  }

  ghost predicate UnionOf(candidates: seq<Span>, output: seq<Span>) {
    Covers(candidates, output) && SummarisesAll(candidates, output)
  }

  // A candidate reaches across the position.
  ghost predicate Bridged(candidates: seq<Span>, p: int) {
    exists c :: c in candidates && c.start < p < c.end
  }

  // Every position inside the span is bridged, so the span is no longer than the overlaps demand.
  ghost predicate Connected(candidates: seq<Span>, o: Span) {
    forall p {:trigger Bridged(candidates, p)} | o.start < p < o.end :: Bridged(candidates, p)
  }

  ghost predicate AllConnected(candidates: seq<Span>, output: seq<Span>) {
    forall o {:trigger Connected(candidates, o)} | o in output :: Connected(candidates, o)
  }

  lemma BridgedMore(done: seq<Span>, c: Span, p: int)
    requires Bridged(done, p) || c.start < p < c.end
    ensures Bridged(done + [c], p)
  {
    if Bridged(done, p) {
      var d :| d in done && d.start < p < d.end;
      assert d in done + [c];
    } else {
      assert c in done + [c];
    }
  }

  lemma ConnectedMore(done: seq<Span>, c: Span, o: Span)
    requires Connected(done, o)
    ensures Connected(done + [c], o)
  {
    forall p {:trigger Bridged(done + [c], p)} | o.start < p < o.end
      ensures Bridged(done + [c], p)
    {
      assert Bridged(done, p);
      BridgedMore(done, c, p);
    }
  }

  lemma HiddenSnoc(spans: seq<Span>, c: Span, i: int)
    ensures Hidden(spans + [c], i) <==> Hidden(spans, i) || c.start <= i < c.end
  {
    assert c in spans + [c];
    if Hidden(spans, i) {
      var s :| s in spans && s.start <= i < s.end;
      assert s in spans + [c];
    }
  }

  // Every earlier span ends before the last one starts.
  lemma BeforeLast(output: seq<Span>, o: Span)
    requires Disjoint(output) && output != [] && o in output[..|output| - 1]
    ensures o.end <= output[|output| - 1].start
  {
    var k :| 0 <= k < |output| - 1 && output[k] == o;
  }

  lemma PushCovers(done: seq<Span>, output: seq<Span>, c: Span)
    requires Covers(done, output) && c.start < c.end
    requires output == [] || output[|output| - 1].end <= c.start
    ensures Covers(done + [c], output + [c])
  {
    var more := output + [c];
    assert c in more;
    forall d | d in done + [c]
      ensures Housed(d, more)
    {
      if d in done {
        assert Housed(d, output);
        var o :| o in output && Within(d, o);
        assert o in more;
      } else {
        assert Within(c, c);
      }
    }
    forall k, l | 0 <= k < l < |more|
      ensures more[k].end <= more[l].start
    {
      if l == |output| && k < l - 1 {
        assert output[k] in output && output[l - 1] in output;
        assert output[k].end <= output[l - 1].start;
      }
    }
    forall i
      ensures Hidden(more, i) <==> Hidden(done + [c], i)
    {
      HiddenSnoc(output, c, i);
      HiddenSnoc(done, c, i);
      assert Hidden(output, i) <==> Hidden(done, i);
    }
  }

  lemma SummarisesMore(done: seq<Span>, c: Span, o: Span)
    requires Summarises(done, o) && !Within(c, o)
    ensures Summarises(done + [c], o)
  {
    assert forall x :: x in done + [c] <==> x in done || x == c;
  }

  lemma PushSummarises(done: seq<Span>, output: seq<Span>, c: Span)
    requires UnionOf(done, output) && NonEmpty(done) && c.start < c.end
    requires forall o | o in output :: o.end <= c.start
    ensures SummarisesAll(done + [c], output + [c])
  {
    forall o | o in output
      ensures Summarises(done + [c], o)
    {
      assert Summarises(done, o);
      SummarisesMore(done, c, o);
    }
    forall d | d in done
      ensures !Within(d, c)
    {
      assert Housed(d, output);
      var o :| o in output && Within(d, o);
    }
    assert c in done + [c] && Within(c, c);
    assert forall x :: x in done + [c] && Within(x, c) <==> x == c;
    assert Summarises(done + [c], c);
  }

  function Merge(p: Span, c: Span): Span {
    Span(if c.category.Secret? then Secret else p.category,
         p.start, if p.end < c.end then c.end else p.end, p.sources + c.sources)
  }

  lemma MergeCovers(done: seq<Span>, front: seq<Span>, p: Span, c: Span)
    requires Covers(done, front + [p]) && p.start <= c.start < p.end && c.start < c.end
    ensures Covers(done + [c], front + [Merge(p, c)])
  {
    var q := Merge(p, c);
    var more := front + [q];
    assert q in more && (front + [p])[|front|] == p;
    forall d | d in done + [c]
      ensures Housed(d, more)
    {
      if d in done {
        assert Housed(d, front + [p]);
        var o :| o in front + [p] && Within(d, o);
        if o == p {
          assert Within(d, q);
        } else {
          assert o in more;
        }
      } else {
        assert Within(c, q);
      }
    }
    forall k, l | 0 <= k < l < |more|
      ensures more[k].end <= more[l].start
    {
      assert (front + [p])[k].end <= (front + [p])[l].start;
    }
    forall i
      ensures Hidden(more, i) <==> Hidden(done + [c], i)
    {
      HiddenSnoc(front, p, i);
      HiddenSnoc(front, q, i);
      HiddenSnoc(done, c, i);
      assert Hidden(front + [p], i) <==> Hidden(done, i);
    }
  }

  lemma SummarisesMerged(done: seq<Span>, c: Span, p: Span)
    requires Summarises(done, p) && p.start <= c.start
    requires forall d | d in done :: Within(d, p) <==> Within(d, Merge(p, c))
    ensures Summarises(done + [c], Merge(p, c))
  {
    var q := Merge(p, c);
    assert Within(c, q) && c in done + [c];
    assert forall x :: x in done + [c] <==> x in done || x == c;
    var d :| d in done && Within(d, p) && d.category == p.category;
    assert d in done + [c] && Within(d, q);
  }

  lemma WithinAfterMerge(done: seq<Span>, front: seq<Span>, p: Span, c: Span, d: Span)
    requires NonEmpty(done) && d in done && Housed(d, front + [p])
    requires forall o | o in front :: o.end <= p.start
    ensures Within(d, p) <==> Within(d, Merge(p, c))
  {
    var o :| o in front + [p] && Within(d, o);
  }

  lemma MergeSummarises(done: seq<Span>, front: seq<Span>, p: Span, c: Span)
    requires Covers(done, front + [p]) && SummarisesAll(done, front) && Summarises(done, p)
    requires NonEmpty(done) && p.start <= c.start < c.end
    requires forall o | o in front :: o.end <= p.start
    ensures SummarisesAll(done + [c], front + [Merge(p, c)])
  {
    forall o | o in front
      ensures Summarises(done + [c], o)
    {
      assert Summarises(done, o);
      SummarisesMore(done, c, o);
    }
    forall d | d in done
      ensures Within(d, p) <==> Within(d, Merge(p, c))
    {
      assert Housed(d, front + [p]);
      WithinAfterMerge(done, front, p, c, d);
    }
    SummarisesMerged(done, c, p);
  }

  // One round of the merging loop.
  function Next(output: seq<Span>, c: Span): seq<Span> {
    if output == [] || c.start >= output[|output| - 1].end then output + [c]
    else output[..|output| - 1] + [Merge(output[|output| - 1], c)]
  }

  lemma PushStep(done: seq<Span>, output: seq<Span>, c: Span)
    requires UnionOf(done, output) && NonEmpty(done) && c.start < c.end
    requires output == [] || output[|output| - 1].end <= c.start
    ensures UnionOf(done + [c], output + [c])
  {
    AllBefore(output, c);
    PushCovers(done, output, c);
    PushSummarises(done, output, c);
  }

  lemma MergeStep(done: seq<Span>, front: seq<Span>, p: Span, c: Span)
    requires UnionOf(done, front + [p]) && NonEmpty(done) && c.start < c.end
    requires p.start <= c.start < p.end
    ensures UnionOf(done + [c], front + [Merge(p, c)])
  {
    forall o | o in front
      ensures o.end <= p.start
    {
      BeforeLast(front + [p], o);
    }
    MergeCovers(done, front, p, c);
    AllSummarised(done, front, p);
    MergeSummarises(done, front, p, c);
  }

  lemma AllSummarised(done: seq<Span>, front: seq<Span>, p: Span)
    requires SummarisesAll(done, front + [p])
    ensures SummarisesAll(done, front) && Summarises(done, p)
  {
    assert p in front + [p] && Summarises(done, p);
    forall o | o in front
      ensures Summarises(done, o)
    {
      assert o in front + [p];
    }
  }

  // The list after merging all of `sorted`, in order.
  function Merged(sorted: seq<Span>): seq<Span> {
    if sorted == [] then [] else Next(Merged(sorted[..|sorted| - 1]), sorted[|sorted| - 1])
  }

  lemma NextIsUnion(done: seq<Span>, output: seq<Span>, c: Span)
    requires UnionOf(done, output) && NonEmpty(done) && c.start < c.end
    requires output != [] ==> output[|output| - 1].start <= c.start
    ensures UnionOf(done + [c], Next(output, c))
  {
    if output == [] || c.start >= output[|output| - 1].end {
      PushStep(done, output, c);
    } else {
      var front, p := output[..|output| - 1], output[|output| - 1];
      SplitLast(output);
      MergeStep(done, front, p, c);
    }
  }

  lemma SortedFront(sorted: seq<Span>)
    requires Sorted(sorted) && NonEmpty(sorted) && sorted != []
    ensures var last := |sorted| - 1;
            && NonEmpty(sorted[..last]) && sorted[last].start < sorted[last].end
            && (last > 0 ==> sorted[..last][last - 1].start <= sorted[last].start)
  {
    var last := |sorted| - 1;
    assert sorted[last] in sorted;
    assert last > 0 ==> Before(sorted[last - 1], sorted[last]);
  }

  lemma SplitLast(spans: seq<Span>)
    requires spans != []
    ensures spans == spans[..|spans| - 1] + [spans[|spans| - 1]]
  {
  }

  lemma EmptyUnion()
    ensures UnionOf([], [])
  {
    assert forall i :: !Hidden([], i);
  }

  lemma {:induction false} MergedLastStart(sorted: seq<Span>)
    requires Sorted(sorted) && NonEmpty(sorted) && sorted != []
    ensures Merged(sorted) != [] && Merged(sorted)[|Merged(sorted)| - 1].start <= sorted[|sorted| - 1].start
  {
    SortedFront(sorted);
    if |sorted| > 1 {
      MergedLastStart(sorted[..|sorted| - 1]);
    }
  }

  lemma {:induction false} MergedIsUnion(sorted: seq<Span>)
    requires Sorted(sorted) && NonEmpty(sorted)
    ensures UnionOf(sorted, Merged(sorted))
  {
    if sorted == [] {
      EmptyUnion();
    } else {
      var last := |sorted| - 1;
      var done, c := sorted[..last], sorted[last];
      SplitLast(sorted);
      SortedFront(sorted);
      if done != [] {
        MergedLastStart(done);
      }
      MergedIsUnion(done);
      NextIsUnion(done, Merged(done), c);
    }
  }

  // Candidate m is the first in order to start where the merged span does, and unless a secret joined it, names it.
  ghost predicate Leads(sorted: seq<Span>, o: Span, m: nat) {
    && m < |sorted| && sorted[m].start == o.start
    && (o.category == sorted[m].category || o.category.Secret?)
    && forall l | 0 <= l < m :: sorted[l].start < o.start
  }

  ghost predicate Led(sorted: seq<Span>, o: Span) {
    exists m: nat :: Leads(sorted, o, m)
  }

  ghost predicate LedByFirst(sorted: seq<Span>, output: seq<Span>) {
    forall k | 0 <= k < |output| :: Led(sorted, output[k])
  }

  lemma LedLonger(done: seq<Span>, c: Span, o: Span, p: Span)
    requires Led(done, o) && p.start == o.start && (p.category == o.category || p.category.Secret?)
    ensures Led(done + [c], p)
  {
    var m: nat :| Leads(done, o, m);
    assert Leads(done + [c], p, m);
  }

  lemma NextLeads(done: seq<Span>, output: seq<Span>, c: Span)
    requires LedByFirst(done, output) && c.start < c.end
    requires forall l | 0 <= l < |done| ::
        done[l].start <= (if output == [] then c.start - 1 else output[|output| - 1].end - 1)
    ensures LedByFirst(done + [c], Next(output, c))
    ensures Next(output, c) != [] && c.start < Next(output, c)[|Next(output, c)| - 1].end
    ensures output != [] ==> output[|output| - 1].end <= Next(output, c)[|Next(output, c)| - 1].end
  {
    var after := Next(output, c);
    forall k | 0 <= k < |after|
      ensures Led(done + [c], after[k])
    {
      if k < |output| {
        assert Led(done, output[k]);
        LedLonger(done, c, output[k], after[k]);
      } else {
        assert Leads(done + [c], c, |done|);
      }
    }
  }

  lemma MergeConnects(done: seq<Span>, p: Span, c: Span)
    requires Connected(done, p) && p.start <= c.start < p.end
    ensures Connected(done + [c], Merge(p, c))
  {
    var q := Merge(p, c);
    forall i {:trigger Bridged(done + [c], i)} | q.start < i < q.end
      ensures Bridged(done + [c], i)
    {
      if i < p.end {
        assert Bridged(done, i);
      }
      BridgedMore(done, c, i);
    }
  }

  lemma PushConnects(done: seq<Span>, c: Span)
    ensures Connected(done + [c], c)
  {
    forall i {:trigger Bridged(done + [c], i)} | c.start < i < c.end
      ensures Bridged(done + [c], i)
    {
      BridgedMore(done, c, i);
    }
  }

  lemma NextConnects(done: seq<Span>, output: seq<Span>, c: Span)
    requires AllConnected(done, output)
    requires output != [] ==> output[|output| - 1].start <= c.start
    ensures AllConnected(done + [c], Next(output, c))
  {
    forall o | o in Next(output, c)
      ensures Connected(done + [c], o)
    {
      if o in output {
        assert Connected(done, o);
        ConnectedMore(done, c, o);
      } else if o == c {
        PushConnects(done, c);
      } else {
        var p := output[|output| - 1];
        assert p in output && Connected(done, p);
        MergeConnects(done, p, c);
      }
    }
  }

  // A merged span is no longer than the overlaps of its candidates demand.
  lemma {:induction false} MergedConnects(sorted: seq<Span>)
    requires Sorted(sorted) && NonEmpty(sorted)
    ensures AllConnected(sorted, Merged(sorted))
  {
    if sorted != [] {
      var done, c := sorted[..|sorted| - 1], sorted[|sorted| - 1];
      SplitLast(sorted);
      SortedFront(sorted);
      if done != [] {
        MergedLastStart(done);
      }
      MergedConnects(done);
      NextConnects(done, Merged(done), c);
    }
  }

  lemma SameBridges(a: seq<Span>, b: seq<Span>, output: seq<Span>)
    requires AllConnected(a, output) && forall x :: x in a <==> x in b
    ensures AllConnected(b, output)
  {
    forall o | o in output
      ensures Connected(b, o)
    {
      assert Connected(a, o);
      forall p {:trigger Bridged(b, p)} | o.start < p < o.end
        ensures Bridged(b, p)
      {
        assert Bridged(a, p);
      }
    }
  }

  lemma StartsUpToLast(sorted: seq<Span>)
    requires Sorted(sorted) && sorted != []
    ensures forall l | 0 <= l < |sorted| :: sorted[l].start <= sorted[|sorted| - 1].start
  {
    forall l | 0 <= l < |sorted| - 1
      ensures sorted[l].start <= sorted[|sorted| - 1].start
    {
      assert Before(sorted[l], sorted[|sorted| - 1]);
    }
  }

  /** A merged span is called what its first candidate is called, unless it is a secret. */
  lemma {:induction false} MergedLeads(sorted: seq<Span>)
    requires Sorted(sorted) && NonEmpty(sorted)
    ensures LedByFirst(sorted, Merged(sorted))
    ensures sorted != [] ==>
              && Merged(sorted) != []
              && sorted[|sorted| - 1].start < Merged(sorted)[|Merged(sorted)| - 1].end
  {
    if sorted != [] {
      var done, c := sorted[..|sorted| - 1], sorted[|sorted| - 1];
      SplitLast(sorted);
      SortedFront(sorted);
      MergedLeads(done);
      if done != [] {
        StartsUpToLast(done);
      }
      NextLeads(done, Merged(done), c);
    }
  }

  lemma MergedNext(sorted: seq<Span>, n: nat)
    requires n < |sorted|
    ensures Merged(sorted[..n + 1]) == Next(Merged(sorted[..n]), sorted[n])
  {
    assert sorted[..n + 1][..n] == sorted[..n];
  }

  lemma MergedWhole(candidates: seq<Span>)
    requires NonEmpty(candidates)
    ensures Merged(ByStart(candidates)[..|ByStart(candidates)|]) == Merged(ByStart(candidates))
    ensures UnionOf(candidates, Merged(ByStart(candidates)))
    ensures LedByFirst(ByStart(candidates), Merged(ByStart(candidates)))
    ensures AllConnected(candidates, Merged(ByStart(candidates)))
  {
    assert ByStart(candidates)[..|ByStart(candidates)|] == ByStart(candidates);
    UnionOfSorted(candidates);
    ByStartSorts(candidates);
    MergedLeads(ByStart(candidates));
    MergedConnects(ByStart(candidates));
    SameBridges(ByStart(candidates), candidates, Merged(ByStart(candidates)));
  }

  /**
    Merging loses nothing: the merged spans are disjoint, hide exactly the positions the candidates
    hide, and each is labelled secret and names its detectors by what it swallowed.
   */
  method UnionSpans(candidates: seq<Span>) returns (output: seq<Span>)
    requires NonEmpty(candidates)
    ensures UnionOf(candidates, output)
    ensures LedByFirst(ByStart(candidates), output)
    ensures AllConnected(candidates, output)
  {
    var sorted := ByStart(candidates);
    output := [];
    for n := 0 to |sorted|
      invariant output == Merged(sorted[..n])
    {
      var c := sorted[n];
      MergedNext(sorted, n);
      if output == [] || c.start >= output[|output| - 1].end {
        output := output + [c];
      } else {
        output := output[..|output| - 1] + [Merge(output[|output| - 1], c)];
      }
    }
    MergedWhole(candidates);
  }

  lemma UnionOfSorted(candidates: seq<Span>)
    requires NonEmpty(candidates)
    ensures UnionOf(candidates, Merged(ByStart(candidates)))
  {
    ByStartSorts(candidates);
    MergedIsUnion(ByStart(candidates));
    SameMembers(ByStart(candidates), candidates, Merged(ByStart(candidates)));
  }

  lemma AllBefore(output: seq<Span>, c: Span)
    requires NonEmpty(output) && Disjoint(output) && (output == [] || output[|output| - 1].end <= c.start)
    ensures forall o | o in output :: o.end <= c.start
  {
    forall o | o in output
      ensures o.end <= c.start
    {
      if o in output[..|output| - 1] {
        BeforeLast(output, o);
        assert output[|output| - 1] in output;
      }
    }
  }

  lemma SameMembers(a: seq<Span>, b: seq<Span>, output: seq<Span>)
    requires UnionOf(a, output) && forall x :: x in a <==> x in b
    ensures UnionOf(b, output)
  {
    forall i
      ensures Hidden(output, i) <==> Hidden(b, i)
    {
      assert Hidden(output, i) <==> Hidden(a, i);
    }
    forall c | c in b
      ensures Housed(c, output)
    {
      assert c in a && Housed(c, output);
    }
    forall o | o in output
      ensures Summarises(b, o)
    {
      assert Summarises(a, o);
    }
  }

  // ----- Equal ranges stay in order -----

  // The spans with this range, in order.
  function Ranged(spans: seq<Span>, start: nat, end: nat): seq<Span> {
    if spans == [] then []
    else
      var last := spans[|spans| - 1];
      Ranged(spans[..|spans| - 1], start, end) + if last.start == start && last.end == end then [last] else []
  }

  lemma RangedSnoc(spans: seq<Span>, last: Span, start: nat, end: nat)
    ensures Ranged(spans + [last], start, end)
         == Ranged(spans, start, end) + if last.start == start && last.end == end then [last] else []
  {
    assert (spans + [last])[..|spans|] == spans;
  }

  lemma {:induction false} InsertRanged(sorted: seq<Span>, x: Span, start: nat, end: nat)
    ensures Ranged(Insert(Before, sorted, x), start, end) == Ranged(sorted + [x], start, end)
  {
    if sorted != [] && !Before(sorted[|sorted| - 1], x) {
      var front, last := sorted[..|sorted| - 1], sorted[|sorted| - 1];
      SplitLast(sorted);
      InsertRanged(front, x, start, end);
      RangedSnoc(Insert(Before, front, x), last, start, end);
      RangedSnoc(front, x, start, end);
      RangedSnoc(sorted, x, start, end);
      RangedSnoc(front, last, start, end);
    }
  }

  // Sorting is stable: spans with the same range keep their order.
  lemma {:induction false} SortRanged(spans: seq<Span>, start: nat, end: nat)
    ensures Ranged(ByStart(spans), start, end) == Ranged(spans, start, end)
  {
    if spans != [] {
      var front, last := spans[..|spans| - 1], spans[|spans| - 1];
      SortRanged(front, start, end);
      InsertRanged(ByStart(front), last, start, end);
      RangedSnoc(ByStart(front), last, start, end);
      RangedSnoc(front, last, start, end);
      SplitLast(spans);
    }
  }

  // The first span with a range is the first of the spans with that range.
  lemma {:induction false} RangedFirst(spans: seq<Span>, k: nat)
    requires k < |spans|
    requires forall i | 0 <= i < k :: spans[i].start != spans[k].start || spans[i].end != spans[k].end
    ensures var ranged := Ranged(spans, spans[k].start, spans[k].end); ranged != [] && ranged[0] == spans[k]
  {
    if k < |spans| - 1 {
      RangedFirst(spans[..|spans| - 1], k);
    } else {
      RangedNone(spans[..k], spans[k].start, spans[k].end);
    }
  }

  lemma {:induction false} RangedNone(spans: seq<Span>, start: nat, end: nat)
    requires forall i | 0 <= i < |spans| :: spans[i].start != start || spans[i].end != end
    ensures Ranged(spans, start, end) == []
  {
    if spans != [] {
      RangedNone(spans[..|spans| - 1], start, end);
    }
  }
}
