/** Reading a stored tool result: the lines around each match, and the pages of a window.

The source computes in 64-bit integers and its caller chooses context, offset and limit, so the two sums that can wrap
are modelled with their wrap-around. A slice expression whose bounds are out of order stops the program; that is the
outcome Panic. A string, and a slice of strings, holds at most 2^62 elements. */
module Grep {
  import opened Wrappers

  const TWO62: int := 0x4000_0000_0000_0000
  const TWO63: int := 0x8000_0000_0000_0000
  const DEFAULT_GREP_LINES := 200
  const DEFAULT_READ := 4000

  predicate IsInt(x: int) { -TWO63 <= x < TWO63 }

  /** The sum as a 64-bit integer holds it. */
  function Wrap(x: int): int { if x >= TWO63 then x - 2 * TWO63 else x }

  function Min(a: int, b: int): int { if a < b then a else b }

  function Max(a: int, b: int): int { if a < b then b else a }

  // ---------------------------------------------------------------- matches

  ghost predicate Increasing(hits: seq<int>) { forall i, j :: 0 <= i < j < |hits| ==> hits[i] < hits[j] }

  ghost predicate ExactHits(lines: seq<string>, matches: string -> bool, n: int, hits: seq<int>)
    requires 0 <= n <= |lines|
  {
    && Increasing(hits) && (forall k :: 0 <= k < |hits| ==> 0 <= hits[k] < n && matches(lines[hits[k]]))
    && (forall l :: 0 <= l < n && matches(lines[l]) ==> l in hits)
  }

  function Hits(lines: seq<string>, matches: string -> bool): seq<int> {
    if lines == [] then []
    else
      var n := |lines| - 1;
      Hits(lines[..n], matches) + if matches(lines[n]) then [n] else []
  }

  /** Hits are exactly the matching lines, in order. */
  lemma {:induction false} HitsAreExact(lines: seq<string>, matches: string -> bool)
    ensures ExactHits(lines, matches, |lines|, Hits(lines, matches))
  {
    if lines != [] {
      var n := |lines| - 1;
      HitsAreExact(lines[..n], matches);
      ExactBack(lines, matches, Hits(lines[..n], matches));
    }
  }

  lemma ExactBack(lines: seq<string>, matches: string -> bool, hits: seq<int>)
    requires lines != [] && ExactHits(lines[..|lines| - 1], matches, |lines| - 1, hits)
    ensures ExactHits(lines, matches, |lines|, hits + if matches(lines[|lines| - 1]) then [|lines| - 1] else [])
  {
    var n := |lines| - 1;
    var all := hits + if matches(lines[n]) then [n] else [];
    forall l | 0 <= l <= n && matches(lines[l]) ensures l in all {
      if l < n { assert lines[..n][l] == lines[l]; }
    }
    forall k | 0 <= k < |hits| ensures matches(lines[hits[k]]) { assert lines[..n][hits[k]] == lines[hits[k]]; }
  }

  method FindHits(lines: seq<string>, matches: string -> bool) returns (hits: seq<int>)
    ensures hits == Hits(lines, matches)
  {
    hits := [];
    for i := 0 to |lines|
      invariant hits == Hits(lines[..i], matches)
    {
      assert lines[..i + 1][..i] == lines[..i];
      if matches(lines[i]) { hits := hits + [i]; }
    }
    assert lines[..|lines|] == lines;
  }

  // ---------------------------------------------------------------- widening and merging

  datatype Span = Span(start: int, end: int)

  function Widened(h: int, ctx: int, n: int): Span { Span(Max(0, h - ctx), Min(n, Wrap(h + ctx + 1))) }

  /** Spans of lines, in order, with at least one line between any two. */
  ghost predicate Separate(spans: seq<Span>, n: int) {
    && (forall i :: 0 <= i < |spans| ==> 0 <= spans[i].start < spans[i].end <= n)
    && (forall i, j :: 0 <= i < j < |spans| ==> spans[i].end < spans[j].start)
  }

  ghost predicate Covered(spans: seq<Span>, l: int) {
    exists i :: 0 <= i < |spans| && spans[i].start <= l < spans[i].end
  }

  ghost predicate Near(hits: seq<int>, ctx: int, l: int) {
    exists k :: 0 <= k < |hits| && hits[k] - ctx <= l <= hits[k] + ctx
  }

  ghost predicate IsCover(spans: seq<Span>, hits: seq<int>, ctx: int, n: int) {
    Separate(spans, n) && forall l :: 0 <= l < n ==> (Covered(spans, l) <==> Near(hits, ctx, l))
  }

  /** What the merge loop keeps: the cover so far, whose last span ends with the reach of the last hit. */
  ghost predicate Merged(spans: seq<Span>, hits: seq<int>, ctx: int, n: int) {
    && hits != [] && spans != [] && IsCover(spans, hits, ctx, n)
    && spans[|spans| - 1].end == Min(n, hits[|hits| - 1] + ctx + 1)
    && spans[|spans| - 1].start <= Max(0, hits[|hits| - 1] - ctx)
  }

  function MergeOne(spans: seq<Span>, s: Span): seq<Span> {
    var n := |spans|;
    if n > 0 && s.start <= spans[n - 1].end then
      (if s.end > spans[n - 1].end then spans[n - 1 := Span(spans[n - 1].start, s.end)] else spans)
    else spans + [s]
  }

  lemma NearBack(hits: seq<int>, h: int, ctx: int, l: int)
    ensures Near(hits + [h], ctx, l) <==> Near(hits, ctx, l) || h - ctx <= l <= h + ctx
  {
    if Near(hits, ctx, l) {
      var k :| 0 <= k < |hits| && hits[k] - ctx <= l <= hits[k] + ctx;
      assert (hits + [h])[k] == hits[k];
    }
    if h - ctx <= l <= h + ctx { assert (hits + [h])[|hits|] == h; }
  }

  lemma CoveredBack(front: seq<Span>, s: Span, l: int)
    ensures Covered(front + [s], l) <==> Covered(front, l) || s.start <= l < s.end
  {
    if Covered(front, l) {
      var i :| 0 <= i < |front| && front[i].start <= l < front[i].end;
      assert (front + [s])[i] == front[i];
    }
    if s.start <= l < s.end { assert (front + [s])[|front|] == s; }
  }

  lemma MergedFirst(h: int, ctx: int, n: int)
    requires 0 <= h < n && 0 <= ctx && h + ctx + 1 < TWO63
    ensures Merged([Widened(h, ctx, n)], [h], ctx, n)
  {
    var s := Widened(h, ctx, n);
    forall l | 0 <= l < n ensures Covered([s], l) <==> Near([h], ctx, l) {
      CoveredBack([], s, l);
      NearBack([], h, ctx, l);
      assert [] + [s] == [s] && [] + [h] == [h];
    }
  }

  /** When a later hit's reach wraps, everything is covered already. */
  lemma WrapIsHarmless(spans: seq<Span>, hits: seq<int>, h: int, ctx: int, n: int)
    requires Merged(spans, hits, ctx, n) && 0 <= hits[|hits| - 1] < h < n <= TWO62 && 0 <= ctx
    requires h + ctx + 1 >= TWO63
    ensures spans[|spans| - 1] == Span(0, n)
  {
    var last := spans[|spans| - 1];
    assert ctx >= n && last.end == n;
    assert last.start <= 0;
  }

  lemma JoinKeeps(front: seq<Span>, last: Span, hits: seq<int>, h: int, ctx: int, n: int, end: int)
    requires Merged(front + [last], hits, ctx, n) && hits[|hits| - 1] < h < n && 0 <= ctx
    requires Max(0, h - ctx) <= last.end && end == Min(n, h + ctx + 1)
    ensures Merged(front + [Span(last.start, end)], hits + [h], ctx, n)
  {
    var spans, joined := front + [last], Span(last.start, end);
    assert spans[|front|] == last;
    forall i | 0 <= i < |front| ensures spans[i] == front[i] {}
    forall l | 0 <= l < n ensures Covered(front + [joined], l) <==> Near(hits + [h], ctx, l) {
      CoveredBack(front, last, l);
      CoveredBack(front, joined, l);
      NearBack(hits, h, ctx, l);
      assert Covered(spans, l) <==> Near(hits, ctx, l);
    }
  }

  lemma AppendKeeps(spans: seq<Span>, hits: seq<int>, h: int, ctx: int, n: int)
    requires Merged(spans, hits, ctx, n) && hits[|hits| - 1] < h < n && 0 <= ctx && h + ctx + 1 < TWO63
    requires spans[|spans| - 1].end < Max(0, h - ctx)
    ensures Merged(spans + [Widened(h, ctx, n)], hits + [h], ctx, n)
  {
    var s := Widened(h, ctx, n);
    forall l | 0 <= l < n ensures Covered(spans + [s], l) <==> Near(hits + [h], ctx, l) {
      CoveredBack(spans, s, l);
      NearBack(hits, h, ctx, l);
      assert Covered(spans, l) <==> Near(hits, ctx, l);
    }
  }

  lemma MergeKeeps(spans: seq<Span>, hits: seq<int>, h: int, ctx: int, n: int)
    requires Merged(spans, hits, ctx, n) && 0 <= hits[|hits| - 1] < h < n <= TWO62 && 0 <= ctx < TWO63
    ensures Merged(MergeOne(spans, Widened(h, ctx, n)), hits + [h], ctx, n)
  {
    var s, m := Widened(h, ctx, n), |spans| - 1;
    var front, last := spans[..m], spans[m];
    assert spans == front + [last];
    if h + ctx + 1 >= TWO63 { WrapIsHarmless(spans, hits, h, ctx, n); }
    var end := Min(n, h + ctx + 1);
    assert last.end <= end;
    hide IsCover;
    if s.start <= last.end {
      assert MergeOne(spans, s) == front + [Span(last.start, end)];
      JoinKeeps(front, last, hits, h, ctx, n, end);
    } else {
      AppendKeeps(spans, hits, h, ctx, n);
    }
  }

  function MergeAll(hits: seq<int>, ctx: int, n: int): seq<Span> {
    if hits == [] then [] else MergeOne(MergeAll(hits[..|hits| - 1], ctx, n), Widened(hits[|hits| - 1], ctx, n))
  }

  ghost predicate Lines(hits: seq<int>, n: int) {
    hits != [] && Increasing(hits) && forall k :: 0 <= k < |hits| ==> 0 <= hits[k] < n
  }

  /** The merged spans cover exactly the lines within ctx of a match, unless the first match's reach wraps. */
  lemma {:induction false} MergeCovers(hits: seq<int>, ctx: int, n: int)
    requires Lines(hits, n) && n <= TWO62 && 0 <= ctx < TWO63 && hits[0] + ctx + 1 < TWO63
    ensures Merged(MergeAll(hits, ctx, n), hits, ctx, n)
  {
    var m := |hits| - 1;
    var front, h := hits[..m], hits[m];
    assert hits == front + [h];
    if front == [] {
      MergedFirst(h, ctx, n);
      assert hits == [h] && MergeAll(front, ctx, n) == [];
      assert MergeAll(hits, ctx, n) == [Widened(h, ctx, n)];
    } else {
      assert hits[m - 1] < h;
      MergeCovers(front, ctx, n);
      hide Merged;
      MergeKeeps(MergeAll(front, ctx, n), front, h, ctx, n);
    }
  }

  /** If it does wrap, the first span's bounds are out of order and stay so. */
  lemma {:induction false} MergeBreaks(hits: seq<int>, ctx: int, n: int)
    requires Lines(hits, n) && n <= TWO62 && 0 <= ctx < TWO63 && hits[0] + ctx + 1 >= TWO63
    ensures var spans := MergeAll(hits, ctx, n); spans != [] && spans[0].start == 0 && spans[0].end < 0
  {
    if |hits| > 1 {
      MergeBreaks(hits[..|hits| - 1], ctx, n);
    } else {
      assert MergeAll(hits[..0], ctx, n) == [];
    }
  }

  method MergeSpans(n: int, hits: seq<int>, ctx: int) returns (spans: seq<Span>)
    ensures spans == MergeAll(hits, ctx, n)
  {
    spans := [];
    for k := 0 to |hits|
      invariant spans == MergeAll(hits[..k], ctx, n)
    {
      assert hits[..k + 1][..k] == hits[..k];
      var s := Span(Max(0, hits[k] - ctx), Min(n, Wrap(hits[k] + ctx + 1)));
      var last := |spans| - 1;
      if last >= 0 && s.start <= spans[last].end {
        if s.end > spans[last].end { spans := spans[last := Span(spans[last].start, s.end)]; }
        continue;
      }
      spans := spans + [s];
    }
    assert hits[..|hits|] == hits;
  }

  // ---------------------------------------------------------------- showing within the limit

  function Size(spans: seq<Span>): int {
    if spans == [] then 0 else Size(spans[..|spans| - 1]) + (spans[|spans| - 1].end - spans[|spans| - 1].start)
  }

  lemma {:induction false} SizeAppend(a: seq<Span>, b: seq<Span>)
    ensures Size(a + b) == Size(a) + Size(b)
  {
    if b == [] {
      assert a + b == a;
    } else {
      SizeAppend(a, b[..|b| - 1]);
      assert (a + b)[..|a + b| - 1] == a + b[..|b| - 1];
    }
  }

  lemma SizeSplits(spans: seq<Span>, k: nat)
    requires k <= |spans|
    ensures Size(spans[..k]) + Size(spans[k..]) == Size(spans)
  {
    hide Size;
    SizeAppend(spans[..k], spans[k..]);
    assert spans[..k] + spans[k..] == spans;
  }

  /** Lines start up to end. */
  function Interval(start: int, end: int): (r: set<int>)
    requires start <= end
    ensures (forall l :: l in r <==> start <= l < end) && |r| == end - start
    decreases end - start
  {
    if start == end then {} else Interval(start, end - 1) + {end - 1}
  }

  function Cover(spans: seq<Span>): set<int>
    requires forall i :: 0 <= i < |spans| ==> spans[i].start <= spans[i].end
  {
    if spans == [] then {} else Cover(spans[..|spans| - 1]) + Interval(spans[|spans| - 1].start, spans[|spans| - 1].end)
  }

  lemma {:induction false} CoverIsCovered(spans: seq<Span>, l: int)
    requires forall i :: 0 <= i < |spans| ==> spans[i].start <= spans[i].end
    ensures l in Cover(spans) <==> Covered(spans, l)
  {
    if spans != [] {
      var front, s := spans[..|spans| - 1], spans[|spans| - 1];
      CoverIsCovered(front, l);
      assert spans == front + [s];
      CoveredBack(front, s, l);
    }
  }

  /** Separate spans hold as many lines as they cover. */
  lemma {:induction false} SizeIsCover(spans: seq<Span>, n: int)
    requires Separate(spans, n)
    ensures Size(spans) == |Cover(spans)|
  {
    if spans != [] {
      var front, s := spans[..|spans| - 1], spans[|spans| - 1];
      SizeIsCover(front, n);
      forall l | l in Cover(front) ensures l < s.start {
        CoverIsCovered(front, l);
      }
      assert Cover(front) !! Interval(s.start, s.end);
    }
  }

  datatype Row = Line(text: string) | Separator | More(hidden: int, blocks: int, limit: int)

  function Rows(text: seq<string>): (r: seq<Row>)
    ensures |r| == |text| && forall i :: 0 <= i < |r| ==> r[i] == Line(text[i])
  {
    seq(|text|, i requires 0 <= i < |text| => Line(text[i]))
  }

  /** The span may be sliced out of n lines. */
  predicate InBounds(s: Span, n: int) { 0 <= s.start <= s.end <= n }

  ghost predicate AllInBounds(spans: seq<Span>, n: int) { forall i :: 0 <= i < |spans| ==> InBounds(spans[i], n) }

  /** Blocks of lines with a separator between them. */
  function Blocks(lines: seq<string>, spans: seq<Span>): seq<Row>
    requires AllInBounds(spans, |lines|)
  {
    if spans == [] then []
    else
      var front, s := spans[..|spans| - 1], spans[|spans| - 1];
      Blocks(lines, front) + (if front == [] then [] else [Separator]) + Rows(lines[s.start..s.end])
  }

  // ---------------------------------------------------------------- what the rows show

  /** The numbered lines as rows, with a separator wherever lines are skipped. */
  ghost function Listing(lines: seq<string>, nums: seq<int>): seq<Row>
    requires forall i :: 0 <= i < |nums| ==> 0 <= nums[i] < |lines|
  {
    if nums == [] then []
    else
      var front, l := nums[..|nums| - 1], nums[|nums| - 1];
      Listing(lines, front)
      + (if front != [] && front[|front| - 1] + 1 != l then [Separator] else []) + [Line(lines[l])]
  }

  ghost function Numbers(start: int, end: int): (r: seq<int>)
    requires start <= end
    ensures |r| == end - start && forall i :: 0 <= i < |r| ==> r[i] == start + i
  {
    seq(end - start, i requires 0 <= i < end - start => start + i)
  }

  /** The numbers of the lines in spans. */
  ghost function NumbersOf(spans: seq<Span>): seq<int>
    requires forall i :: 0 <= i < |spans| ==> spans[i].start <= spans[i].end
  {
    if spans == [] then [] else NumbersOf(spans[..|spans| - 1]) + Numbers(spans[|spans| - 1].start, spans[|spans| - 1].end)
  }

  lemma ListingBack(lines: seq<string>, nums: seq<int>, l: int)
    requires (forall i :: 0 <= i < |nums| ==> 0 <= nums[i] < |lines|) && 0 <= l < |lines|
    ensures Listing(lines, nums + [l]) ==
              Listing(lines, nums) + (if nums != [] && nums[|nums| - 1] + 1 != l then [Separator] else []) + [Line(lines[l])]
  {
    assert (nums + [l])[..|nums|] == nums;
  }

  /** A block of lines that does not follow at once on what came before adds a separator and the lines. */
  lemma {:induction false} ListingBlock(lines: seq<string>, nums: seq<int>, start: int, end: int)
    requires forall i :: 0 <= i < |nums| ==> 0 <= nums[i] < |lines|
    requires 0 <= start < end <= |lines| && (nums != [] ==> nums[|nums| - 1] + 1 != start)
    ensures Listing(lines, nums + Numbers(start, end))
         == Listing(lines, nums) + (if nums == [] then [] else [Separator]) + Rows(lines[start..end])
    decreases end
  {
    var l := end - 1;
    hide Listing;
    if start == l {
      assert Numbers(start, end) == [l] && Rows(lines[start..end]) == [Line(lines[l])];
      ListingBack(lines, nums, l);
    } else {
      var before := nums + Numbers(start, l);
      ListingBlock(lines, nums, start, l);
      ListingBack(lines, before, l);
      assert nums + Numbers(start, end) == before + [l];
      assert Rows(lines[start..end]) == Rows(lines[start..l]) + [Line(lines[l])];
      var a, b, c := Listing(lines, nums), Rows(lines[start..l]), [Line(lines[l])];
      assert Listing(lines, before) + [] + c == Listing(lines, before) + c;
    }
  }

  /** nums are the numbers of the lines in spans, in order. */
  ghost predicate Numbered(nums: seq<int>, spans: seq<Span>, n: int) {
    && Increasing(nums) && |nums| == Size(spans) && (forall l :: l in nums <==> Covered(spans, l))
    && (forall i :: 0 <= i < |nums| ==> 0 <= nums[i] < n)
    && (spans == [] <==> nums == [])
    && (spans != [] ==> nums[|nums| - 1] == spans[|spans| - 1].end - 1)
  }

  lemma {:induction false} NumbersCover(spans: seq<Span>, n: int)
    requires Separate(spans, n)
    ensures (forall i :: 0 <= i < |spans| ==> spans[i].start <= spans[i].end) && Numbered(NumbersOf(spans), spans, n)
    decreases |spans|
  {
    hide *;
    if spans == [] {
      NoneCovered(n);
    } else {
      var front, s := SeparateBack(spans, n);
      NumbersCover(front, n);
      NumbersStep(NumbersOf(front), front, s, n);
    }
  }

  lemma NoneCovered(n: int)
    ensures NumbersOf([]) == [] && Numbered([], [], n)
  {
  }

  lemma SeparateBack(spans: seq<Span>, n: int) returns (front: seq<Span>, s: Span)
    requires Separate(spans, n) && spans != []
    ensures spans == front + [s] && Separate(front, n) && 0 <= s.start < s.end <= n
    ensures front != [] ==> front[|front| - 1].end < s.start
    ensures (forall i :: 0 <= i < |front| ==> front[i].start <= front[i].end)
         && NumbersOf(spans) == NumbersOf(front) + Numbers(s.start, s.end)
  {
    front, s := spans[..|spans| - 1], spans[|spans| - 1];
    hide Numbers;
  }

  lemma NumbersStep(before: seq<int>, front: seq<Span>, s: Span, n: int)
    requires 0 <= s.start < s.end <= n && Numbered(before, front, n)
    requires front != [] ==> front[|front| - 1].end < s.start
    ensures Numbered(before + Numbers(s.start, s.end), front + [s], n)
  {
    var here, spans := Numbers(s.start, s.end), front + [s];
    var nums := before + here;
    InNumbers(s.start, s.end);
    assert Size(spans) == Size(front) + (s.end - s.start) by { assert spans[..|front|] == front; }
    forall l ensures l in nums <==> Covered(spans, l) { CoveredBack(front, s, l); }
    hide Covered, Numbers, Size;
    assert forall i :: 0 <= i < |before| ==> before[i] <= before[|before| - 1];
  }

  lemma InNumbers(start: int, end: int)
    requires start <= end
    ensures forall l :: l in Numbers(start, end) <==> start <= l < end
  {
    var here := Numbers(start, end);
    forall l | start <= l < end ensures l in here { assert here[l - start] == l; }
  }

  /** The blocks of separate spans are the lines they cover, in order, with a separator wherever lines are skipped. */
  lemma {:induction false} BlocksList(lines: seq<string>, spans: seq<Span>)
    requires Separate(spans, |lines|) && AllInBounds(spans, |lines|)
    ensures forall i :: 0 <= i < |NumbersOf(spans)| ==> 0 <= NumbersOf(spans)[i] < |lines|
    ensures Blocks(lines, spans) == Listing(lines, NumbersOf(spans))
  {
    hide Covered, Increasing, Size;
    NumbersCover(spans, |lines|);
    if spans != [] {
      var m := |spans| - 1;
      var front, s := spans[..m], spans[m];
      BlocksList(lines, front);
      NumbersCover(front, |lines|);
      assert front != [] ==> front[m - 1].end < s.start;
      hide Listing, Rows;
      ListingBlock(lines, NumbersOf(front), s.start, s.end);
    }
  }

  /** nums are the first of the lines within ctx of a match. */
  ghost predicate FirstNear(nums: seq<int>, hits: seq<int>, ctx: int, n: int) {
    && Increasing(nums) && (forall i :: 0 <= i < |nums| ==> 0 <= nums[i] < n && Near(hits, ctx, nums[i]))
    && (forall l, i :: 0 <= l < n && Near(hits, ctx, l) && l !in nums && 0 <= i < |nums| ==> nums[i] < l)
  }

  lemma ShownAreFirst(spans: seq<Span>, blocks: nat, hits: seq<int>, ctx: int, n: int)
    requires IsCover(spans, hits, ctx, n) && blocks <= |spans|
    ensures Separate(spans[..blocks], n) && FirstNear(NumbersOf(spans[..blocks]), hits, ctx, n)
    ensures |NumbersOf(spans[..blocks])| == Size(spans[..blocks])
  {
    var some := spans[..blocks];
    assert Separate(some, n);
    NumbersCover(some, n);
    hide Near, NumbersOf, Size, Increasing, Covered, Separate;
    var nums := NumbersOf(some);
    forall i | 0 <= i < |nums| ensures Near(hits, ctx, nums[i]) {
      assert nums[i] in nums;
      CoveredLater(spans, blocks, nums[i]);
    }
    forall l, i | 0 <= l < n && Near(hits, ctx, l) && l !in nums && 0 <= i < |nums| ensures nums[i] < l {
      assert nums[i] in nums;
      LaterSpan(spans, blocks, nums[i], l, n);
    }
  }

  lemma CoveredLater(spans: seq<Span>, blocks: nat, l: int)
    requires blocks <= |spans| && Covered(spans[..blocks], l)
    ensures Covered(spans, l)
  {
    var k :| 0 <= k < blocks && spans[..blocks][k].start <= l < spans[..blocks][k].end;
    assert spans[k] == spans[..blocks][k];
  }

  lemma LaterSpan(spans: seq<Span>, blocks: nat, early: int, late: int, n: int)
    requires Separate(spans, n) && blocks <= |spans| && Covered(spans[..blocks], early)
    requires Covered(spans, late) && !Covered(spans[..blocks], late)
    ensures early < late
  {
    var k :| 0 <= k < blocks && spans[..blocks][k].start <= early < spans[..blocks][k].end;
    var j :| 0 <= j < |spans| && spans[j].start <= late < spans[j].end;
    assert j >= blocks by {
      assert forall i :: 0 <= i < blocks ==> spans[..blocks][i] == spans[i];
    }
  }

  /** As many whole spans as fit, counted from the first. */
  ghost predicate Fits(spans: seq<Span>, limit: int, blocks: nat) {
    && blocks <= |spans| && Size(spans[..blocks]) <= limit
    && (blocks < |spans| ==> Size(spans[..blocks + 1]) > limit)
  }

  datatype Shown = NoMatch | Panic | Shown(rows: seq<Row>, shown: int, hidden: int, blocks: nat)

  /** The loop stops the program at the first span that fits but cannot be sliced, if it gets there. */
  method Show(lines: seq<string>, spans: seq<Span>, limit: int)
    returns (stopped: bool, rows: seq<Row>, shown: int, blocks: nat)
    requires limit > 0
    ensures blocks <= |spans| && AllInBounds(spans[..blocks], |lines|)
    ensures shown == Size(spans[..blocks]) && rows == Blocks(lines, spans[..blocks])
    ensures stopped ==> blocks < |spans| && !InBounds(spans[blocks], |lines|) && Size(spans[..blocks + 1]) <= limit
    ensures !stopped ==> Fits(spans, limit, blocks)
  {
    stopped, rows, shown, blocks := false, [], 0, 0;
    while blocks < |spans|
      invariant blocks <= |spans| && shown == Size(spans[..blocks]) && shown <= limit && !stopped
      invariant AllInBounds(spans[..blocks], |lines|)
      invariant rows == Blocks(lines, spans[..blocks])
    {
      var s := spans[blocks];
      assert spans[..blocks + 1][..blocks] == spans[..blocks];
      if shown + (s.end - s.start) > limit { break; }
      if !InBounds(s, |lines|) {
        stopped := true;
        return;
      }
      if blocks > 0 { rows := rows + [Separator]; }
      rows := rows + Rows(lines[s.start..s.end]);
      shown := shown + (s.end - s.start);
      blocks := blocks + 1;
    }
  }

  method Hidden(spans: seq<Span>) returns (hidden: int)
    ensures hidden == Size(spans)
  {
    hidden := 0;
    for i := 0 to |spans|
      invariant hidden == Size(spans[..i])
    {
      assert spans[..i + 1][..i] == spans[..i];
      hidden := hidden + (spans[i].end - spans[i].start);
    }
    assert spans[..|spans|] == spans;
  }

  /** The lines within ctx of a match. */
  ghost function Wanted(hits: seq<int>, ctx: int, n: int): set<int> { set l | 0 <= l < n && Near(hits, ctx, l) }

  lemma CoverIsWanted(spans: seq<Span>, hits: seq<int>, ctx: int, n: int)
    requires IsCover(spans, hits, ctx, n)
    ensures Size(spans) == |Wanted(hits, ctx, n)|
  {
    SizeIsCover(spans, n);
    forall l: int ensures l in Cover(spans) <==> l in Wanted(hits, ctx, n) {
      CoverIsCovered(spans, l);
    }
    assert Cover(spans) == Wanted(hits, ctx, n);
  }

  /** The blocks shown, and a last row that reports the others. */
  function Answer(lines: seq<string>, spans: seq<Span>, blocks: nat, hidden: int, limit: int): seq<Row>
    requires blocks <= |spans| && AllInBounds(spans[..blocks], |lines|)
  {
    Blocks(lines, spans[..blocks]) + if blocks < |spans| then [More(hidden, |spans| - blocks, limit)] else []
  }

  function EffectiveLimit(limit: int): int { if limit <= 0 then DEFAULT_GREP_LINES else limit }

  method ShowWithin(lines: seq<string>, spans: seq<Span>, limit: int) returns (r: Shown)
    requires limit > 0
    ensures !r.NoMatch?
    ensures r.Panic? ==> exists b :: 0 <= b < |spans| && !InBounds(spans[b], |lines|)
    ensures r.Shown? ==> Fits(spans, limit, r.blocks) && AllInBounds(spans[..r.blocks], |lines|)
    ensures r.Shown? ==> r.shown == Size(spans[..r.blocks]) <= limit && r.shown + r.hidden == Size(spans)
    ensures r.Shown? ==> r.rows == Answer(lines, spans, r.blocks, r.hidden, limit)
  {
    hide Blocks, Size, AllInBounds, InBounds;
    var stopped, rows, shown, blocks := Show(lines, spans, limit);
    if stopped { return Panic; }
    var hidden := Hidden(spans[blocks..]);
    SizeSplits(spans, blocks);
    if blocks < |spans| { rows := rows + [More(hidden, |spans| - blocks, limit)]; }
    r := Shown(rows, shown, hidden, blocks);
  }

  lemma SeparateInBounds(spans: seq<Span>, n: int)
    requires Separate(spans, n)
    ensures AllInBounds(spans, n)
  {
  }

  /** A first span that ends before it starts fits any limit, so the loop gets to it. */
  lemma BrokenFirst(spans: seq<Span>, limit: int, blocks: nat, n: int)
    requires spans != [] && spans[0].start == 0 && spans[0].end < 0 && limit > 0 && blocks <= |spans|
    ensures !(Fits(spans, limit, blocks) && AllInBounds(spans[..blocks], n))
  {
    assert spans[..1][..0] == [];
    assert Size(spans[..1]) < 0;
    if blocks > 0 { assert spans[..blocks][0] == spans[0]; }
  }

  /** The row that reports what is not shown, if anything is not. */
  ghost function Rest(lines: seq<string>, matches: string -> bool, ctx: int, limit: int, r: Shown): seq<Row>
    requires r.Shown?
  {
    var spans := MergeAll(Hits(lines, matches), Max(0, ctx), |lines|);
    if r.hidden == 0 then [] else [More(r.hidden, |spans| - r.blocks, if limit > 0 then limit else 200)]
  }

  lemma AnswerLists(lines: seq<string>, spans: seq<Span>, blocks: nat, hits: seq<int>, ctx: int)
    returns (nums: seq<int>)
    requires IsCover(spans, hits, ctx, |lines|) && blocks <= |spans| && AllInBounds(spans[..blocks], |lines|)
    ensures FirstNear(nums, hits, ctx, |lines|) && |nums| == Size(spans[..blocks])
    ensures Blocks(lines, spans[..blocks]) == Listing(lines, nums)
    ensures Size(spans) == Size(spans[..blocks]) <==> blocks == |spans|
  {
    hide FirstNear, Listing, Blocks, Size, NumbersOf, Near, Covered;
    ShownAreFirst(spans, blocks, hits, ctx, |lines|);
    BlocksList(lines, spans[..blocks]);
    SizeSplits(spans, blocks);
    RestHasLines(spans[blocks..], |lines|);
    nums := NumbersOf(spans[..blocks]);
  }

  lemma {:induction false} RestHasLines(spans: seq<Span>, n: int)
    requires forall i :: 0 <= i < |spans| ==> spans[i].start < spans[i].end
    ensures Size(spans) >= 0 && (Size(spans) == 0 <==> spans == [])
  {
    if spans != [] { RestHasLines(spans[..|spans| - 1], n); }
  }

  /** grepLines. With reach the context asked for, at least zero: there is no answer exactly when nothing matches; the
      program stops exactly when the first match's reach wraps; and otherwise the rows are the blocks of the first
      spans that fit in the limit, of a separate cover of exactly the lines within reach of a match, with the number of
      covered lines left out, shown and hidden together being all of them. So the rows are the first of those lines, as
      they stand in the text and in order, with a separator wherever lines are skipped. */
  method GrepLines(lines: seq<string>, matches: string -> bool, ctx: int, limit: int) returns (r: Shown)
    requires IsInt(ctx) && IsInt(limit) && |lines| <= TWO62
    ensures r.NoMatch? <==> Hits(lines, matches) == []
    ensures r.Panic? <==> Hits(lines, matches) != [] && Hits(lines, matches)[0] + Max(0, ctx) + 1 >= TWO63
    ensures var hits := Hits(lines, matches); var spans := MergeAll(hits, Max(0, ctx), |lines|);
            var cap := if limit > 0 then limit else 200;
            r.Shown? ==>
              && IsCover(spans, hits, Max(0, ctx), |lines|) && Fits(spans, cap, r.blocks)
              && AllInBounds(spans[..r.blocks], |lines|)
              && r.shown == Size(spans[..r.blocks]) <= cap
              && r.shown + r.hidden == |Wanted(hits, Max(0, ctx), |lines|)|
              && r.rows == Answer(lines, spans, r.blocks, r.hidden, cap)
    ensures r.Shown? ==>
              exists nums ::
                && FirstNear(nums, Hits(lines, matches), Max(0, ctx), |lines|) && |nums| == r.shown
                && r.rows == Listing(lines, nums) + Rest(lines, matches, ctx, limit, r)
  {
    var reach, cap := Max(0, ctx), EffectiveLimit(limit);
    var hits := FindHits(lines, matches);
    if |hits| == 0 { return NoMatch; }
    var spans := MergeSpans(|lines|, hits, reach);
    hide Hits, MergeAll, Size, Fits, Answer, Wanted, IsCover, AllInBounds;
    MergedSpans(lines, matches, reach);
    r := ShowWithin(lines, spans, cap);
    if hits[0] + reach + 1 < TWO63 {
      NoneOutOfBounds(spans, |lines|);
      ShownLists(lines, matches, ctx, limit, r, spans);
    } else if r.Shown? {
      BrokenFirst(spans, cap, r.blocks, |lines|);
    }
  }

  lemma ShownLists(lines: seq<string>, matches: string -> bool, ctx: int, limit: int, r: Shown, spans: seq<Span>)
    requires r.Shown? && spans == MergeAll(Hits(lines, matches), Max(0, ctx), |lines|)
    requires IsCover(spans, Hits(lines, matches), Max(0, ctx), |lines|) && r.blocks <= |spans|
    requires AllInBounds(spans[..r.blocks], |lines|)
    requires r.shown == Size(spans[..r.blocks]) && r.shown + r.hidden == Size(spans)
    requires r.rows == Answer(lines, spans, r.blocks, r.hidden, if limit > 0 then limit else 200)
    ensures exists nums ::
              && FirstNear(nums, Hits(lines, matches), Max(0, ctx), |lines|) && |nums| == r.shown
              && r.rows == Listing(lines, nums) + Rest(lines, matches, ctx, limit, r)
  {
    hide Hits, MergeAll, Size, IsCover, AllInBounds, Near, Increasing, Listing, Blocks, Separate;
    var nums := AnswerLists(lines, spans, r.blocks, Hits(lines, matches), Max(0, ctx));
    TailIsRest(lines, matches, ctx, limit, r, spans);
  }

  lemma TailIsRest(lines: seq<string>, matches: string -> bool, ctx: int, limit: int, r: Shown, spans: seq<Span>)
    requires r.Shown? && spans == MergeAll(Hits(lines, matches), Max(0, ctx), |lines|)
    requires r.blocks <= |spans| && (r.hidden == 0 <==> r.blocks == |spans|)
    ensures Rest(lines, matches, ctx, limit, r) ==
              if r.blocks < |spans| then [More(r.hidden, |spans| - r.blocks, if limit > 0 then limit else 200)] else []
  {
    hide Hits, MergeAll;
  }

  lemma NoneOutOfBounds(spans: seq<Span>, n: int)
    requires AllInBounds(spans, n)
    ensures !(exists b :: 0 <= b < |spans| && !InBounds(spans[b], n))
  {
  }

  lemma MergedSpans(lines: seq<string>, matches: string -> bool, reach: int)
    requires Hits(lines, matches) != [] && |lines| <= TWO62 && 0 <= reach < TWO63
    ensures var hits := Hits(lines, matches); var spans := MergeAll(hits, reach, |lines|);
            && (hits[0] + reach + 1 < TWO63 ==>
                  && IsCover(spans, hits, reach, |lines|) && AllInBounds(spans, |lines|)
                  && Size(spans) == |Wanted(hits, reach, |lines|)|)
            && (hits[0] + reach + 1 >= TWO63 ==> spans != [] && spans[0].start == 0 && spans[0].end < 0)
  {
    HitsAreExact(lines, matches);
    var hits, n := Hits(lines, matches), |lines|;
    hide Hits, Size, Wanted, MergeAll, AllInBounds;
    if hits[0] + reach + 1 < TWO63 {
      MergeCovers(hits, reach, n);
      SeparateInBounds(MergeAll(hits, reach, n), n);
      CoverIsWanted(MergeAll(hits, reach, n), hits, reach, n);
    } else {
      MergeBreaks(hits, reach, n);
    }
  }

  // ---------------------------------------------------------------- pages

  datatype Page = PastEnd | Broken | Page(text: string, next: Option<int>)

  function EffectiveRead(limit: int): int { if limit <= 0 then DEFAULT_READ else limit }

  /** readToolResult without a pattern. */
  function Window(text: string, offset: int, limit: int): Page {
    var start := Max(0, offset);
    if start >= |text| then PastEnd
    else
      var end := Wrap(start + EffectiveRead(limit));
      if end < start then Broken
      else
        var stop := Min(end, |text|);
        Page(text[start..stop], if stop < |text| then Some(stop) else None)
  }

  /** A page is out of order exactly when the sum of offset and limit wraps. */
  lemma WindowBreaks(text: string, offset: int, limit: int)
    requires IsInt(offset) && IsInt(limit) && |text| < TWO63
    ensures Window(text, offset, limit).Broken?
       <==> Max(0, offset) < |text| && Max(0, offset) + (if limit > 0 then limit else 4000) >= TWO63
  {
  }

  /** A page has limit characters, 4000 unless configured, or what is left, and names the next page only if more is left. */
  lemma PageMovesOn(text: string, offset: int, limit: int)
    requires IsInt(limit) && 0 <= offset && |text| <= TWO62
    ensures var p := Window(text, offset, limit); var size := if limit > 0 then limit else 4000;
            && (p.PastEnd? <==> offset >= |text|)
            && (p.Page? ==> p.next == if offset + size < |text| then Some(offset + size) else None)
            && (p.Page? ==> p.text == if offset + size < |text| then text[offset..offset + size] else text[offset..])
  {
  }

  /** The pages from offset on, read one after the other as each names the next; a page out of order ends the reading. */
  function Pages(text: string, offset: int, limit: int): string
    requires IsInt(limit) && 0 <= offset && |text| <= TWO62
    decreases |text| - offset
  {
    var p := Window(text, offset, limit);
    PageMovesOn(text, offset, limit);
    if !p.Page? then "" else if p.next.None? then p.text else p.text + Pages(text, p.next.value, limit)
  }

  /** Following the pages from any offset reads the rest of the text, exactly when the first page is in order. */
  lemma {:induction false} PagesFrom(text: string, offset: int, limit: int)
    requires IsInt(limit) && 0 <= offset <= |text| <= TWO62
    ensures Pages(text, offset, limit) == text[offset..] <==>
              offset == |text| || offset + (if limit > 0 then limit else 4000) < TWO63
    decreases |text| - offset
  {
    var p := Window(text, offset, limit);
    PageMovesOn(text, offset, limit);
    if p.Page? && p.next.Some? { PagesFrom(text, p.next.value, limit); }
  }

  /** Following the pages from the start reads the whole text, whatever the limit. */
  lemma PagesAreTheText(text: string, limit: int)
    requires IsInt(limit) && |text| <= TWO62
    ensures Pages(text, 0, limit) == text
  {
    PagesFrom(text, 0, limit);
    assert text[0..] == text;
  }
}
