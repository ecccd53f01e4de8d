// GTID set arithmetic: interval lists stand for sets of transaction numbers, and the counting loops
// compute exactly the sizes of intersections and differences.
module Gtid {
  datatype Option<T> = None | Some(value: T)

  const MaxUint64: nat := 0xFFFF_FFFF_FFFF_FFFF

  datatype Interval = Interval(start: nat, end: nat)

  predicate Proper(i: Interval) {
    1 <= i.start <= i.end <= MaxUint64
  }

  predicate AllProper(s: seq<Interval>) {
    forall i | 0 <= i < |s| :: Proper(s[i])
  }

  // The transaction numbers of an interval and of a list of intervals.
  predicate Inside(i: Interval, x: nat) {
    i.start <= x <= i.end
  }

  function Range(i: Interval): set<nat> {
    set x: nat | x <= i.end && Inside(i, x)
  }

  function Points(s: seq<Interval>): set<nat> {
    if s == [] then {} else Range(s[0]) + Points(s[1..])
  }

  // Sorted, disjoint and nowhere adjacent.
  predicate Normal(s: seq<Interval>) {
    AllProper(s) && forall i, j | 0 <= i < j < |s| :: s[i].end + 1 < s[j].start
  }

  lemma {:induction false} PointsAppend(s: seq<Interval>, t: seq<Interval>)
    ensures Points(s + t) == Points(s) + Points(t)
  {
    if s == [] {
      assert s + t == t;
    } else {
      assert (s + t)[1..] == s[1..] + t;
      PointsAppend(s[1..], t);
    }
  }

  lemma LastOfRange(i: Interval)
    requires i.start < i.end
    ensures var j := Interval(i.start, i.end - 1); Range(i) == Range(j) + {i.end} && i.end !in Range(j)
  {}

  lemma {:induction false} RangeSize(i: Interval)
    requires i.start <= i.end
    ensures |Range(i)| == i.end - i.start + 1
    decreases i.end - i.start
  {
    if i.start == i.end {
      assert Range(i) == {i.start};
    } else {
      RangeSize(Interval(i.start, i.end - 1));
      LastOfRange(i);
    }
  }

  // ---- Normalization ----

  // Ordered by start, then by end.
  predicate Before(a: Interval, b: Interval) {
    a.start < b.start || (a.start == b.start && a.end <= b.end)
  }

  predicate Ordered(s: seq<Interval>) {
    forall i, j | 0 <= i < j < |s| :: Before(s[i], s[j])
  }

  // All of `s` comes after `x`.
  predicate AllAfter(x: Interval, s: seq<Interval>) {
    forall i | 0 <= i < |s| :: Before(x, s[i])
  }

  function Insert(x: Interval, s: seq<Interval>): (r: seq<Interval>) {
    if s == [] then [x] else if Before(x, s[0]) then [x] + s else [s[0]] + Insert(x, s[1..])
  }

  lemma {:induction false} InsertKeepsAfter(y: Interval, x: Interval, s: seq<Interval>)
    requires Before(y, x) && AllAfter(y, s)
    ensures AllAfter(y, Insert(x, s))
  {
    if s != [] && !Before(x, s[0]) {
      InsertKeepsAfter(y, x, s[1..]);
    }
  }

  lemma {:induction false} InsertKeepsOrder(x: Interval, s: seq<Interval>)
    requires Proper(x) && AllProper(s) && Ordered(s)
    ensures AllProper(Insert(x, s)) && Ordered(Insert(x, s))
  {
    if s != [] && !Before(x, s[0]) {
      InsertKeepsOrder(x, s[1..]);
      InsertKeepsAfter(s[0], x, s[1..]);
    }
  }

  lemma {:induction false} InsertAddsPoints(x: Interval, s: seq<Interval>)
    ensures Points(Insert(x, s)) == Range(x) + Points(s)
  {
    var r := Insert(x, s);
    assert s != [] && Before(x, s[0]) ==> r[1..] == s;
    if s != [] && !Before(x, s[0]) {
      InsertAddsPoints(x, s[1..]);
      assert r[1..] == Insert(x, s[1..]);
    }
  }

  // Sorting the parsed intervals.
  function Sort(s: seq<Interval>): seq<Interval> {
    if s == [] then [] else Insert(s[0], Sort(s[1..]))
  }

  lemma {:induction false} SortIsSorted(s: seq<Interval>)
    requires AllProper(s)
    ensures AllProper(Sort(s)) && Ordered(Sort(s)) && Points(Sort(s)) == Points(s)
  {
    if s != [] {
      SortIsSorted(s[1..]);
      InsertKeepsOrder(s[0], Sort(s[1..]));
      InsertAddsPoints(s[0], Sort(s[1..]));
    }
  }

  // Whether an interval that starts no earlier overlaps or adjoins the last one.
  predicate Touches(last: Interval, interval: Interval) {
    interval.start <= last.end || (last.end < MaxUint64 && interval.start == last.end + 1)
  }

  function Merged(last: Interval, interval: Interval): Interval {
    Interval(last.start, if interval.end > last.end then interval.end else last.end)
  }

  lemma MergedRange(last: Interval, interval: Interval)
    requires Proper(last) && Proper(interval) && last.start <= interval.start && Touches(last, interval)
    ensures Range(Merged(last, interval)) == Range(last) + Range(interval)
  {}

  lemma MergeKeepsNormal(normalized: seq<Interval>, interval: Interval)
    requires Normal(normalized) && normalized != [] && Proper(interval)
    requires normalized[|normalized| - 1].start <= interval.start
    ensures Normal(normalized[..|normalized| - 1] + [Merged(normalized[|normalized| - 1], interval)])
  {}

  lemma MergeKeepsPoints(normalized: seq<Interval>, interval: Interval)
    requires Normal(normalized) && normalized != [] && Proper(interval)
    requires normalized[|normalized| - 1].start <= interval.start && Touches(normalized[|normalized| - 1], interval)
    ensures var n := |normalized| - 1;
            Points(normalized[..n] + [Merged(normalized[n], interval)]) == Points(normalized) + Range(interval)
  {
    var n := |normalized| - 1;
    MergedRange(normalized[n], interval);
    LastPoints(normalized[..n], normalized[n]);
    LastPoints(normalized[..n], Merged(normalized[n], interval));
    assert normalized == normalized[..n] + [normalized[n]];
  }

  lemma LastPoints(s: seq<Interval>, last: Interval)
    ensures Points(s + [last]) == Points(s) + Range(last)
  {
    PointsAppend(s, [last]);
    assert Points([last]) == Range(last) + Points([last][1..]);
  }

  lemma AppendKeepsPoints(normalized: seq<Interval>, interval: Interval)
    requires Normal(normalized) && Proper(interval)
    requires normalized != [] ==>
             normalized[|normalized| - 1].start <= interval.start && !Touches(normalized[|normalized| - 1], interval)
    ensures Normal(normalized + [interval]) && Points(normalized + [interval]) == Points(normalized) + Range(interval)
  {
    LastPoints(normalized, interval);
  }

  // Merging or appending one interval.
  method AddInterval(normalized: seq<Interval>, interval: Interval) returns (r: seq<Interval>)
    requires Normal(normalized) && Proper(interval)
             && (normalized != [] ==> normalized[|normalized| - 1].start <= interval.start)
    ensures Normal(r) && r != [] && r[|r| - 1].start <= interval.start
            && Points(r) == Points(normalized) + Range(interval)
  {
    var n := |normalized| - 1;
    if n >= 0 && Touches(normalized[n], interval) {
      MergeKeepsPoints(normalized, interval);
      MergeKeepsNormal(normalized, interval);
      r := normalized[..n] + [Merged(normalized[n], interval)];
    } else {
      AppendKeepsPoints(normalized, interval);
      r := normalized + [interval];
    }
  }

  // Merging overlapping and adjacent intervals keeps the set and leaves it normal.
  method Normalize(intervals: seq<Interval>) returns (normalized: seq<Interval>)
    requires AllProper(intervals)
    ensures Normal(normalized) && Points(normalized) == Points(intervals)
    ensures forall i | 0 <= i < |normalized| :: 1 <= normalized[i].start <= normalized[i].end <= MaxUint64
    ensures forall i | 0 < i < |normalized| :: normalized[i].start - normalized[i - 1].end > 1
  {
    var sorted := Sort(intervals);
    SortIsSorted(intervals);
    normalized := [];
    for k := 0 to |sorted|
      invariant Normal(normalized) && Points(normalized) == Points(sorted[..k])
      invariant normalized != [] ==> k > 0 && normalized[|normalized| - 1].start <= sorted[k - 1].start
    {
      assert k > 0 ==> Before(sorted[k - 1], sorted[k]);
      LastPoints(sorted[..k], sorted[k]);
      assert sorted[..k + 1] == sorted[..k] + [sorted[k]];
      normalized := AddInterval(normalized, sorted[k]);
    }
    assert sorted[..|sorted|] == sorted;
  }

  // ---- Counting ----

  // Addition that fails instead of wrapping around.
  function CheckedAdd(left: nat, right: nat): (r: Option<nat>)
    requires left <= MaxUint64 && right <= MaxUint64
    ensures r == (if left + right <= MaxUint64 then Some(left + right) else None)
  {
    if MaxUint64 - left < right then None else Some(left + right)
  }

  lemma {:induction false} PointsBounded(s: seq<Interval>, low: nat)
    requires AllProper(s) && forall i | 0 <= i < |s| :: low <= s[i].start
    ensures forall x | x in Points(s) :: low <= x <= MaxUint64
  {
    if s != [] {
      PointsBounded(s[1..], low);
    }
  }

  // The head of a normal list is disjoint from its tail.
  lemma TailAfterHead(s: seq<Interval>)
    requires Normal(s) && s != []
    ensures forall x | x in Points(s[1..]) :: s[0].end < x
    ensures Normal(s[1..])
  {
    PointsBounded(s[1..], s[0].end + 1);
  }

  lemma {:induction false} SizeBounded(t: set<nat>, bound: nat)
    requires forall x | x in t :: 1 <= x <= bound
    ensures |t| <= bound
    decreases bound
  {
    if bound == 0 {
      assert t == {};
    } else {
      SizeBounded(t - {bound}, bound - 1);
    }
  }

  lemma PointsFit(s: seq<Interval>)
    requires AllProper(s)
    ensures |Points(s)| <= MaxUint64
  {
    PointsBounded(s, 1);
    SizeBounded(Points(s), MaxUint64);
  }

  lemma {:induction false} SplitSize(s: seq<Interval>, k: nat)
    requires Normal(s) && k < |s|
    ensures |Points(s[..k + 1])| == |Points(s[..k])| + (s[k].end - s[k].start + 1)
  {
    assert s[..k + 1] == s[..k] + [s[k]];
    PointsAppend(s[..k], [s[k]]);
    assert Points([s[k]]) == Range(s[k]);
    PointsBelow(s[..k], s[k].start);
    RangeSize(s[k]);
    assert Points(s[..k]) !! Range(s[k]);
  }

  lemma {:induction false} PointsBelow(s: seq<Interval>, high: nat)
    requires forall i | 0 <= i < |s| :: s[i].end < high
    ensures forall x | x in Points(s) :: x < high
  {
    if s != [] {
      PointsBelow(s[1..], high);
    }
  }

  // Counting a normal list never overflows and gives the size of the set.
  method Count(intervals: seq<Interval>) returns (r: Option<nat>)
    requires Normal(intervals)
    ensures r == Some(|Points(intervals)|)
  {
    var count: nat := 0;
    for k := 0 to |intervals|
      invariant count == |Points(intervals[..k])| <= MaxUint64
    {
      SplitSize(intervals, k);
      PointsFit(intervals[..k + 1]);
      var sum := CheckedAdd(count, intervals[k].end - intervals[k].start + 1);
      if sum.None? {
        return None;
      }
      count := sum.value;
    }
    assert intervals[..|intervals|] == intervals;
    r := Some(count);
  }

  // ---- Overlap ----

  function Common(a: Interval, b: Interval): nat {
    var start := if b.start > a.start then b.start else a.start;
    var end := if b.end < a.end then b.end else a.end;
    if start <= end then end - start + 1 else 0
  }

  lemma CommonSize(a: Interval, b: Interval)
    ensures |Range(a) * Range(b)| == Common(a, b)
  {
    var start := if b.start > a.start then b.start else a.start;
    var end := if b.end < a.end then b.end else a.end;
    if start <= end {
      RangeSize(Interval(start, end));
      assert Range(a) * Range(b) == Range(Interval(start, end));
    } else {
      assert Range(a) * Range(b) == {};
    }
  }

  // The two-pointer walk as a recursion.
  function Walk(left: seq<Interval>, right: seq<Interval>): nat
    decreases |left| + |right|
  {
    if left == [] || right == [] then 0
    else Common(left[0], right[0]) + (if left[0].end < right[0].end then Walk(left[1..], right)
      else Walk(left, right[1..]))
  }

  // Dropping the interval that ends first loses only what it shares with the other head.
  lemma DropSplit(left: seq<Interval>, right: seq<Interval>)
    requires Normal(left) && Normal(right) && left != [] && right != [] && left[0].end <= right[0].end
    ensures Points(left) * Points(right) == Range(left[0]) * Range(right[0]) + Points(left[1..]) * Points(right)
    ensures Range(left[0]) * Range(right[0]) !! Points(left[1..]) * Points(right)
  {
    TailAfterHead(left);
    TailAfterHead(right);
    forall x | x in Points(left) && x in Points(right)
      ensures x in Range(left[0]) * Range(right[0]) || x in Points(left[1..]) * Points(right)
    {
    }
  }

  lemma DropSize(left: seq<Interval>, right: seq<Interval>)
    requires Normal(left) && Normal(right) && left != [] && right != [] && left[0].end <= right[0].end
    ensures |Points(left) * Points(right)| == Common(left[0], right[0]) + |Points(left[1..]) * Points(right)|
  {
    DropSplit(left, right);
    CommonSize(left[0], right[0]);
  }

  lemma {:induction false} WalkIsOverlap(left: seq<Interval>, right: seq<Interval>)
    requires Normal(left) && Normal(right)
    ensures Walk(left, right) == |Points(left) * Points(right)|
    decreases |left| + |right|
  {
    if left == [] || right == [] {
      assert Points(left) * Points(right) == {};
    } else if left[0].end < right[0].end {
      DropSize(left, right);
      WalkIsOverlap(left[1..], right);
    } else {
      DropSize(right, left);
      assert Points(left) * Points(right) == Points(right) * Points(left);
      assert Points(left) * Points(right[1..]) == Points(right[1..]) * Points(left);
      WalkIsOverlap(left, right[1..]);
    }
  }

  lemma WalkFits(left: seq<Interval>, right: seq<Interval>)
    requires Normal(left) && Normal(right)
    ensures Walk(left, right) == |Points(left) * Points(right)| && Walk(left, right) <= MaxUint64
  {
    WalkIsOverlap(left, right);
    PointsFit(left);
    Subset(Points(left) * Points(right), Points(left));
  }

  // The overlap of two normal lists never overflows and is the size of the intersection.
  method Overlap(left: seq<Interval>, right: seq<Interval>) returns (r: Option<nat>)
    requires Normal(left) && Normal(right)
    ensures r == Some(|Points(left) * Points(right)|)
  {
    WalkFits(left, right);
    r := TwoPointers(left, right);
  }

  // The loop itself.
  method TwoPointers(left: seq<Interval>, right: seq<Interval>) returns (r: Option<nat>)
    requires AllProper(left)
    ensures r == if Walk(left, right) <= MaxUint64 then Some(Walk(left, right)) else None
  {
    var count: nat := 0;
    var i, j := 0, 0;
    while i < |left| && j < |right|
      invariant 0 <= i <= |left| && 0 <= j <= |right| && count <= MaxUint64
      invariant count + Walk(left[i..], right[j..]) == Walk(left, right)
      decreases |left| - i + |right| - j
    {
      assert left[i..][1..] == left[i + 1..] && right[j..][1..] == right[j + 1..];
      var common := Common(left[i], right[j]);
      if common > 0 {
        var sum := CheckedAdd(count, common);
        if sum.None? {
          return None;
        }
        count := sum.value;
      }
      if left[i].end < right[j].end {
        i := i + 1;
      } else {
        j := j + 1;
      }
    }
    r := Some(count);
  }

  lemma {:induction false} Subset<T>(a: set<T>, b: set<T>)
    requires a <= b
    ensures |a| <= |b|
  {
    assert b == a + (b - a);
  }

  lemma DifferenceSize(a: set<nat>, b: set<nat>)
    ensures |a - b| == |a| - |a * b|
  {
    assert a == (a - b) + (a * b);
  }

  // ---- Sets over several sources ----

  type Source = nat
  type GtidSet = map<Source, seq<Interval>>

  predicate AllNormal(s: GtidSet) {
    forall u | u in s :: Normal(s[u])
  }

  function Of(s: GtidSet, u: Source): seq<Interval> {
    if u in s then s[u] else []
  }

  // The transactions a set stands for.
  ghost function Denote(s: GtidSet): set<(Source, nat)> {
    set u, n | u in s && n in Points(s[u]) :: (u, n)
  }

  ghost function Tagged(u: Source, points: set<nat>): set<(Source, nat)> {
    set n | n in points :: (u, n)
  }

  lemma {:induction false} TaggedSize(u: Source, points: set<nat>)
    ensures |Tagged(u, points)| == |points|
    decreases |points|
  {
    if points == {} {
      assert Tagged(u, points) == {};
    } else {
      var n :| n in points;
      TaggedSize(u, points - {n});
      assert Tagged(u, points) == Tagged(u, points - {n}) + {(u, n)};
      assert (u, n) !in Tagged(u, points - {n});
    }
  }

  // The transactions of the sources named in `order`.
  ghost function Among(t: set<(Source, nat)>, order: seq<Source>): set<(Source, nat)> {
    set x | x in t && x.0 in order
  }

  // An iteration order over the sources of a set.
  predicate Enumerates(order: seq<Source>, s: GtidSet) {
    (forall u | u in s :: u in order) && (forall i | 0 <= i < |order| :: order[i] in s)
    && (forall i, j | 0 <= i < j < |order| :: order[i] != order[j])
  }

  ghost function AtSource(t: set<(Source, nat)>, u: Source): set<(Source, nat)> {
    set x | x in t && x.0 == u
  }

  lemma SplitAmong(t: set<(Source, nat)>, order: seq<Source>, k: nat)
    requires k < |order| && order[k] !in order[..k]
    ensures |Among(t, order[..k + 1])| == |Among(t, order[..k])| + |AtSource(t, order[k])|
  {
    assert order[..k + 1] == order[..k] + [order[k]];
    assert Among(t, order[..k + 1]) == Among(t, order[..k]) + AtSource(t, order[k]);
    assert Among(t, order[..k]) !! AtSource(t, order[k]);
  }

  lemma AtSourceSize(left: GtidSet, right: GtidSet, u: Source)
    ensures |AtSource(Denote(left) - Denote(right), u)| == |Points(Of(left, u)) - Points(Of(right, u))|
  {
    var points := Points(Of(left, u)) - Points(Of(right, u));
    TaggedSize(u, points);
    assert AtSource(Denote(left) - Denote(right), u) == Tagged(u, points);
  }

  lemma NextSource(left: GtidSet, right: GtidSet, order: seq<Source>, k: nat)
    requires Enumerates(order, left) && k < |order|
    ensures var t := Denote(left) - Denote(right);
            |Among(t, order[..k + 1])| == |Among(t,
              order[..k])| + |Points(Of(left, order[k])) - Points(Of(right, order[k]))|
  {
    SplitAmong(Denote(left) - Denote(right), order, k);
    AtSourceSize(left, right, order[k]);
  }

  // The sum over the first `k` sources.
  ghost function Total(left: GtidSet, right: GtidSet, order: seq<Source>, k: nat): nat
    requires k <= |order|
  {
    if k == 0 then 0
      else Total(left, right, order, k - 1) + |Points(Of(left, order[k - 1])) - Points(Of(right, order[k - 1]))|
  }

  lemma {:induction false} TotalIsSize(left: GtidSet, right: GtidSet, order: seq<Source>, k: nat)
    requires Enumerates(order, left) && k <= |order|
    ensures Total(left, right, order, k) == |Among(Denote(left) - Denote(right), order[..k])|
  {
    if k == 0 {
      assert Among(Denote(left) - Denote(right), order[..k]) == {};
    } else {
      TotalIsSize(left, right, order, k - 1);
      NextSource(left, right, order, k - 1);
    }
  }

  lemma TotalOfAll(left: GtidSet, right: GtidSet, order: seq<Source>)
    requires Enumerates(order, left)
    ensures Total(left, right, order, |order|) == |Denote(left) - Denote(right)|
  {
    TotalIsSize(left, right, order, |order|);
    AmongAll(left, right, order);
  }

  lemma {:induction false} TotalGrows(left: GtidSet, right: GtidSet, order: seq<Source>, k: nat)
    requires k <= |order|
    ensures Total(left, right, order, k) <= Total(left, right, order, |order|)
    decreases |order| - k
  {
    if k < |order| {
      TotalGrows(left, right, order, k + 1);
    }
  }

  // Counting what the left set has and the right one lacks, in any iteration order: the exact size of
  // the difference, or a failure when it does not fit.
  method Difference(left: GtidSet, right: GtidSet, order: seq<Source>) returns (r: Option<nat>)
    requires AllNormal(left) && AllNormal(right) && Enumerates(order, left)
    ensures var size := |Denote(left) - Denote(right)|;
            r == if size <= MaxUint64 then Some(size) else None
  {
    r := SumSources(left, right, order);
    TotalOfAll(left, right, order);
  }

  method SumSources(left: GtidSet, right: GtidSet, order: seq<Source>) returns (r: Option<nat>)
    requires AllNormal(left) && AllNormal(right)
    ensures var total := Total(left, right, order, |order|);
            r == if total <= MaxUint64 then Some(total) else None
  {
    var difference: nat := 0;
    for k := 0 to |order|
      invariant difference == Total(left, right, order, k) <= MaxUint64
    {
      TotalGrows(left, right, order, k + 1);
      var sum := AddSource(left, right, order, k, difference);
      if sum.None? {
        return None;
      }
      difference := sum.value;
    }
    r := Some(difference);
  }

  lemma TotalNext(left: GtidSet, right: GtidSet, order: seq<Source>, k: nat, lacking: nat)
    requires k < |order| && lacking == |Points(Of(left, order[k])) - Points(Of(right, order[k]))|
    ensures Total(left, right, order, k + 1) == Total(left, right, order, k) + lacking
  {}

  // One source of the loop.
  method AddSource(left: GtidSet, right: GtidSet, order: seq<Source>, k: nat, difference: nat) returns (r: Option<nat>)
    requires k < |order| && Normal(Of(left, order[k])) && Normal(Of(right, order[k]))
    requires difference == Total(left, right, order, k) <= MaxUint64
    ensures var total := Total(left, right, order, k + 1); r == if total <= MaxUint64 then Some(total) else None
  {
    var lacking := LackingAt(left, right, order, k);
    r := CheckedAdd(difference, lacking);
  }

  method LackingAt(left: GtidSet, right: GtidSet, order: seq<Source>, k: nat) returns (lacking: nat)
    requires k < |order| && Normal(Of(left, order[k])) && Normal(Of(right, order[k]))
    ensures Total(left, right, order, k + 1) == Total(left, right, order, k) + lacking && lacking <= MaxUint64
  {
    lacking := OneSource(Of(left, order[k]), Of(right, order[k]));
    TotalNext(left, right, order, k, lacking);
  }

  // The same for one source: its count minus the overlap.
  method OneSource(left: seq<Interval>, right: seq<Interval>) returns (lacking: nat)
    requires Normal(left) && Normal(right)
    ensures lacking == |Points(left) - Points(right)| <= MaxUint64
  {
    DifferenceSize(Points(left), Points(right));
    PointsFit(left);
    var count := Count(left);
    var overlap := Overlap(left, right);
    lacking := count.value - overlap.value;
  }

  lemma AmongAll(left: GtidSet, right: GtidSet, order: seq<Source>)
    requires Enumerates(order, left)
    ensures var t := Denote(left) - Denote(right); Among(t, order[..|order|]) == t
  {
    assert order[..|order|] == order;
  }

  // ---- Comparison ----

  // What the candidate lacks and what it has in excess.
  datatype Comparison = Comparison(missing: nat, errant: nat)

  lemma SmallerDifference(left: GtidSet, right: GtidSet)
    ensures |Denote(left) - Denote(right)| <= |Denote(left)|
  {
    Subset(Denote(left) - Denote(right), Denote(left));
  }

  lemma DenoteNothing(s: GtidSet)
    ensures Denote(s) - Denote(map[]) == Denote(s)
  {
    assert Denote(map[]) == {};
  }

  // Counting all transactions of a set; fails when the total does not fit.
  method CountAll(s: GtidSet, order: seq<Source>) returns (r: Option<nat>)
    requires AllNormal(s) && Enumerates(order, s)
    ensures r == if |Denote(s)| <= MaxUint64 then Some(|Denote(s)|) else None
  {
    DenoteNothing(s);
    r := Difference(s, map[], order);
  }

  // Comparing two histories: fails when one of them is too large to count, and otherwise gives the
  // exact sizes of both differences.
  method Compare(primary: GtidSet, candidate: GtidSet, primaryOrder: seq<Source>, candidateOrder: seq<Source>)
    returns (r: Option<Comparison>)
    requires AllNormal(primary) && AllNormal(candidate)
    requires Enumerates(primaryOrder, primary) && Enumerates(candidateOrder, candidate)
    ensures r.Some? <==> |Denote(primary)| <= MaxUint64 && |Denote(candidate)| <= MaxUint64
    ensures r.Some? ==> r.value.missing == |Denote(primary) - Denote(candidate)|
    ensures r.Some? ==> r.value.errant == |Denote(candidate) - Denote(primary)|
  {
    var left := CountAll(primary, primaryOrder);
    var right := CountAll(candidate, candidateOrder);
    if left.None? || right.None? {
      return None;
    }
    SmallerDifference(primary, candidate);
    SmallerDifference(candidate, primary);
    var missing := Difference(primary, candidate, primaryOrder);
    var errant := Difference(candidate, primary, candidateOrder);
    r := Some(Comparison(missing.value, errant.value));
  }

  // ---- Additions of one source ----

  type Uuid = nat

  // Everything the candidate has beyond the baseline belongs to the owner. `uuid` is the server a source
  // key names, which may carry a tag besides.
  ghost predicate OnlyFrom(baseline: GtidSet, candidate: GtidSet, uuid: Source -> Uuid, owner: Uuid) {
    forall t | t in Denote(candidate) - Denote(baseline) :: uuid(t.0) == owner
  }

  lemma AddedPoint(baseline: GtidSet, candidate: GtidSet, u: Source, n: nat)
    ensures (u, n) in Denote(candidate) - Denote(baseline) <==> n in Points(Of(candidate, u)) - Points(Of(baseline, u))
  {}

  // A source with more transactions than it shares with the baseline has an addition.
  lemma SurplusIsAdded(baseline: GtidSet, candidate: GtidSet, u: Source) returns (n: nat)
    requires var own := Points(Of(candidate, u)); |own| > |own * Points(Of(baseline, u))|
    ensures (u, n) in Denote(candidate) - Denote(baseline)
  {
    var own, shared := Points(Of(candidate, u)), Points(Of(baseline, u));
    DifferenceSize(own, shared);
    assert own - shared != {};
    n :| n in own - shared;
    AddedPoint(baseline, candidate, u, n);
  }

  // And without a surplus there is none.
  lemma AddedIsSurplus(baseline: GtidSet, candidate: GtidSet, u: Source)
    requires var own := Points(Of(candidate, u)); |own| <= |own * Points(Of(baseline, u))|
    ensures forall t | t in Denote(candidate) - Denote(baseline) :: t.0 != u
  {
    var own, shared := Points(Of(candidate, u)), Points(Of(baseline, u));
    DifferenceSize(own, shared);
    assert own - shared == {};
    forall t | t in Denote(candidate) - Denote(baseline)
      ensures t.0 != u
    {
      AddedPoint(baseline, candidate, u, t.1);
    }
  }

  // One source of the loop: all its additions belong to the owner.
  method SourcePasses(baseline: GtidSet, candidate: GtidSet, u: Source, uuid: Source -> Uuid, owner: Uuid)
    returns (r: bool)
    requires Normal(Of(candidate, u)) && Normal(Of(baseline, u))
    ensures r <==> forall t | t in Denote(candidate) - Denote(baseline) && t.0 == u :: uuid(t.0) == owner
  {
    var count := Count(Of(candidate, u));
    var overlap := Overlap(Of(candidate, u), Of(baseline, u));
    r := !(count.value > overlap.value && uuid(u) != owner);
    if count.value > overlap.value {
      ghost var n := SurplusIsAdded(baseline, candidate, u);
      assert (u, n).0 == u;
    } else {
      AddedIsSurplus(baseline, candidate, u);
    }
  }

  // The loop over the sources of the candidate, in any order. `owner` is None for a malformed identifier.
  method HasOnlyAdditionsFromSource(baseline: GtidSet, candidate: GtidSet, order: seq<Source>,
                                    uuid: Source -> Uuid, owner: Option<Uuid>) returns (r: bool)
    requires AllNormal(baseline) && AllNormal(candidate) && Enumerates(order, candidate)
    ensures r <==> owner.Some? && OnlyFrom(baseline, candidate, uuid, owner.value)
  {
    if owner.None? {
      return false;
    }
    ghost var added := Denote(candidate) - Denote(baseline);
    for k := 0 to |order|
      invariant forall t | t in added && t.0 in order[..k] :: uuid(t.0) == owner.value
    {
      var passes := SourcePasses(baseline, candidate, order[k], uuid, owner.value);
      if !passes {
        return false;
      }
      assert order[..k + 1] == order[..k] + [order[k]];
    }
    assert order[..|order|] == order;
    r := true;
  }

  // The candidate was sampled later than the primary: it lacks nothing and is ahead only with
  // transactions of the primary itself. No answer is given for a set too large to count.
  method LikelySamplingSkew(primary: GtidSet, candidate: GtidSet, primaryOrder: seq<Source>,
                            candidateOrder: seq<Source>, uuid: Source -> Uuid, owner: Option<Uuid>)
    returns (r: Option<bool>)
    requires AllNormal(primary) && AllNormal(candidate)
    requires Enumerates(primaryOrder, primary) && Enumerates(candidateOrder, candidate)
    ensures r.Some? <==> |Denote(primary)| <= MaxUint64 && |Denote(candidate)| <= MaxUint64
    ensures r.Some? ==>
              (r.value <==> && Denote(primary) <= Denote(candidate) && !(Denote(candidate) <= Denote(primary))
                            && owner.Some? && OnlyFrom(primary, candidate, uuid, owner.value))
  {
    var comparison := Compare(primary, candidate, primaryOrder, candidateOrder);
    if comparison.None? {
      return None;
    }
    ZeroMeansSubset(primary, candidate);
    ZeroMeansSubset(candidate, primary);
    if comparison.value.missing != 0 || comparison.value.errant == 0 {
      return Some(false);
    }
    var only := HasOnlyAdditionsFromSource(primary, candidate, candidateOrder, uuid, owner);
    r := Some(only);
  }

  // ---- Recovery assessment ----

  // The assessment of a former primary: its missing and errant transactions, those of them already
  // purged at the source, and whether it may simply resume.
  datatype Assessment = Assessment(missing: nat, errant: nat, purgedMissing: nat, fastRejoinSafe: bool)

  // A former primary may resume exactly when it has executed nothing the current primary has not, and
  // everything it still needs lies outside the purged history. An answer is given only for a purged
  // history that belongs to the executed one.
  method AssessRecovery(executed: GtidSet, purged: GtidSet, former: GtidSet,
                        executedOrder: seq<Source>, purgedOrder: seq<Source>, formerOrder: seq<Source>)
    returns (r: Option<Assessment>)
    requires AllNormal(executed) && AllNormal(purged) && AllNormal(former)
    requires Enumerates(executedOrder, executed) && Enumerates(purgedOrder, purged) && Enumerates(formerOrder, former)
    ensures r.Some? ==> Denote(purged) <= Denote(executed)
    ensures r.Some? ==> r.value.purgedMissing == |Denote(purged) - Denote(former)|
    ensures r.Some? ==> (r.value.fastRejoinSafe <==> Resumes(Denote(executed), Denote(purged), Denote(former)))
    ensures |Denote(executed)| <= MaxUint64 && |Denote(former)| <= MaxUint64 && Denote(purged) <= Denote(executed) ==>
            r.Some?
  {
    var history := Compare(executed, purged, executedOrder, purgedOrder);
    ZeroMeansSubset(purged, executed);
    SmallerSubset(purged, executed);
    if history.None? || history.value.errant != 0 {
      return None;
    }
    var comparison := Compare(executed, former, executedOrder, formerOrder);
    if comparison.None? {
      return None;
    }
    SmallerDifference(purged, former);
    var purgedMissing := Difference(purged, former, purgedOrder);
    ZeroMeansSubset(former, executed);
    ZeroMeansSubset(purged, former);
    SafeMeansResumes(Denote(executed), Denote(purged), Denote(former));
    var safe := comparison.value.errant == 0 && purgedMissing.value == 0;
    r := Some(Assessment(comparison.value.missing, comparison.value.errant, purgedMissing.value, safe));
  }

  // The former primary has nothing errant, and every transaction it lacks is still in the logs.
  ghost predicate Resumes(executed: set<(Source, nat)>, purged: set<(Source, nat)>, former: set<(Source, nat)>) {
    former <= executed && forall t | t in executed && t !in former :: t !in purged
  }

  lemma SafeMeansResumes(executed: set<(Source, nat)>, purged: set<(Source, nat)>, former: set<(Source, nat)>)
    requires purged <= executed
    ensures former <= executed && purged <= former <==> Resumes(executed, purged, former)
  {
    if Resumes(executed, purged, former) {
      forall t | t in purged
        ensures t in former
      {
        assert t in executed;
      }
    }
  }

  lemma SmallerSubset(left: GtidSet, right: GtidSet)
    ensures Denote(left) <= Denote(right) ==> |Denote(left)| <= |Denote(right)|
  {
    if Denote(left) <= Denote(right) {
      Subset(Denote(left), Denote(right));
    }
  }

  // A count of zero means inclusion.
  lemma ZeroMeansSubset(left: GtidSet, right: GtidSet)
    ensures |Denote(left) - Denote(right)| == 0 <==> Denote(left) <= Denote(right)
  {
    var t := Denote(left) - Denote(right);
    if |t| == 0 {
      assert t == {};
      forall x | x in Denote(left)
        ensures x in Denote(right)
      {
        assert x !in t;
      }
    } else {
      var x :| x in t;
      assert x in Denote(left) && x !in Denote(right);
    }
  }
}
