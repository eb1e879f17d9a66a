/**
The range algebra of the image coverage measurement: merging observed address ranges and comparing two runs.
The counts are compared with the cardinalities of the sets of addresses that the ranges stand for.
*/
module Coverage {

  import opened Options

  const ADDRESS_LIMIT := 0x1_0000_0000_0000_0000

  /** The addresses from start up to, and not including, end. */
  datatype Range = Range(start: int, end: int)

  datatype Result<T> = Ok(value: T) | ValueError(message: string)

  predicate Acceptable(r: Range) {
    0 <= r.start < r.end <= ADDRESS_LIMIT
  }

  predicate AllAcceptable(ranges: seq<Range>) {
    forall r | r in ranges :: Acceptable(r)
  }

  // ---------------------------------------------------------------------------------------------
  // Sets of addresses
  // ---------------------------------------------------------------------------------------------

  predicate Inside(x: int, r: Range) {
    r.start <= x < r.end
  }

  function Interval(r: Range): set<int> {
    set x: int | r.start <= x < r.end && Inside(x, r)
  }

  function Bytes(ranges: seq<Range>): set<int> {
    if ranges == [] then {} else Bytes(ranges[..|ranges| - 1]) + Interval(ranges[|ranges| - 1])
  }

  function Size(ranges: seq<Range>): int {
    if ranges == [] then 0
    else Size(ranges[..|ranges| - 1]) + ranges[|ranges| - 1].end - ranges[|ranges| - 1].start
  }

  predicate Covers(ranges: seq<Range>, x: int) {
    exists r :: r in ranges && Inside(x, r)
  }

  lemma {:induction false} BytesAreCovered(ranges: seq<Range>, x: int)
    ensures x in Bytes(ranges) <==> Covers(ranges, x)
  {
    if ranges == [] {
    } else {
      var init, last := ranges[..|ranges| - 1], ranges[|ranges| - 1];
      BytesAreCovered(init, x);
      assert ranges == init + [last];
    }
  }

  /** The total length of a list is the sum of the lengths of its ranges. */
  lemma {:induction false} SizeAdds(a: seq<Range>, b: seq<Range>)
    ensures Size(a + b) == Size(a) + Size(b)
    ensures b != [] ==> Size([b[0]]) == b[0].end - b[0].start
  {
    if b == [] {
      assert a + b == a;
    } else {
      SizeAdds(a, b[..|b| - 1]);
      assert (a + b)[..|a + b| - 1] == a + b[..|b| - 1];
      assert [b[0]][..0] == [];
    }
  }

  lemma SameBytes(a: seq<Range>, b: seq<Range>)
    requires forall r :: r in a <==> r in b
    ensures Bytes(a) == Bytes(b)
  {
    forall x ensures x in Bytes(a) <==> x in Bytes(b) {
      BytesAreCovered(a, x);
      BytesAreCovered(b, x);
    }
  }

  lemma BytesOfSum(a: seq<Range>, b: seq<Range>)
    ensures Bytes(a + b) == Bytes(a) + Bytes(b)
  {
    forall x ensures x in Bytes(a + b) <==> x in Bytes(a) + Bytes(b) {
      BytesAreCovered(a, x);
      BytesAreCovered(b, x);
      BytesAreCovered(a + b, x);
    }
  }

  lemma {:induction false} IntervalSize(r: Range)
    requires r.start <= r.end
    ensures |Interval(r)| == r.end - r.start
    decreases r.end - r.start
  {
    if r.start == r.end {
    } else {
      IntervalSize(Range(r.start, r.end - 1));
      assert Interval(r) == Interval(Range(r.start, r.end - 1)) + {r.end - 1};
    }
  }

  predicate Apart(a: Range, b: Range) {
    a.end <= b.start || b.end <= a.start
  }

  predicate Disjoint(ranges: seq<Range>) {
    forall i, j | 0 <= i < j < |ranges| :: Apart(ranges[i], ranges[j])
  }

  lemma CardinalityOfSum(a: set<int>, b: set<int>)
    ensures |a + b| == |a| + |b| - |a * b|
  {
    assert a + b == a + (b - a);
    assert |b| == |b - a| + |a * b| by {
      assert b == (b - a) + a * b;
    }
  }

  /** Adding lengths never counts too few addresses, and counts exactly if and only if no two ranges overlap. */
  lemma {:induction false} SizeCountsDisjoint(ranges: seq<Range>)
    requires AllAcceptable(ranges)
    ensures Size(ranges) >= |Bytes(ranges)|
    ensures Size(ranges) == |Bytes(ranges)| <==> Disjoint(ranges)
  {
    if ranges == [] {
    } else {
      var init, last := ranges[..|ranges| - 1], ranges[|ranges| - 1];
      assert last in ranges;
      SizeCountsDisjoint(init);
      IntervalSize(last);
      CardinalityOfSum(Bytes(init), Interval(last));
      DisjointInit(init, last);
      assert ranges == init + [last];
      if i :| 0 <= i < |init| && !Apart(init[i], last) {
        Overlap(init, last, i);
      } else {
        NoOverlap(init, last);
      }
    }
  }

  lemma DisjointInit(init: seq<Range>, last: Range)
    ensures Disjoint(init + [last]) <==> Disjoint(init) && forall i | 0 <= i < |init| :: Apart(init[i], last)
  {
    var ranges := init + [last];
    if Disjoint(ranges) {
      forall i | 0 <= i < |init| ensures Apart(init[i], last) {
        assert Apart(ranges[i], ranges[|init|]);
      }
      forall i, j | 0 <= i < j < |init| ensures Apart(init[i], init[j]) {
        assert Apart(ranges[i], ranges[j]);
      }
    }
  }

  lemma Overlap(init: seq<Range>, last: Range, i: nat)
    requires AllAcceptable(init) && Acceptable(last) && i < |init|
    requires !Apart(init[i], last)
    ensures |Bytes(init) * Interval(last)| > 0
  {
    var x := if init[i].start <= last.start then last.start else init[i].start;
    BytesAreCovered(init, x);
    assert init[i] in init;
    assert x in Bytes(init) * Interval(last);
  }

  lemma NoOverlap(init: seq<Range>, last: Range)
    requires forall i | 0 <= i < |init| :: Apart(init[i], last)
    ensures Bytes(init) * Interval(last) == {}
  {
    forall x | x in Bytes(init) ensures x !in Interval(last) {
      BytesAreCovered(init, x);
    }
  }

  // ---------------------------------------------------------------------------------------------
  // Sorting
  // ---------------------------------------------------------------------------------------------

  /** The order of Python's lists of two numbers. */
  predicate Before(a: Range, b: Range) {
    a.start < b.start || (a.start == b.start && a.end <= b.end)
  }

  predicate IsSorted(ranges: seq<Range>) {
    forall i, j | 0 <= i < j < |ranges| :: Before(ranges[i], ranges[j])
  }

  function Insert(r: Range, ranges: seq<Range>): (s: seq<Range>)
    ensures multiset(s) == multiset(ranges) + multiset{r}
  {
    if ranges == [] then [r]
    else
      assert ranges == [ranges[0]] + ranges[1..];
      if Before(r, ranges[0]) then [r] + ranges else [ranges[0]] + Insert(r, ranges[1..])
  }

  lemma {:induction false} InsertSorted(r: Range, ranges: seq<Range>)
    requires IsSorted(ranges)
    ensures IsSorted(Insert(r, ranges))
  {
    if ranges == [] || Before(r, ranges[0]) {
    } else {
      var rest := Insert(r, ranges[1..]);
      InsertSorted(r, ranges[1..]);
      forall i | 0 <= i < |rest| ensures Before(ranges[0], rest[i]) {
        assert rest[i] in multiset(rest);
        assert rest[i] in multiset(ranges[1..]) + multiset{r};
      }
    }
  }

  function Sorted(ranges: seq<Range>): (s: seq<Range>)
    ensures IsSorted(s) && multiset(s) == multiset(ranges)
  {
    if ranges == [] then []
    else
      assert ranges == [ranges[0]] + ranges[1..];
      InsertSorted(ranges[0], Sorted(ranges[1..]));
      Insert(ranges[0], Sorted(ranges[1..]))
  }

  lemma SortedMembers(ranges: seq<Range>)
    ensures forall r :: r in Sorted(ranges) <==> r in ranges
  {
    forall r ensures r in Sorted(ranges) <==> r in ranges {
      assert r in Sorted(ranges) <==> r in multiset(Sorted(ranges));
      assert r in ranges <==> r in multiset(ranges);
    }
  }

  // ---------------------------------------------------------------------------------------------
  // Merging
  // ---------------------------------------------------------------------------------------------

  /** Sorted, not empty, and with a gap between any two neighbours. */
  predicate Canonical(ranges: seq<Range>) {
    && AllAcceptable(ranges)
    && forall i, j | 0 <= i < j < |ranges| :: ranges[i].end < ranges[j].start
  }

  const INVALID := "invalid comparison range"

  method Merge(ranges: seq<Range>) returns (result: Result<seq<Range>>)
    ensures result.Ok? <==> AllAcceptable(ranges)
    ensures result.Ok? <==> forall r | r in ranges :: 0 <= r.start < r.end <= 0x1_0000_0000_0000_0000
    ensures result.Ok? ==> Canonical(result.value) && Bytes(result.value) == Bytes(ranges)
    ensures result.ValueError? ==> result.message == INVALID
  {
    hide Bytes, Canonical;
    var sorted := Sorted(ranges);
    SortedMembers(ranges);
    NoBytes();
    var out: seq<Range> := [];
    var i := 0;
    while i < |sorted|
      invariant 0 <= i <= |sorted|
      invariant AllAcceptable(sorted[..i]) && Canonical(out)
      invariant Bytes(out) == Bytes(sorted[..i])
      invariant out == [] <==> i == 0
      invariant i > 0 ==> out[|out| - 1].start <= sorted[i - 1].start
    {
      var r := sorted[i];
      assert sorted[..i + 1] == sorted[..i] + [r];
      if !(0 <= r.start && r.start < r.end && r.end <= ADDRESS_LIMIT) {
        assert r in ranges;
        return ValueError(INVALID);
      }
      assert i > 0 ==> Before(sorted[i - 1], r);
      BytesOfOneMore(sorted[..i], r);
      if out != [] && r.start <= out[|out| - 1].end {
        Extend(out, r);
        var last := out[|out| - 1];
        out := out[|out| - 1 := Range(last.start, if last.end > r.end then last.end else r.end)];
      } else {
        Append(out, r);
        out := out + [r];
      }
      i := i + 1;
    }
    assert sorted[..i] == sorted;
    SameBytes(sorted, ranges);
    result := Ok(out);
  }

  lemma NoBytes()
    ensures Bytes([]) == {} && Canonical([])
  {
  }

  lemma BytesOfOneMore(ranges: seq<Range>, r: Range)
    ensures Bytes(ranges + [r]) == Bytes(ranges) + Interval(r)
  {
    assert (ranges + [r])[..|ranges|] == ranges;
  }

  lemma Append(out: seq<Range>, r: Range)
    requires Canonical(out) && Acceptable(r) && (out != [] ==> out[|out| - 1].end < r.start)
    ensures Canonical(out + [r]) && Bytes(out + [r]) == Bytes(out) + Interval(r)
  {
    BytesOfOneMore(out, r);
    hide Bytes;
    forall i | 0 <= i < |out| ensures out[i].end < r.start {
      assert out[|out| - 1] in out;
    }
  }

  /** Growing the last range over one that touches it covers exactly both. */
  lemma Extend(out: seq<Range>, r: Range)
    requires Canonical(out) && out != [] && Acceptable(r)
    requires out[|out| - 1].start <= r.start <= out[|out| - 1].end
    ensures var last := out[|out| - 1];
            var grown := out[|out| - 1 := Range(last.start, if last.end > r.end then last.end else r.end)];
            Canonical(grown) && Bytes(grown) == Bytes(out) + Interval(r)
  {
    var last := out[|out| - 1];
    var wide := Range(last.start, if last.end > r.end then last.end else r.end);
    var grown := out[|out| - 1 := wide];
    assert grown[..|out| - 1] == out[..|out| - 1];
    assert Interval(wide) == Interval(last) + Interval(r);
    assert last in out;
    forall x | x in grown ensures Acceptable(x) {
      assert x == wide || x in out[..|out| - 1];
    }
  }

  lemma CanonicalIsDisjoint(ranges: seq<Range>)
    requires Canonical(ranges)
    ensures Disjoint(ranges)
  {
  }

  /** The total length of a merged list is the number of addresses in it. */
  lemma CanonicalSize(ranges: seq<Range>)
    requires Canonical(ranges)
    ensures Size(ranges) == |Bytes(ranges)|
  {
    CanonicalIsDisjoint(ranges);
    SizeCountsDisjoint(ranges);
  }

  /** A set of addresses has one canonical list: merging forgets order, overlap and repetition, and nothing else. */
  lemma {:induction false} CanonicalIsUnique(a: seq<Range>, b: seq<Range>)
    requires Canonical(a) && Canonical(b) && Bytes(a) == Bytes(b)
    ensures a == b
  {
    if a == [] || b == [] {
      EmptyBytes(a);
      EmptyBytes(b);
    } else {
      var la, lb := a[|a| - 1], b[|b| - 1];
      SameLast(a, b);
      WithoutLast(a);
      WithoutLast(b);
      CanonicalIsUnique(a[..|a| - 1], b[..|b| - 1]);
      assert a == a[..|a| - 1] + [la];
      assert b == b[..|b| - 1] + [lb];
    }
  }

  lemma EmptyBytes(a: seq<Range>)
    requires Canonical(a)
    ensures Bytes(a) == {} <==> a == []
  {
    if a != [] {
      assert a[|a| - 1] in a;
      assert a[|a| - 1].start in Bytes(a);
    }
  }

  lemma WithoutLast(a: seq<Range>)
    requires Canonical(a) && a != []
    ensures Canonical(a[..|a| - 1])
    ensures Bytes(a[..|a| - 1]) == Bytes(a) - Interval(a[|a| - 1])
  {
    var init, last := a[..|a| - 1], a[|a| - 1];
    NoOverlap(init, last);
    assert Bytes(a) == Bytes(init) + Interval(last);
    assert forall r | r in init :: r in a;
    SetMinus(Bytes(init), Interval(last));
    hide Bytes, Interval;
  }

  lemma SetMinus(a: set<int>, b: set<int>)
    requires a * b == {}
    ensures (a + b) - b == a
  {
    assert forall x | x in a :: x !in a * b;
  }

  /** The last range is the top of the set, and the address just below it is not in the set. */
  lemma LastIsTop(a: seq<Range>)
    requires Canonical(a) && a != []
    ensures var last := a[|a| - 1];
            && (forall x | Inside(x, last) :: x in Bytes(a))
            && (forall x | x in Bytes(a) :: x < last.end)
            && last.start - 1 !in Bytes(a)
  {
    var last := a[|a| - 1];
    assert last in a;
    forall x | x in Bytes(a) ensures x < last.end && x != last.start - 1 {
      BytesAreCovered(a, x);
      var r :| r in a && Inside(x, r);
      assert r == last || r.end < last.start;
    }
  }

  lemma SameLast(a: seq<Range>, b: seq<Range>)
    requires Canonical(a) && Canonical(b) && a != [] && b != [] && Bytes(a) == Bytes(b)
    ensures a[|a| - 1] == b[|b| - 1]
  {
    LastIsTop(a);
    LastIsTop(b);
    var la, lb := a[|a| - 1], b[|b| - 1];
    assert Acceptable(la) && Acceptable(lb) by {
      assert la in a && lb in b;
    }
    hide Bytes, Canonical;
    assert Inside(la.end - 1, la) && Inside(lb.end - 1, lb);
    assert la.end == lb.end;
    assert !Inside(lb.start - 1, la) && !Inside(la.start - 1, lb);
  }

  // ---------------------------------------------------------------------------------------------
  // Comparing two runs
  // ---------------------------------------------------------------------------------------------

  datatype Group = Watched | Background | Kernel

  type Key = string

  datatype Process = Process(group: Group, ranges: seq<Range>)

  datatype Report = Report(processes: map<Key, Process>)

  /** The run has identified this process, and it is neither watched nor the kernel. */
  predicate Identified(report: Report, key: Key) {
    key in report.processes && !report.processes[key].group.Watched? && !report.processes[key].group.Kernel?
  }

  function BackgroundKeys(report: Report): (keys: set<Key>)
    ensures forall key :: key in keys <==> Identified(report, key)
  {
    set key | key in report.processes && report.processes[key].group == Background
  }

  /** The background processes that every run has identified. */
  function Cohort(reports: seq<Report>): (keys: set<Key>)
    requires reports != []
    ensures forall key :: key in keys <==> forall r | r in reports :: Identified(r, key)
  {
    var first := BackgroundKeys(reports[0]);
    assert reports == [reports[0]] + reports[1..];
    if |reports| == 1 then first else first * Cohort(reports[1..])
  }

  datatype Comparison = Comparison(
    commonProcesses: nat,
    baselineBytes: int,
    candidateBytes: int,
    newlyCompared: int,
    baselineOnly: int,
    shared: int,
    union: int,
    symmetricDifference: int,
    jaccard: Option<real>)

  /** The addresses that a run compared, each with its process: what the byte counts are about. */
  function Addresses(report: Report, keys: set<Key>): set<(Key, int)>
    requires keys <= report.processes.Keys
  {
    set key, x | key in keys && x in Bytes(report.processes[key].ranges) :: (key, x)
  }

  function Column(key: Key, bytes: set<int>): set<(Key, int)> {
    set x | x in bytes :: (key, x)
  }

  lemma {:induction false} ColumnSize(key: Key, bytes: set<int>)
    ensures |Column(key, bytes)| == |bytes|
  {
    assert forall x | x in bytes :: (key, x) in Column(key, bytes);
    if Column(key, bytes) == {} {
      assert bytes == {};
    } else {
      var p :| p in Column(key, bytes);
      ColumnSize(key, bytes - {p.1});
      assert Column(key, bytes) == Column(key, bytes - {p.1}) + {p};
    }
  }

  lemma OneMore(report: Report, keys: set<Key>, key: Key)
    requires keys <= report.processes.Keys && key in report.processes && key !in keys
    ensures Addresses(report, keys + {key}) ==
            Addresses(report, keys) + Column(key, Bytes(report.processes[key].ranges))
    ensures Addresses(report, keys) * Column(key, Bytes(report.processes[key].ranges)) == {}
  {
  }

  lemma OneMoreSize(report: Report, keys: set<Key>, key: Key)
    requires keys <= report.processes.Keys && key in report.processes && key !in keys
    ensures |Addresses(report, keys + {key})| == |Addresses(report, keys)| + |Bytes(report.processes[key].ranges)|
  {
    OneMore(report, keys, key);
    ColumnSize(key, Bytes(report.processes[key].ranges));
    hide Addresses, Column, Bytes;
  }

  lemma OneMoreShared(a: Report, b: Report, keys: set<Key>, key: Key)
    requires keys <= a.processes.Keys && keys <= b.processes.Keys
    requires key in a.processes && key in b.processes && key !in keys
    ensures |Addresses(a, keys + {key}) * Addresses(b, keys + {key})| ==
            |Addresses(a, keys) * Addresses(b, keys)|
            + |Bytes(a.processes[key].ranges) * Bytes(b.processes[key].ranges)|
  {
    var x, y := Bytes(a.processes[key].ranges), Bytes(b.processes[key].ranges);
    SharedSplits(a, b, keys, key);
    ColumnSize(key, x * y);
    hide Addresses, Column, Bytes;
  }

  lemma SharedSplits(a: Report, b: Report, keys: set<Key>, key: Key)
    requires keys <= a.processes.Keys && keys <= b.processes.Keys
    requires key in a.processes && key in b.processes && key !in keys
    ensures var both := Column(key, Bytes(a.processes[key].ranges) * Bytes(b.processes[key].ranges));
            && Addresses(a, keys + {key}) * Addresses(b, keys + {key}) == Addresses(a, keys) * Addresses(b, keys) + both
            && Addresses(a, keys) * Addresses(b, keys) * both == {}
  {
    hide Bytes;
  }

  /**
  Inclusion and exclusion on one process. Whatever the two lists count twice within themselves is added to what they
  share; the union is counted right.
  */
  lemma SharedSize(x: seq<Range>, y: seq<Range>, merged: seq<Range>)
    requires AllAcceptable(x) && AllAcceptable(y) && Canonical(merged) && Bytes(merged) == Bytes(x + y)
    ensures Size(merged) == |Bytes(x) + Bytes(y)|
    ensures Size(x) >= |Bytes(x)| && (Size(x) == |Bytes(x)| <==> Disjoint(x))
    ensures Size(y) >= |Bytes(y)| && (Size(y) == |Bytes(y)| <==> Disjoint(y))
    ensures Size(x) + Size(y) - Size(merged) ==
            |Bytes(x) * Bytes(y)| + (Size(x) - |Bytes(x)|) + (Size(y) - |Bytes(y)|)
  {
    SizeCountsDisjoint(x);
    SizeCountsDisjoint(y);
    CanonicalSize(merged);
    BytesOfSum(x, y);
    CardinalityOfSum(Bytes(x), Bytes(y));
  }

  /** Two overlapping ranges and nothing else: an address that nobody shares is reported as shared. */
  lemma OverlapCountsTwice()
    ensures var x, y, merged := [Range(0, 2), Range(1, 3)], [], [Range(0, 3)];
            && AllAcceptable(x + y) && Canonical(merged) && Bytes(merged) == Bytes(x + y)
            && Bytes(x) * Bytes(y) == {} && Size(x) + Size(y) - Size(merged) == 1
  {
    var x, y, merged := [Range(0, 2), Range(1, 3)], [], [Range(0, 3)];
    assert x + y == [Range(0, 2)] + [Range(1, 3)] && x == [Range(0, 2)] + [Range(1, 3)];
    assert Bytes([Range(0, 2)]) == Interval(Range(0, 2)) by {
      BytesOfOneMore([], Range(0, 2));
      assert [] + [Range(0, 2)] == [Range(0, 2)];
    }
    BytesOfOneMore([Range(0, 2)], Range(1, 3));
    BytesOfOneMore([], Range(0, 3));
    assert [] + [Range(0, 3)] == merged;
    assert Interval(Range(0, 3)) == Interval(Range(0, 2)) + Interval(Range(1, 3));
    assert x[..1] == [Range(0, 2)] && [Range(0, 2)][..0] == [] && merged[..0] == [];
    assert Size(x) == 4 && Size(merged) == 3;
  }

  /** No list of these processes overlaps itself; lists that a measurement has merged never do. */
  predicate AllDisjoint(report: Report, keys: set<Key>)
    requires keys <= report.processes.Keys
  {
    forall key | key in keys :: Disjoint(report.processes[key].ranges)
  }

  /** The counts are the sizes of the sets of addresses, and their ratio is a proper fraction. */
  ghost predicate Measures(c: Comparison, a: set<(Key, int)>, b: set<(Key, int)>) {
    && c.baselineBytes == |a| && c.candidateBytes == |b|
    && c.newlyCompared == |b - a| && c.baselineOnly == |a - b| && c.shared == |a * b|
    && c.union == |a + b| && c.symmetricDifference == |(a - b) + (b - a)|
    && (c.jaccard.None? <==> a + b == {})
    && (c.jaccard.Some? ==> 0.0 <= c.jaccard.value <= 1.0
                            && c.jaccard.value * (|a + b| as real) == |a * b| as real
                            && (c.jaccard.value == 1.0 <==> a == b))
  }

  lemma DifferenceSizes(a: set<(Key, int)>, b: set<(Key, int)>)
    ensures |b - a| == |b| - |a * b| && |a - b| == |a| - |a * b|
    ensures |a + b| == |a| + |b| - |a * b|
    ensures |(a - b) + (b - a)| == |a| + |b| - 2 * |a * b|
    ensures |a * b| <= |a + b| && (|a * b| == |a + b| <==> a == b)
  {
    assert a == (a - b) + a * b;
    assert b == (b - a) + a * b;
    assert a + b == a + (b - a);
    if |a * b| == |a + b| {
      assert |a - b| == 0 && |b - a| == 0;
      assert a - b == {} && b - a == {};
    }
  }

  /** What the comparison reports for these totals. */
  function Figures(processes: nat, aa: int, bb: int, both: int): Comparison {
    var union := aa + bb - both;
    Comparison(processes, aa, bb, bb - both, aa - both, both, union, aa + bb - 2 * both,
               if union == 0 then None else Some(both as real / union as real))
  }

  lemma RatioBounds(shared: int, union: int)
    requires 0 <= shared <= union && union != 0
    ensures var r := shared as real / union as real;
            0.0 <= r <= 1.0 && r * union as real == shared as real && (r == 1.0 <==> shared == union)
  {
    var r := shared as real / union as real;
    assert r * union as real == shared as real;
  }

  lemma MeasuresSets(processes: nat, a: set<(Key, int)>, b: set<(Key, int)>)
    ensures Measures(Figures(processes, |a|, |b|, |a * b|), a, b)
  {
    DifferenceSizes(a, b);
    if a + b != {} {
      RatioBounds(|a * b|, |a + b|);
    }
  }

  /**
  The running totals count the addresses of the processes done so far, and some of them more than once exactly if a
  list overlaps itself.
  */
  ghost predicate Tallied(a: Report, b: Report, done: set<Key>, aa: int, bb: int, both: int)
    requires done <= a.processes.Keys && done <= b.processes.Keys
  {
    && aa >= |Addresses(a, done)| && (aa == |Addresses(a, done)| <==> AllDisjoint(a, done))
    && bb >= |Addresses(b, done)| && (bb == |Addresses(b, done)| <==> AllDisjoint(b, done))
    && both == |Addresses(a, done) * Addresses(b, done)|
               + (aa - |Addresses(a, done)|) + (bb - |Addresses(b, done)|)
  }

  lemma OneMoreDisjoint(report: Report, keys: set<Key>, key: Key)
    requires keys <= report.processes.Keys && key in report.processes
    ensures AllDisjoint(report, keys + {key}) <==> AllDisjoint(report, keys) && Disjoint(report.processes[key].ranges)
  {
    hide Disjoint;
  }

  lemma TallyStep(a: Report, b: Report, done: set<Key>, key: Key, aa: int, bb: int, both: int, merged: seq<Range>)
    requires done <= a.processes.Keys && done <= b.processes.Keys && Tallied(a, b, done, aa, bb, both)
    requires key in a.processes && key in b.processes && key !in done
    requires AllAcceptable(a.processes[key].ranges) && AllAcceptable(b.processes[key].ranges) && Canonical(merged)
    requires Bytes(merged) == Bytes(a.processes[key].ranges + b.processes[key].ranges)
    ensures var sx, sy := Size(a.processes[key].ranges), Size(b.processes[key].ranges);
            Tallied(a, b, done + {key}, aa + sx, bb + sy, both + sx + sy - Size(merged))
  {
    hide Addresses, Bytes, Size, Canonical, AllDisjoint, AllAcceptable, Disjoint;
    SharedSize(a.processes[key].ranges, b.processes[key].ranges, merged);
    OneMoreSize(a, done, key);
    OneMoreSize(b, done, key);
    OneMoreShared(a, b, done, key);
    OneMoreDisjoint(a, done, key);
    OneMoreDisjoint(b, done, key);
  }

  lemma NothingTallied(a: Report, b: Report)
    ensures Tallied(a, b, {}, 0, 0, 0)
  {
    assert Addresses(a, {}) == {} && Addresses(b, {}) == {};
  }

  /** Both runs give this process ranges that merging accepts. */
  predicate Admissible(a: Report, b: Report, key: Key)
    requires key in a.processes && key in b.processes
  {
    AllAcceptable(a.processes[key].ranges + b.processes[key].ranges)
  }

  lemma AdmissibleParts(a: Report, b: Report, key: Key)
    requires key in a.processes && key in b.processes && Admissible(a, b, key)
    ensures AllAcceptable(a.processes[key].ranges) && AllAcceptable(b.processes[key].ranges)
  {
    hide Acceptable;
    forall r | r in a.processes[key].ranges || r in b.processes[key].ranges ensures Acceptable(r) {
      assert r in a.processes[key].ranges + b.processes[key].ranges;
    }
  }

  /** The loop of the comparison over a cohort, in whatever order the set is traversed. */
  method Tally(a: Report, b: Report, chosen: set<Key>) returns (failed: bool, aa: int, bb: int, both: int)
    requires chosen <= a.processes.Keys && chosen <= b.processes.Keys
    ensures failed <==> exists key | key in chosen :: !Admissible(a, b, key)
    ensures !failed ==> Tallied(a, b, chosen, aa, bb, both)
  {
    hide Tallied, Canonical, Bytes, Size, AllAcceptable, AllDisjoint, Addresses;
    failed, aa, bb, both := false, 0, 0, 0;
    var rest := chosen;
    NothingTallied(a, b);
    assert chosen - rest == {};
    while rest != {}
      invariant rest <= chosen
      invariant forall key | key in chosen - rest :: Admissible(a, b, key)
      invariant Tallied(a, b, chosen - rest, aa, bb, both)
      decreases |rest|
    {
      var key :| key in rest;
      var x, y := a.processes[key].ranges, b.processes[key].ranges;
      var merged := Merge(x + y);
      assert merged.Ok? <==> Admissible(a, b, key);
      if merged.ValueError? {
        failed := true;
        return;
      }
      AdmissibleParts(a, b, key);
      TallyStep(a, b, chosen - rest, key, aa, bb, both, merged.value);
      assert chosen - (rest - {key}) == chosen - rest + {key};
      aa := aa + Size(x);
      bb := bb + Size(y);
      both := both + Size(x) + Size(y) - Size(merged.value);
      rest := rest - {key};
    }
    assert chosen - rest == chosen;
  }

  const BAD_COHORT := "cohort includes unidentified or watched process generations"

  lemma CohortKnown(a: Report, b: Report, keys: set<Key>)
    requires keys <= Cohort([a, b])
    ensures keys <= a.processes.Keys && keys <= b.processes.Keys
  {
    forall key | key in keys ensures key in a.processes && key in b.processes {
      assert key in Cohort([a, b]);
      assert a in [a, b] && b in [a, b];
      assert Identified(a, key) && Identified(b, key);
    }
  }

  /** What two runs have in common. */
  lemma PairCohort(a: Report, b: Report)
    ensures forall key :: key in Cohort([a, b]) <==> Identified(a, key) && Identified(b, key)
  {
    hide Identified;
    assert forall r | r in [a, b] :: r == a || r == b;
    assert a in [a, b] && b in [a, b];
  }

  /**
  What the figures are, for any accepted lists: each total counts at least its addresses, what it counts beyond them is
  also in the shared count and missing from the differences, and the union is right in every case.
  */
  ghost predicate Reports(c: Comparison, a: set<(Key, int)>, b: set<(Key, int)>) {
    var x, y := c.baselineBytes - |a|, c.candidateBytes - |b|;
    && x >= 0 && y >= 0
    && c.union == |a + b| && c.shared == |a * b| + x + y
    && c.newlyCompared == |b - a| - x && c.baselineOnly == |a - b| - y
    && c.symmetricDifference == |(a - b) + (b - a)| - x - y
    && (c.jaccard.None? <==> c.union == 0)
    && (c.jaccard.Some? ==> c.jaccard.value * c.union as real == c.shared as real)
  }

  lemma FiguresReport(processes: nat, a: set<(Key, int)>, b: set<(Key, int)>, aa: int, bb: int, both: int)
    requires aa >= |a| && bb >= |b| && both == |a * b| + (aa - |a|) + (bb - |b|)
    ensures Reports(Figures(processes, aa, bb, both), a, b)
    ensures Measures(Figures(processes, aa, bb, both), a, b) <==> aa == |a| && bb == |b|
  {
    DifferenceSizes(a, b);
    if aa == |a| && bb == |b| {
      MeasuresSets(processes, a, b);
    }
  }

  lemma TalliedFigures(processes: nat, a: Report, b: Report, keys: set<Key>, aa: int, bb: int, both: int)
    requires keys <= a.processes.Keys && keys <= b.processes.Keys && Tallied(a, b, keys, aa, bb, both)
    ensures var c, x, y := Figures(processes, aa, bb, both), Addresses(a, keys), Addresses(b, keys);
            && Reports(c, x, y)
            && (c.baselineBytes == |x| <==> AllDisjoint(a, keys)) && (c.candidateBytes == |y| <==> AllDisjoint(b, keys))
            && (Measures(c, x, y) <==> AllDisjoint(a, keys) && AllDisjoint(b, keys))
  {
    hide Reports, Measures, Addresses, AllDisjoint;
    FiguresReport(processes, Addresses(a, keys), Addresses(b, keys), aa, bb, both);
  }

  /**
  The comparison of two runs, of the given cohort or else of what both runs identified. It fails exactly on a cohort
  with anything else in it or an unacceptable range; otherwise its figures measure the two sets of addresses if and only
  if no list of the cohort overlaps itself.
  */
  method Compare(a: Report, b: Report, common: Option<set<Key>>)
    returns (result: Result<Comparison>, ghost keys: set<Key>)
    ensures common.Some? ==> keys == common.value
    ensures common.None? ==> forall key :: key in keys <==> Identified(a, key) && Identified(b, key)
    ensures if exists key | key in keys :: !(Identified(a, key) && Identified(b, key)) then
              result == ValueError(BAD_COHORT)
            else
              && keys <= a.processes.Keys && keys <= b.processes.Keys
              && (result.Ok? <==> forall key | key in keys :: Admissible(a, b, key))
              && (result.ValueError? ==> result.message == INVALID)
              && (result.Ok? ==>
                    var c, x, y := result.value, Addresses(a, keys), Addresses(b, keys);
                    && c.commonProcesses == |keys| && Reports(c, x, y)
                    && (c.baselineBytes == |x| <==> AllDisjoint(a, keys))
                    && (c.candidateBytes == |y| <==> AllDisjoint(b, keys))
                    && (Measures(c, x, y) <==> AllDisjoint(a, keys) && AllDisjoint(b, keys)))
  {
    hide Cohort, Tallied, Reports, Measures, AllDisjoint, Addresses, Admissible;
    var chosen := match common case None => Cohort([a, b]) case Some(given) => given;
    keys := chosen;
    PairCohort(a, b);
    if !(chosen <= Cohort([a, b])) {
      return ValueError(BAD_COHORT), keys;
    }
    CohortKnown(a, b, chosen);
    var failed, aa, bb, both := Tally(a, b, chosen);
    if failed {
      return ValueError(INVALID), keys;
    }
    TalliedFigures(|chosen|, a, b, chosen, aa, bb, both);
    result := Ok(Figures(|chosen|, aa, bb, both));
  }
}
