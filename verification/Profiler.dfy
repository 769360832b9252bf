/** The profiler: checkpoints under tags, and the pass that sorts them by cycle and groups the
    differences of neighbours by their pair of tags. */
module Profiler {
  import opened Wrappers

  type Tag = string

  datatype Times = Times(process: int, kernel: int, cycle: u64, wall: int)

  datatype Entry = Entry(times: Times, tag: Tag)

  /** The differences of two neighbours. */
  datatype Delta = Delta(cycle: int, process: int, kernel: int)

  type TagPair = (Tag, Tag)

  type Groups = map<TagPair, seq<Delta>>

  predicate Sorted(s: seq<Entry>) {
    forall i, j :: 0 <= i < j < |s| ==> s[i].times.cycle <= s[j].times.cycle
  }

  function DeltaOf(a: Times, b: Times): Delta {
    Delta(b.cycle - a.cycle, b.process - a.process, b.kernel - a.kernel)
  }

  function Get(g: Groups, k: TagPair): seq<Delta> {
    if k in g then g[k] else []
  }

  function PairAt(s: seq<Entry>, i: nat): TagPair
    requires i + 1 < |s|
  {
    (s[i].tag, s[i + 1].tag)
  }

  function DeltaAt(s: seq<Entry>, i: nat): Delta
    requires i + 1 < |s|
  {
    DeltaOf(s[i].times, s[i + 1].times)
  }

  /** The groups of the first n differences. */
  function GroupsOf(s: seq<Entry>, n: nat): Groups
    requires n == 0 || n < |s|
  {
    if n == 0 then map[]
    else
      var g, k := GroupsOf(s, n - 1), PairAt(s, n - 1);
      g[k := Get(g, k) + [DeltaAt(s, n - 1)]]
  }

  // ---- What the groups hold ----

  /** The differences of one pair of tags, in the order of time. */
  function DeltasBetween(s: seq<Entry>, k: TagPair, n: nat): seq<Delta>
    requires n == 0 || n < |s|
  {
    if n == 0 then []
    else
      var first, second := s[n - 1], s[n];
      var a, b := first.times, second.times;
      DeltasBetween(s, k, n - 1)
      + if first.tag == k.0 && second.tag == k.1
        then [Delta(b.cycle - a.cycle, b.process - a.process, b.kernel - a.kernel)] else []
  }

  lemma OneMoreDelta(s: seq<Entry>, n: nat, k: TagPair)
    requires 0 < n < |s|
    ensures var own := s[n - 1].tag == k.0 && s[n].tag == k.1;
            var g, h := GroupsOf(s, n - 1), GroupsOf(s, n);
            && (if own then k in h && h[k] == Get(g, k) + [DeltaAt(s, n - 1)]
                else (k in h <==> k in g) && Get(h, k) == Get(g, k))
            && DeltasBetween(s, k, n) == DeltasBetween(s, k, n - 1) + if own then [DeltaAt(s, n - 1)] else []
  {
    assert PairAt(s, n - 1) == k <==> s[n - 1].tag == k.0 && s[n].tag == k.1;
  }

  /** Each group is exactly the differences of its neighbours in order; there is a group for each pair
      of tags that are neighbours, and none is empty. */
  lemma {:induction false} GroupsAreExact(s: seq<Entry>, n: nat, k: TagPair)
    requires n == 0 || n < |s|
    ensures Get(GroupsOf(s, n), k) == DeltasBetween(s, k, n)
    ensures k in GroupsOf(s, n) <==> exists i :: 0 <= i < n && s[i].tag == k.0 && s[i + 1].tag == k.1
    ensures k in GroupsOf(s, n) ==> GroupsOf(s, n)[k] != []
  {
    if n > 0 {
      GroupsAreExact(s, n - 1, k);
      OneMoreDelta(s, n, k);
      assert k in GroupsOf(s, n) ==> Get(GroupsOf(s, n), k) == GroupsOf(s, n)[k];
      hide GroupsOf, DeltasBetween, DeltaAt, Get;
      var own := s[n - 1].tag == k.0 && s[n].tag == k.1;
      if !own && k in GroupsOf(s, n) {
        var i :| 0 <= i < n - 1 && s[i].tag == k.0 && s[i + 1].tag == k.1;
        assert GroupsOf(s, n)[k] == GroupsOf(s, n - 1)[k] by { GroupStays(s, n, k); }
      }
    }
  }

  lemma GroupStays(s: seq<Entry>, n: nat, k: TagPair)
    requires 0 < n < |s| && k in GroupsOf(s, n) && !(s[n - 1].tag == k.0 && s[n].tag == k.1)
    ensures k in GroupsOf(s, n - 1) && GroupsOf(s, n)[k] == GroupsOf(s, n - 1)[k]
  {
  }

  ghost predicate Distinct(keys: seq<TagPair>) {
    forall i, j :: 0 <= i < j < |keys| ==> keys[i] != keys[j]
  }

  /** How many differences, and how many cycles, the groups of the given keys hold together. */
  function Count(keys: seq<TagPair>, g: Groups): nat {
    if keys == [] then 0 else |Get(g, keys[0])| + Count(keys[1..], g)
  }

  function Sum(deltas: seq<Delta>): Delta {
    if deltas == [] then Delta(0, 0, 0) else Plus(Sum(deltas[..|deltas| - 1]), deltas[|deltas| - 1])
  }

  function Plus(a: Delta, b: Delta): Delta {
    Delta(a.cycle + b.cycle, a.process + b.process, a.kernel + b.kernel)
  }

  function Total(keys: seq<TagPair>, g: Groups): Delta {
    if keys == [] then Delta(0, 0, 0) else Plus(Sum(Get(g, keys[0])), Total(keys[1..], g))
  }

  lemma SumOfOneMore(v: seq<Delta>, d: Delta)
    ensures Sum(v + [d]) == Plus(Sum(v), d)
  {
    assert (v + [d])[..|v|] == v;
  }

  lemma {:induction false} OtherGroupsStay(keys: seq<TagPair>, g: Groups, k: TagPair, v: seq<Delta>)
    requires k !in keys
    ensures Count(keys, g[k := v]) == Count(keys, g) && Total(keys, g[k := v]) == Total(keys, g)
  {
    if keys != [] {
      assert Get(g[k := v], keys[0]) == Get(g, keys[0]);
      OtherGroupsStay(keys[1..], g, k, v);
    }
  }

  lemma {:induction false} OneGroupGrows(keys: seq<TagPair>, g: Groups, k: TagPair, d: Delta)
    requires Distinct(keys) && k in keys
    ensures var g1 := g[k := Get(g, k) + [d]];
            Count(keys, g1) == Count(keys, g) + 1 && Total(keys, g1) == Plus(Total(keys, g), d)
  {
    hide Sum;
    var v := Get(g, k) + [d];
    if keys[0] == k {
      assert k !in keys[1..];
      OtherGroupsStay(keys[1..], g, k, v);
      SumOfOneMore(Get(g, k), d);
    } else {
      assert Get(g[k := v], keys[0]) == Get(g, keys[0]);
      OneGroupGrows(keys[1..], g, k, d);
    }
  }

  lemma {:induction false} NothingYet(keys: seq<TagPair>)
    ensures Count(keys, map[]) == 0 && Total(keys, map[]) == Delta(0, 0, 0)
  {
    if keys != [] {
      NothingYet(keys[1..]);
    }
  }

  lemma {:induction false} FirstDifferences(s: seq<Entry>, n: nat, keys: seq<TagPair>)
    requires n < |s| && Distinct(keys)
    requires forall k :: k in GroupsOf(s, n) ==> k in keys
    ensures Count(keys, GroupsOf(s, n)) == n
    ensures Total(keys, GroupsOf(s, n)) == DeltaOf(s[0].times, s[n].times)
  {
    if n == 0 {
      NothingYet(keys);
    } else {
      var g, k := GroupsOf(s, n - 1), PairAt(s, n - 1);
      assert GroupsOf(s, n) == g[k := Get(g, k) + [DeltaAt(s, n - 1)]];
      hide GroupsOf, Get, Distinct, Count, Total;
      assert k in GroupsOf(s, n);
      assert forall q :: q in g ==> q in GroupsOf(s, n);
      FirstDifferences(s, n - 1, keys);
      OneGroupGrows(keys, g, k, DeltaAt(s, n - 1));
    }
  }

  lemma {:induction false} NoneIsNegative(s: seq<Entry>, n: nat, k: TagPair)
    requires Sorted(s) && (n == 0 || n < |s|) && k in GroupsOf(s, n)
    ensures forall i :: 0 <= i < |GroupsOf(s, n)[k]| ==> GroupsOf(s, n)[k][i].cycle >= 0
  {
    if n > 0 {
      assert DeltaAt(s, n - 1).cycle >= 0;
      if k in GroupsOf(s, n - 1) {
        NoneIsNegative(s, n - 1, k);
      }
    }
  }

  lemma FirstAndLast(s: seq<Entry>)
    requires s != [] && Sorted(s)
    ensures forall e :: e in s ==> s[0].times.cycle <= e.times.cycle <= s[|s| - 1].times.cycle
  {
    forall e | e in s
      ensures s[0].times.cycle <= e.times.cycle <= s[|s| - 1].times.cycle
    {
      var i :| 0 <= i < |s| && s[i] == e;
    }
  }

  /** Nothing is lost and nothing counted twice: for any sorted order of N checkpoints, the groups hold
      N - 1 differences, none negative, that add up to the time between the first and the last of them,
      which are those of the least and the greatest cycle. */
  lemma Conservation(s: seq<Entry>, keys: seq<TagPair>)
    requires s != [] && Sorted(s) && Distinct(keys)
    requires forall k :: k in keys <==> k in GroupsOf(s, |s| - 1)
    ensures var g := GroupsOf(s, |s| - 1);
            && Count(keys, g) == |s| - 1
            && var first, last, total := s[0].times, s[|s| - 1].times, Total(keys, g);
            && total.cycle == last.cycle - first.cycle
            && total.process == last.process - first.process && total.kernel == last.kernel - first.kernel
            && (forall k, i :: k in g && 0 <= i < |g[k]| ==> g[k][i].cycle >= 0)
    ensures forall e :: e in s ==> s[0].times.cycle <= e.times.cycle <= s[|s| - 1].times.cycle
  {
    hide Count, Total, GroupsOf, Sorted;
    FirstDifferences(s, |s| - 1, keys);
    FirstAndLast(s);
    var g: Groups := GroupsOf(s, |s| - 1);
    forall k: TagPair, i: int | k in g && 0 <= i < |g[k]|
      ensures g[k][i].cycle >= 0
    {
      NoneIsNegative(s, |s| - 1, k);
    }
  }

  // ---- The statistics of one group ----

  datatype Stats = Stats(min: int, max: int, sum: int, num: nat)

  function Added(v: seq<int>): int {
    if v == [] then 0 else Added(v[..|v| - 1]) + v[|v| - 1]
  }

  /** The statistics of these numbers. The average printed is the sum over the number. */
  ghost predicate Describes(r: Stats, v: seq<int>) {
    && r.num == |v| > 0 && r.sum == Added(v) && r.min in v && r.max in v
    && forall i :: 0 <= i < |v| ==> r.min <= v[i] <= r.max
  }

  method VectorStats(v: seq<int>) returns (r: Stats)
    requires v != []
    ensures Describes(r, v)
  {
    var min, max, sum := v[0], v[0], 0;
    for i := 0 to |v|
      invariant min in v && max in v
      invariant forall k :: 0 <= k < i ==> min <= v[k] <= max
      invariant sum == Added(v[..i])
    {
      assert v[..i + 1][..i] == v[..i];
      sum := sum + v[i];
      if v[i] < min {
        min := v[i];
      }
      if v[i] > max {
        max := v[i];
      }
    }
    assert v[..|v|] == v;
    r := Stats(min, max, sum, |v|);
  }

  /** The printed average lies between the printed extremes. */
  lemma {:induction false} AverageIsBetween(v: seq<int>, min: int, max: int)
    requires forall i :: 0 <= i < |v| ==> min <= v[i] <= max
    ensures min * |v| <= Added(v) <= max * |v|
  {
    if v != [] {
      var n := |v| - 1;
      AverageIsBetween(v[..n], min, max);
      OneMoreTimes(min, n);
      OneMoreTimes(max, n);
    }
  }

  lemma OneMoreTimes(a: int, n: int)
    ensures a * (n + 1) == a * n + a
  {
  }

  function Cycles(v: seq<Delta>): seq<int> {
    seq(|v|, i requires 0 <= i < |v| => v[i].cycle)
  }

  function Processes(v: seq<Delta>): seq<int> {
    seq(|v|, i requires 0 <= i < |v| => v[i].process)
  }

  function Kernels(v: seq<Delta>): seq<int> {
    seq(|v|, i requires 0 <= i < |v| => v[i].kernel)
  }

  /** What is printed about one group. */
  datatype Report = Report(cycles: Stats, process: Stats, kernel: Stats)

  ghost predicate Reports(r: Report, v: seq<Delta>) {
    Describes(r.cycles, Cycles(v)) && Describes(r.process, Processes(v)) && Describes(r.kernel, Kernels(v))
  }

  /** The sums behind the printed averages are the totals that are conserved. */
  lemma {:induction false} PrintedSums(v: seq<Delta>)
    ensures Sum(v) == Delta(Added(Cycles(v)), Added(Processes(v)), Added(Kernels(v)))
  {
    if v != [] {
      var init := v[..|v| - 1];
      PrintedSums(init);
      assert Cycles(v)[..|v| - 1] == Cycles(init);
      assert Processes(v)[..|v| - 1] == Processes(init);
      assert Kernels(v)[..|v| - 1] == Kernels(init);
    }
  }

  /** No group is empty, so each has its extremes and its average. */
  method PrintGroups(g: Groups) returns (r: map<TagPair, Report>)
    requires forall k | k in g :: g[k] != []
    ensures r.Keys == g.Keys && forall k | k in g :: Reports(r[k], g[k])
  {
    hide Describes, Cycles, Processes, Kernels;
    r := map[];
    var keys := g.Keys;
    while keys != {}
      invariant keys <= g.Keys && r.Keys == g.Keys - keys
      invariant forall k | k in r :: Reports(r[k], g[k])
      decreases keys
    {
      var k :| k in keys;
      assert |Cycles(g[k])| == |Processes(g[k])| == |Kernels(g[k])| == |g[k]| by { Lengths(g[k]); }
      var cycles := VectorStats(Cycles(g[k]));
      var process := VectorStats(Processes(g[k]));
      var kernel := VectorStats(Kernels(g[k]));
      r := r[k := Report(cycles, process, kernel)];
      keys := keys - {k};
    }
  }

  lemma Lengths(v: seq<Delta>)
    ensures |Cycles(v)| == |Processes(v)| == |Kernels(v)| == |v|
  {
  }

  // ---- The profiler ----

  /** The entries are exactly the recorded checkpoints, each as often as it was recorded. */
  ghost predicate Holds(s: seq<Entry>, points: map<Tag, seq<Times>>) {
    forall e: Entry :: multiset(s)[e] == if e.tag in points then multiset(points[e.tag])[e.times] else 0
  }

  /** The library's sort: some sorted order of the same entries. */
  method Sort(s: seq<Entry>) returns (r: seq<Entry>)
    ensures Sorted(r) && multiset(r) == multiset(s)
  {
    r := [];
    for i := 0 to |s|
      invariant Sorted(r) && multiset(r) == multiset(s[..i])
    {
      assert s[..i + 1] == s[..i] + [s[i]];
      r := Insert(r, s[i]);
    }
    assert s[..|s|] == s;
  }

  lemma InsertAt(s: seq<Entry>, k: nat, e: Entry)
    requires Sorted(s) && k <= |s|
    requires k > 0 ==> s[k - 1].times.cycle <= e.times.cycle
    requires k < |s| ==> e.times.cycle <= s[k].times.cycle
    ensures Sorted(s[..k] + [e] + s[k..])
  {
    var r := s[..k] + [e] + s[k..];
    forall i, j | 0 <= i < j < |r|
      ensures r[i].times.cycle <= r[j].times.cycle
    {
      assert r[i] == if i < k then s[i] else if i == k then e else s[i - 1];
      assert r[j] == if j < k then s[j] else if j == k then e else s[j - 1];
      assert i < k ==> s[i].times.cycle <= s[k - 1].times.cycle;
      assert j > k ==> s[k].times.cycle <= s[j - 1].times.cycle;
    }
  }

  method Insert(s: seq<Entry>, e: Entry) returns (r: seq<Entry>)
    requires Sorted(s)
    ensures Sorted(r) && multiset(r) == multiset(s) + multiset{e}
  {
    hide Sorted;
    var k := |s|;
    while k > 0 && s[k - 1].times.cycle > e.times.cycle
      invariant 0 <= k <= |s| && (k < |s| ==> e.times.cycle < s[k].times.cycle)
    {
      k := k - 1;
    }
    InsertAt(s, k, e);
    r := s[..k] + [e] + s[k..];
    assert s == s[..k] + s[k..];
  }

  method GroupNeighbours(pairs: seq<Entry>) returns (deltas: Groups)
    requires pairs != []
    ensures deltas == GroupsOf(pairs, |pairs| - 1)
  {
    deltas := map[];
    var p := 0;
    while true
      invariant 0 <= p < |pairs| && deltas == GroupsOf(pairs, p)
      decreases |pairs| - p
    {
      var first := pairs[p];
      p := p + 1;
      if p == |pairs| {
        break;
      }
      var second := pairs[p];
      var sp := (first.tag, second.tag);
      deltas := deltas[sp := Get(deltas, sp) + [DeltaOf(first.times, second.times)]];
    }
  }

  lemma SameEntries(a: seq<Entry>, b: seq<Entry>, points: map<Tag, seq<Times>>)
    requires Holds(a, points) && multiset(a) == multiset(b)
    ensures Holds(b, points)
  {
  }

  class ProfileLogger {
    var checkPoints: map<Tag, seq<Times>>
    var last: Times
    var lastDrop: int
    const dropRate: int

    constructor (rate: int, now: int, last: Times)
      ensures checkPoints == map[] && dropRate == rate && lastDrop == now && this.last == last
    {
      checkPoints, dropRate, lastDrop, this.last := map[], rate, now, last;
    }

    /** The time since the previous checkpoint of any tag; the checkpoint itself is recorded. */
    method CheckPoint(tag: Tag, now: Times) returns (t: Times)
      modifies this`checkPoints, this`last
      ensures last == now
      ensures (old(last).cycle + t.cycle) % 0x1_0000_0000_0000_0000 == now.cycle
      ensures old(last).process + t.process == now.process && old(last).kernel + t.kernel == now.kernel
      ensures old(last).wall + t.wall == now.wall
      ensures tag in checkPoints
      ensures checkPoints[tag] == (if tag in old(checkPoints) then old(checkPoints)[tag] else []) + [now]
      ensures checkPoints - {tag} == old(checkPoints) - {tag}
    {
      t := Times(now.process - last.process, now.kernel - last.kernel,
                 (now.cycle - last.cycle) % 0x1_0000_0000_0000_0000, now.wall - last.wall);
      last := now;
      checkPoints := checkPoints[tag := (if tag in checkPoints then checkPoints[tag] else []) + [now]];
    }

    method Collect() returns (s: seq<Entry>)
      ensures Holds(s, checkPoints)
    {
      s := [];
      var tags := checkPoints.Keys;
      while tags != {}
        invariant tags <= checkPoints.Keys
        invariant Holds(s, checkPoints - tags)
        decreases tags
      {
        var tag :| tag in tags;
        s := Append(s, tag, checkPoints[tag], checkPoints - tags);
        tags := tags - {tag};
        assert (checkPoints - (tags + {tag}))[tag := checkPoints[tag]] == checkPoints - tags;
      }
      assert checkPoints - {} == checkPoints;
    }

    /** Once the time has come, sorts everything recorded, groups the differences of neighbours,
        reports on each group and starts afresh; before that, or with nothing recorded, does nothing. */
    method DropStat(now: int) returns (stats: Option<map<TagPair, Report>>, ghost order: seq<Entry>)
      modifies this`checkPoints, this`lastDrop
      ensures stats.Some? <==> now - old(lastDrop) >= dropRate && Anything(old(checkPoints))
      ensures stats.Some? ==>
                && order != [] && Sorted(order) && Holds(order, old(checkPoints))
                && var g := GroupsOf(order, |order| - 1);
                && stats.value.Keys == g.Keys && (forall k | k in g :: Reports(stats.value[k], g[k]))
                && checkPoints == map[] && lastDrop == now
      ensures stats.None? ==> checkPoints == old(checkPoints)
      ensures lastDrop == if old(checkPoints) != map[] && now - old(lastDrop) >= dropRate then now else old(lastDrop)
    {
      hide Holds, Sorted, GroupsOf, Reports;
      order := [];
      if |checkPoints| == 0 {
        return None, order;
      }
      if now - lastDrop < dropRate {
        return None, order;
      }
      lastDrop := now;
      var collected := Collect();
      var pairs := Sort(collected);
      SameEntries(collected, pairs, checkPoints);
      HoldsSomething(pairs, checkPoints);
      order := pairs;
      if |pairs| == 0 {
        return None, order;
      }
      var deltas := GroupNeighbours(pairs);
      forall k: TagPair | k in deltas
        ensures deltas[k] != []
      {
        GroupsAreExact(pairs, |pairs| - 1, k);
      }
      var reports := PrintGroups(deltas);
      checkPoints := map[];
      stats := Some(reports);
    }
  }

  ghost predicate Anything(points: map<Tag, seq<Times>>) {
    exists tag :: tag in points && points[tag] != []
  }

  lemma HoldsSomething(s: seq<Entry>, points: map<Tag, seq<Times>>)
    requires Holds(s, points)
    ensures s != [] <==> Anything(points)
  {
    if s != [] {
      assert s[0] in multiset(s);
      assert s[0].tag in points && s[0].times in multiset(points[s[0].tag]);
    }
    if Anything(points) {
      var tag :| tag in points && points[tag] != [];
      assert points[tag][0] in multiset(points[tag]);
      assert multiset(s)[Entry(points[tag][0], tag)] > 0;
    }
  }

  lemma OneMoreEntry(s: seq<Entry>, points: map<Tag, seq<Times>>, tag: Tag, times: seq<Times>, t: Times)
    requires Holds(s, points[tag := times])
    ensures Holds(s + [Entry(t, tag)], points[tag := times + [t]])
  {
    var more := points[tag := times + [t]];
    assert multiset(s + [Entry(t, tag)]) == multiset(s)[Entry(t, tag) := multiset(s)[Entry(t, tag)] + 1];
    assert multiset(times + [t]) == multiset(times)[t := multiset(times)[t] + 1];
  }

  method Append(s: seq<Entry>, tag: Tag, times: seq<Times>, ghost points: map<Tag, seq<Times>>) returns (r: seq<Entry>)
    requires Holds(s, points) && tag !in points
    ensures Holds(r, points[tag := times])
  {
    assert Holds(s, points[tag := times[..0]]);
    hide Holds;
    r := s;
    for i := 0 to |times|
      invariant Holds(r, points[tag := times[..i]])
    {
      assert times[..i + 1] == times[..i] + [times[i]];
      OneMoreEntry(r, points, tag, times[..i], times[i]);
      r := r + [Entry(times[i], tag)];
    }
    assert times[..|times|] == times;
  }
}
