/** Groupings by label and by time bucket, ranked and ordered for display. */
module Aggregates {
  import opened LogRows
  import opened Selections
  import opened Sorting
  import opened DayKeys
  import opened QueryOrder
  import opened Rollup

  // ---- Totals do not depend on the order of rows.

  ghost predicate SumsWith(more: seq<Row>, l: seq<Row>, r: Row) {
    Sum(more) == Plus(Sum(l), OfRow(r)) && SumGroup(more) == PlusGroup(SumGroup(l), GroupOfRow(r))
  }

  lemma {:induction false} SumInsert(l: seq<Row>, r: Row)
    ensures SumsWith(InsertNewest(l, r), l, r)
  {
    if l == [] || l[0].created <= r.created {
      SumFront(r, l);
    } else {
      SumInsert(l[1..], r);
      SumBehind(l[0], InsertNewest(l[1..], r), l[1..], r);
      assert l == [l[0]] + l[1..];
    }
  }

  lemma SumBehind(x: Row, more: seq<Row>, l: seq<Row>, r: Row)
    requires SumsWith(more, l, r)
    ensures SumsWith([x] + more, [x] + l, r)
  {
    SumFront(x, more);
    SumFront(x, l);
  }

  lemma SumFront(r: Row, l: seq<Row>)
    ensures Sum([r] + l) == Plus(OfRow(r), Sum(l)) && SumGroup([r] + l) == PlusGroup(GroupOfRow(r), SumGroup(l))
  {
    SumOne(r);
    SumConcat([r], l);
    SumGroupConcat([r], l);
  }

  lemma SumOne(r: Row)
    ensures Sum([r]) == OfRow(r) && SumGroup([r]) == GroupOfRow(r)
  {
    assert [r] == [] + [r];
    SumSnoc([], r);
  }

  lemma {:induction false} SumNewestFirst(rows: seq<Row>)
    ensures Sum(NewestFirst(rows)) == Sum(rows)
    ensures SumGroup(NewestFirst(rows)) == SumGroup(rows)
  {
    if rows != [] {
      SumNewestFirst(rows[..|rows| - 1]);
      SumInsert(NewestFirst(rows[..|rows| - 1]), rows[|rows| - 1]);
    }
  }

  // ---- The top groups.

  datatype NamedMetric = NamedMetric(name: string, group: Group)

  function MetricOf(k: string, g: Group): NamedMetric {
    NamedMetric(if k == "" then "(none)" else k, g)
  }

  predicate MetricLess(a: NamedMetric, b: NamedMetric) {
    if a.group.count != b.group.count then a.group.count > b.group.count else LexLess(a.name, b.name)
  }

  function MetricOrder(): (NamedMetric, NamedMetric) -> bool {
    (a: NamedMetric, b: NamedMetric) => MetricLess(a, b)
  }

  lemma MetricTransitive(a: NamedMetric, b: NamedMetric, c: NamedMetric)
    ensures MetricLess(a, b) && MetricLess(b, c) ==> MetricLess(a, c)
    ensures !MetricLess(a, b) && !MetricLess(b, c) ==> !MetricLess(a, c)
  {
    if a.group.count == b.group.count == c.group.count {
      if LexLess(a.name, b.name) && LexLess(b.name, c.name) {
        LexTransitive(a.name, b.name, c.name);
      }
      if !LexLess(a.name, b.name) && !LexLess(b.name, c.name) && LexLess(a.name, c.name) && a.name != b.name
        && b.name != c.name {
        LexTotal(a.name, b.name);
        LexTotal(b.name, c.name);
        LexTransitive(c.name, b.name, a.name);
        LexAsymmetric(a.name, c.name);
      }
    }
  }

  lemma MetricOrderIsStrictWeak()
    ensures StrictWeakOrder(MetricOrder())
  {
    forall a ensures !MetricOrder()(a, a) {
      LexIrreflexive(a.name);
    }
    forall a, b, c ensures MetricOrder()(a, b) && MetricOrder()(b, c) ==> MetricOrder()(a, c) {
      MetricTransitive(a, b, c);
    }
    forall a, b, c ensures !MetricOrder()(a, b) && !MetricOrder()(b, c) ==> !MetricOrder()(a, c) {
      MetricTransitive(a, b, c);
    }
  }

  /** keys lists every label of the grouping once, metrics their groups in the same order. */
  ghost predicate MetricsOf(groups: Groups, keys: seq<string>, metrics: seq<NamedMetric>) {
    && |metrics| == |keys| && (forall k :: k in keys <==> k in groups)
    && (forall i, j :: 0 <= i < j < |keys| ==> keys[i] != keys[j])
    && (forall i :: 0 <= i < |keys| ==> keys[i] in groups && metrics[i] == MetricOf(keys[i], groups[keys[i]]))
  }

  /** out heads some display order of all groups: count descending, label ascending. */
  ghost predicate TopOf(out: seq<NamedMetric>, groups: Groups, limit: int) {
    exists keys, metrics, all :: MetricsOf(groups, keys, metrics) && multiset(all) == multiset(metrics)
      && Sorted(MetricOrder(), all) && HeadOf(out, all, if limit <= 0 then 10 else limit)
  }

  ghost predicate HeadOf(out: seq<NamedMetric>, all: seq<NamedMetric>, limit: nat) {
    out == all[..if limit <= |all| then limit else |all|]
  }

  method RankGroups(groups: Groups, limit: int) returns (out: seq<NamedMetric>)
    ensures TopOf(out, groups, limit)
  {
    var todo := groups.Keys;
    ghost var keys := [];
    var metrics := [];
    while todo != {}
      invariant todo <= groups.Keys && |metrics| == |keys| && forall k :: k in keys <==> k in groups.Keys - todo
      invariant forall i, j :: 0 <= i < j < |keys| ==> keys[i] != keys[j]
      invariant forall i :: 0 <= i < |keys| ==> keys[i] in groups && metrics[i] == MetricOf(keys[i], groups[keys[i]])
      decreases todo
    {
      var k :| k in todo;
      assert k !in keys;
      keys := keys + [k];
      metrics := metrics + [MetricOf(k, groups[k])];
      todo := todo - {k};
    }
    var n := if limit <= 0 then 10 else limit;
    var all := StableSort(MetricOrder(), metrics);
    MetricOrderIsStrictWeak();
    SortIsSorted(MetricOrder(), metrics);
    out := if n <= |all| then all[..n] else all;
    assert MetricsOf(groups, keys, metrics) && HeadOf(out, all, n);
  }

  /** One listed group: its label, or "(none)" for the empty one, and the metrics of the rows that carry it. */
  ghost predicate Shows(m: NamedMetric, field: string, k: string, rows: seq<Row>) {
    && m.name == (if k == "" then "(none)" else k)
    && Select(HasLabel(field, k), rows) != [] && AddsGroup(m.group, Select(HasLabel(field, k), rows))
  }

  /** Groups of different labels, largest count first and among equals by name; at most limit, 10 where none is
      given, and a label is left out only where limit groups with no smaller count are listed. */
  ghost predicate TopGroups(out: seq<NamedMetric>, field: string, rows: seq<Row>, limit: int) {
    exists labels :: ListsTop(out, labels, field, rows, limit)
  }

  ghost predicate ListsTop(out: seq<NamedMetric>, labels: seq<string>, field: string, rows: seq<Row>, limit: int) {
    var n := if limit <= 0 then 10 else limit;
    && |labels| == |out| <= n && Distinct(labels)
    && (forall i :: 0 <= i < |out| ==> Shows(out[i], field, labels[i], rows))
    && (forall i, j :: 0 <= i < j < |out| ==>
          out[j].group.count < out[i].group.count
          || (out[j].group.count == out[i].group.count && !LexLess(out[j].name, out[i].name)))
    && (forall k :: k !in labels && Select(HasLabel(field, k), rows) != [] ==> OutCounted(out, n, field, k, rows))
  }

  ghost predicate OutCounted(out: seq<NamedMetric>, n: int, field: string, k: string, rows: seq<Row>) {
    |out| == n && forall i :: 0 <= i < |out| ==> |Select(HasLabel(field, k), rows)| <= out[i].group.count
  }

  /** What a ranking of the grouping tells of the rows. */
  lemma TopMeans(out: seq<NamedMetric>, field: string, rows: seq<Row>, limit: int)
    requires ValidField(field) && TopOf(out, GroupBy(field, rows), limit)
    ensures TopGroups(out, field, rows, limit)
  {
    var groups := GroupBy(field, rows);
    var n := if limit <= 0 then 10 else limit;
    var keys, metrics, all :| MetricsOf(groups, keys, metrics) && multiset(all) == multiset(metrics)
      && Sorted(MetricOrder(), all) && HeadOf(out, all, n);
    var labels := LabelsOf(groups, keys, metrics, all);
    HeadMeans(out, field, rows, limit, labels, all);
    assert ListsTop(out, labels[..|out|], field, rows, limit);
  }

  lemma LabelsOf(groups: Groups, keys: seq<string>, metrics: seq<NamedMetric>, all: seq<NamedMetric>)
    returns (labels: seq<string>)
    requires MetricsOf(groups, keys, metrics) && multiset(all) == multiset(metrics)
    ensures |labels| == |all| && Distinct(labels) && forall k :: k in groups ==> k in labels
    ensures forall i :: 0 <= i < |labels| ==> labels[i] in groups && all[i] == MetricOf(labels[i], groups[labels[i]])
  {
    labels := Rearranged((k: string) => MetricOf(k, At(groups, k)), keys, metrics, all);
    PermutedKeys(keys, labels);
  }

  lemma HeadMeans(out: seq<NamedMetric>, field: string, rows: seq<Row>, limit: int, labels: seq<string>,
                  all: seq<NamedMetric>)
    requires ValidField(field) && Sorted(MetricOrder(), all) && HeadOf(out, all, if limit <= 0 then 10 else limit)
    requires |labels| == |all| && Distinct(labels) && forall k :: k in GroupBy(field, rows) ==> k in labels
    requires forall i :: 0 <= i < |labels| ==>
      labels[i] in GroupBy(field, rows) && all[i] == MetricOf(labels[i], GroupBy(field, rows)[labels[i]])
    ensures |out| <= |labels| && ListsTop(out, labels[..|out|], field, rows, limit)
  {
    var own := labels[..|out|];
    forall i | 0 <= i < |out| ensures Shows(out[i], field, own[i], rows) {
      GroupsAdd(field, rows, labels[i]);
    }
    forall i, j | 0 <= i < j < |out|
      ensures out[j].group.count < out[i].group.count
        || (out[j].group.count == out[i].group.count && !LexLess(out[j].name, out[i].name))
    {
      assert !MetricOrder()(all[j], all[i]);
    }
    forall k | k !in own && Select(HasLabel(field, k), rows) != []
      ensures OutCounted(out, if limit <= 0 then 10 else limit, field, k, rows)
    {
      LeftOut(out, field, rows, if limit <= 0 then 10 else limit, labels, all, k);
    }
  }

  lemma LeftOut(out: seq<NamedMetric>, field: string, rows: seq<Row>, n: nat, labels: seq<string>,
                all: seq<NamedMetric>, k: string)
    requires ValidField(field) && Sorted(MetricOrder(), all) && HeadOf(out, all, n) && |labels| == |all|
    requires forall i :: 0 <= i < |labels| ==>
      labels[i] in GroupBy(field, rows) && all[i] == MetricOf(labels[i], GroupBy(field, rows)[labels[i]])
    requires k in GroupBy(field, rows) ==> k in labels
    requires k !in labels[..|out|] && Select(HasLabel(field, k), rows) != []
    ensures OutCounted(out, n, field, k, rows)
  {
    GroupsAdd(field, rows, k);
    var j :| 0 <= j < |labels| && labels[j] == k;
    assert j >= |out|;
    forall i | 0 <= i < |out| ensures |Select(HasLabel(field, k), rows)| <= out[i].group.count {
      assert !MetricOrder()(all[j], all[i]);
    }
  }

  // ---- Time buckets.

  datatype SeriesBucket = SeriesBucket(bucket: int, totals: Totals)

  predicate BucketLess(a: SeriesBucket, b: SeriesBucket) {
    a.bucket < b.bucket
  }

  function BucketOrder(): (SeriesBucket, SeriesBucket) -> bool {
    (a: SeriesBucket, b: SeriesBucket) => BucketLess(a, b)
  }

  type Series = map<int, Totals>

  /** Each bucket that rows fall into, with the totals of exactly those rows. */
  ghost predicate BucketsOf(bucketOf: Row -> int, rows: seq<Row>, agg: Series)
  {
    && (forall b :: b in agg ==> agg[b] == Sum(Select(InBucket(bucketOf, b), rows)))
    && (forall r :: r in rows ==> bucketOf(r) in agg)
    && (forall b :: b in agg ==> Occurs(bucketOf, b, rows))
  }

  method AddToSeries(bucketOf: Row -> int, ghost rows: seq<Row>, agg: Series, e: Row) returns (agg': Series)
    requires BucketsOf(bucketOf, rows, agg)
    ensures BucketsOf(bucketOf, rows + [e], agg')
  {
    var b := bucketOf(e);
    agg' := agg[b := Plus(if b in agg then agg[b] else ZERO, OfRow(e))];
    SeriesStep(bucketOf, rows, agg, e, agg');
  }

  lemma SeriesStep(bucketOf: Row -> int, rows: seq<Row>, agg: Series, e: Row, agg': Series)
    requires BucketsOf(bucketOf, rows, agg)
    requires var b := bucketOf(e); agg' == agg[b := Plus(if b in agg then agg[b] else ZERO, OfRow(e))]
    ensures BucketsOf(bucketOf, rows + [e], agg')
  {
    forall b | b in agg' ensures agg'[b] == Sum(Select(InBucket(bucketOf, b), rows + [e])) {
      BucketSnoc(bucketOf, rows, e, b);
      if b !in agg {
        SelectNone(InBucket(bucketOf, b), rows);
      }
    }
    forall b | b in agg' ensures Occurs(bucketOf, b, rows + [e]) {
      if b in agg {
        assert Occurs(bucketOf, b, rows);
        var r :| r in rows && bucketOf(r) == b;
        assert r in rows + [e];
      } else {
        assert e in rows + [e];
      }
    }
  }

  lemma BucketSnoc(bucketOf: Row -> int, rows: seq<Row>, e: Row, b: int)
    ensures Sum(Select(InBucket(bucketOf, b), rows + [e])) ==
            if bucketOf(e) == b then Plus(Sum(Select(InBucket(bucketOf, b), rows)), OfRow(e))
              else Sum(Select(InBucket(bucketOf, b), rows))
  {
    var s := Select(InBucket(bucketOf, b), rows);
    SelectSnoc(InBucket(bucketOf, b), rows, e);
    if bucketOf(e) == b {
      SumSnoc(s, e);
    } else {
      assert s + [] == s;
    }
  }

  function SumBuckets(out: seq<SeriesBucket>): Totals {
    if out == [] then ZERO else Plus(SumBuckets(out[..|out| - 1]), out[|out| - 1].totals)
  }

  /** The totals of the listed buckets, added up. */
  ghost function BucketTotals(bucketOf: Row -> int, bs: seq<int>, rows: seq<Row>): Totals {
    if bs == [] then ZERO
    else Plus(BucketTotals(bucketOf, bs[..|bs| - 1], rows), Sum(Select(InBucket(bucketOf, bs[|bs| - 1]), rows)))
  }

  lemma {:induction false} RowInOneBucket(bucketOf: Row -> int, bs: seq<int>, rows: seq<Row>, e: Row)
    requires forall i, j :: 0 <= i < j < |bs| ==> bs[i] != bs[j]
    ensures BucketTotals(bucketOf, bs, rows + [e]) ==
            if bucketOf(e) in bs then Plus(BucketTotals(bucketOf, bs, rows), OfRow(e))
              else BucketTotals(bucketOf, bs, rows)
  {
    if bs != [] {
      var init, last := bs[..|bs| - 1], bs[|bs| - 1];
      assert bs == init + [last] && last !in init;
      RowInOneBucket(bucketOf, init, rows, e);
      BucketSnoc(bucketOf, rows, e, last);
      PlusRow(BucketTotals(bucketOf, init, rows), Sum(Select(InBucket(bucketOf, last), rows)), OfRow(e));
    }
  }

  lemma PlusRow(a: Totals, b: Totals, r: Totals)
    ensures Plus(Plus(a, r), b) == Plus(Plus(a, b), r)
    ensures Plus(a, Plus(b, r)) == Plus(Plus(a, b), r)
  {
  }

  /** Distinct buckets that together catch every row account for every row once. */
  lemma {:induction false} BucketsPartition(bucketOf: Row -> int, bs: seq<int>, rows: seq<Row>)
    requires forall i, j :: 0 <= i < j < |bs| ==> bs[i] != bs[j]
    requires forall r :: r in rows ==> bucketOf(r) in bs
    ensures BucketTotals(bucketOf, bs, rows) == Sum(rows)
  {
    if rows == [] {
      NoTotals(bucketOf, bs);
    } else {
      var init, last := rows[..|rows| - 1], rows[|rows| - 1];
      assert rows == init + [last];
      BucketsPartition(bucketOf, bs, init);
      RowInOneBucket(bucketOf, bs, init, last);
    }
  }

  lemma {:induction false} NoTotals(bucketOf: Row -> int, bs: seq<int>)
    ensures BucketTotals(bucketOf, bs, []) == ZERO
  {
    if bs != [] {
      NoTotals(bucketOf, bs[..|bs| - 1]);
    }
  }

  ghost function Starts(out: seq<SeriesBucket>): (bs: seq<int>)
    ensures |bs| == |out| && forall i :: 0 <= i < |out| ==> bs[i] == out[i].bucket
  {
    seq(|out|, i requires 0 <= i < |out| => out[i].bucket)
  }

  ghost predicate Totalled(bucketOf: Row -> int, rows: seq<Row>, b: SeriesBucket) {
    b.totals == Sum(Select(InBucket(bucketOf, b.bucket), rows))
  }

  lemma {:induction false} SumOfBuckets(bucketOf: Row -> int, out: seq<SeriesBucket>, bs: seq<int>, rows: seq<Row>)
    requires |bs| == |out| && forall i :: 0 <= i < |out| ==> bs[i] == out[i].bucket && Totalled(bucketOf, rows, out[i])
    ensures SumBuckets(out) == BucketTotals(bucketOf, bs, rows)
  {
    if out != [] {
      var n := |out| - 1;
      SumOfBuckets(bucketOf, out[..n], bs[..n], rows);
      assert Totalled(bucketOf, rows, out[n]) && bs[n] == out[n].bucket;
    }
  }

  /** Ascending buckets with the totals of their rows, and one for every row. */
  ghost predicate SeriesOf(bucketOf: Row -> int, out: seq<SeriesBucket>, rows: seq<Row>) {
    && (forall i, j :: 0 <= i < j < |out| ==> out[i].bucket < out[j].bucket)
    && (forall i :: 0 <= i < |out| ==> Totalled(bucketOf, rows, out[i]))
    && (forall i :: 0 <= i < |out| ==> Occurs(bucketOf, out[i].bucket, rows))
    && (forall r :: r in rows ==> Listed(out, bucketOf(r)))
    && SumBuckets(out) == Sum(rows)
  }

  ghost predicate Occurs(bucketOf: Row -> int, b: int, rows: seq<Row>) {
    exists r :: r in rows && bucketOf(r) == b
  }

  ghost predicate Listed(out: seq<SeriesBucket>, b: int) {
    exists i :: 0 <= i < |out| && out[i].bucket == b
  }

  /** One bucket: it starts at a multiple of the width and holds the totals of the rows in its span, at least one. */
  ghost predicate Bar(b: SeriesBucket, width: int, rows: seq<Row>)
    requires width > 0
  {
    var own := Select(InSpan(width, b.bucket), rows);
    b.bucket % width == 0 && own != [] && Adds(b.totals, own)
  }

  /** The buckets ascend, every row falls into one, and together they hold the totals of all. */
  ghost predicate Charts(out: seq<SeriesBucket>, width: int, rows: seq<Row>)
    requires width > 0
  {
    && (forall i, j :: 0 <= i < j < |out| ==> out[i].bucket < out[j].bucket)
    && (forall i :: 0 <= i < |out| ==> Bar(out[i], width, rows))
    && (forall r :: r in rows ==> Falls(r, width, out))
    && Adds(SumBuckets(out), rows)
  }

  /** The bucket that the row falls into. */
  ghost predicate Falls(r: Row, width: int, out: seq<SeriesBucket>) {
    exists i :: 0 <= i < |out| && InSpan(width, out[i].bucket)(r)
  }

  lemma SeriesCharts(out: seq<SeriesBucket>, width: int, rows: seq<Row>)
    requires width > 0 && SeriesOf(Bucketing(width), out, rows)
    ensures Charts(out, width, rows)
  {
    forall i | 0 <= i < |out| ensures Bar(out[i], width, rows) {
      BarOf(out[i], width, rows);
    }
    forall r | r in rows ensures Falls(r, width, out) {
      FallsIn(r, width, out);
    }
    SumAdds(rows);
  }

  lemma FallsIn(r: Row, width: int, out: seq<SeriesBucket>)
    requires width > 0 && Listed(out, Bucketing(width)(r))
    ensures Falls(r, width, out)
  {
    var i :| 0 <= i < |out| && out[i].bucket == Bucketing(width)(r);
    BucketIff(width, r, out[i].bucket);
  }

  lemma BarOf(b: SeriesBucket, width: int, rows: seq<Row>)
    requires width > 0 && Totalled(Bucketing(width), rows, b)
    requires Occurs(Bucketing(width), b.bucket, rows)
    ensures Bar(b, width, rows)
  {
    var e :| e in rows && Bucketing(width)(e) == b.bucket;
    BucketIff(width, e, b.bucket);
    SameRows(width, b.bucket, rows);
    SumAdds(Select(InSpan(width, b.bucket), rows));
    SelectMembers(InSpan(width, b.bucket), rows);
  }

  lemma SameRows(width: int, start: int, rows: seq<Row>)
    requires width > 0 && start % width == 0
    ensures Select(InBucket(Bucketing(width), start), rows) == Select(InSpan(width, start), rows)
  {
    forall r | r in rows ensures InBucket(Bucketing(width), start)(r) == InSpan(width, start)(r) {
      BucketIff(width, r, start);
    }
    SelectAgree(InBucket(Bucketing(width), start), InSpan(width, start), rows);
  }

  lemma ListedSum(bucketOf: Row -> int, rows: seq<Row>, agg: Series, out: seq<SeriesBucket>)
    requires BucketsOf(bucketOf, rows, agg)
    requires forall i :: 0 <= i < |out| ==> out[i].bucket in agg && out[i].totals == agg[out[i].bucket]
    requires forall i, j :: 0 <= i < j < |out| ==> out[i].bucket < out[j].bucket
    requires forall b :: b in agg ==> Listed(out, b)
    ensures SeriesOf(bucketOf, out, rows)
  {
    var bs := Starts(out);
    forall r | r in rows ensures bucketOf(r) in bs && Listed(out, bucketOf(r)) {
      assert Listed(out, bucketOf(r));
      var i :| 0 <= i < |out| && out[i].bucket == bucketOf(r);
      assert bs[i] == bucketOf(r);
    }
    SumOfBuckets(bucketOf, out, bs, rows);
    BucketsPartition(bucketOf, bs, rows);
  }

  /** The buckets in ascending order. */
  method ListBuckets(bucketOf: Row -> int, ghost rows: seq<Row>, agg: Series) returns (out: seq<SeriesBucket>)
    requires BucketsOf(bucketOf, rows, agg)
    ensures SeriesOf(bucketOf, out, rows)
  {
    var found := Unordered(agg);
    out := StableSort(BucketOrder(), found);
    SortIsSorted(BucketOrder(), found);
    OrderedBuckets(agg, found, out);
    ListedSum(bucketOf, rows, agg, out);
  }

  method Unordered(agg: Series) returns (found: seq<SeriesBucket>)
    ensures forall i :: 0 <= i < |found| ==> found[i].bucket in agg && found[i].totals == agg[found[i].bucket]
    ensures forall i, j :: 0 <= i < j < |found| ==> found[i].bucket != found[j].bucket
    ensures forall b :: b in agg ==> SeriesBucket(b, agg[b]) in found
  {
    var todo := agg.Keys;
    found := [];
    while todo != {}
      invariant todo <= agg.Keys
      invariant forall i :: 0 <= i < |found| ==>
        found[i].bucket in agg.Keys - todo && found[i].totals == agg[found[i].bucket]
      invariant forall i, j :: 0 <= i < j < |found| ==> found[i].bucket != found[j].bucket
      invariant forall b :: b in agg.Keys - todo ==> SeriesBucket(b, agg[b]) in found
      decreases todo
    {
      SomeMember(todo);
      var b :| b in todo;
      found := found + [SeriesBucket(b, agg[b])];
      todo := todo - {b};
    }
  }

  lemma SomeMember(s: set<int>)
    requires s != {}
    ensures exists b :: b in s
  {
    assert (forall b :: b !in s) ==> s == {};
  }

  lemma OrderedBuckets(agg: Series, found: seq<SeriesBucket>, out: seq<SeriesBucket>)
    requires multiset(out) == multiset(found) && Sorted(BucketOrder(), out)
    requires forall i :: 0 <= i < |found| ==> found[i].bucket in agg && found[i].totals == agg[found[i].bucket]
    requires forall i, j :: 0 <= i < j < |found| ==> found[i].bucket != found[j].bucket
    requires forall b :: b in agg ==> SeriesBucket(b, agg[b]) in found
    ensures forall i :: 0 <= i < |out| ==> out[i].bucket in agg && out[i].totals == agg[out[i].bucket]
    ensures forall i, j :: 0 <= i < j < |out| ==> out[i].bucket < out[j].bucket
    ensures forall b :: b in agg ==> Listed(out, b)
  {
    forall i | 0 <= i < |out| ensures out[i] in found && out[i].bucket in agg && out[i].totals == agg[out[i].bucket] {
      assert out[i] in multiset(out);
    }
    forall i, j | 0 <= i < j < |out| ensures out[i].bucket < out[j].bucket {
      assert !BucketOrder()(out[j], out[i]);
      if out[i].bucket == out[j].bucket {
        assert out[i] == out[j];
        TwiceIn(out, i, j);
        OnceInBuckets(found, out[i]);
      }
    }
    forall b | b in agg ensures Listed(out, b) {
      var x := SeriesBucket(b, agg[b]);
      assert x in multiset(found);
      assert x in out;
    }
  }

  lemma {:induction false} OnceInBuckets(s: seq<SeriesBucket>, x: SeriesBucket)
    requires forall i, j :: 0 <= i < j < |s| ==> s[i].bucket != s[j].bucket
    ensures multiset(s)[x] <= 1
  {
    if s != [] {
      var init, last := s[..|s| - 1], s[|s| - 1];
      assert s == init + [last];
      OnceInBuckets(init, x);
      assert last !in init;
    }
  }
}
