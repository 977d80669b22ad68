/** The bounded heap in which a query keeps its best rows. */
module TopK {
  import opened LogRows
  import opened Sorting
  import opened QueryOrder

  datatype RankedRow = RankedRow(row: Row, created: int, rank: int)

  predicate Newer(a: RankedRow, b: RankedRow) {
    if a.created != b.created then a.created > b.created else a.rank > b.rank
  }

  function NewerOrder(): (RankedRow, RankedRow) -> bool {
    (a: RankedRow, b: RankedRow) => Newer(a, b)
  }

  lemma NewerIsStrictWeak()
    ensures StrictWeakOrder(NewerOrder())
  {
  }

  function Parent(i: nat): (p: nat)
    requires i > 0
    ensures p < i
  {
    (i - 1) / 2
  }

  /** No row is older than its parent, so the root is the oldest. */
  ghost predicate HeapOrdered(h: seq<RankedRow>) {
    forall i :: 1 <= i < |h| ==> !Newer(h[Parent(i)], h[i])
  }

  /** Heap order but for the edge above k, around which it still holds. */
  ghost predicate HeapButAbove(h: seq<RankedRow>, k: nat) {
    && (forall i :: 1 <= i < |h| && i != k ==> !Newer(h[Parent(i)], h[i]))
    && (forall i :: 1 <= i < |h| && k > 0 && Parent(i) == k ==> !Newer(h[Parent(k)], h[i]))
  }

  /** Heap order of the first n rows but for the edges below k, around which it still holds. */
  ghost predicate HeapButBelow(h: seq<RankedRow>, k: nat, n: nat)
    requires n <= |h|
  {
    && (forall i :: 1 <= i < n && Parent(i) != k ==> !Newer(h[Parent(i)], h[i]))
    && (forall i :: 1 <= i < n && 0 < k && Parent(i) == k ==> !Newer(h[Parent(k)], h[i]))
  }

  function Swap(h: seq<RankedRow>, i: nat, j: nat): (r: seq<RankedRow>)
    requires i < |h| && j < |h|
    ensures |r| == |h| && multiset(r) == multiset(h)
  {
    h[i := h[j]][j := h[i]]
  }

  /** container/heap's up. */
  method SiftUp(h0: seq<RankedRow>, k: nat) returns (h: seq<RankedRow>)
    requires k < |h0| && HeapButAbove(h0, k)
    ensures HeapOrdered(h) && multiset(h) == multiset(h0) && |h| == |h0|
  {
    h := h0;
    var j := k;
    while j > 0 && Newer(h[Parent(j)], h[j])
      invariant 0 <= j < |h| == |h0| && multiset(h) == multiset(h0)
      invariant HeapButAbove(h, j)
    {
      UpStep(h, j);
      h := Swap(h, Parent(j), j);
      j := Parent(j);
    }
  }

  lemma UpStep(h: seq<RankedRow>, j: nat)
    requires 0 < j < |h| && HeapButAbove(h, j) && Newer(h[Parent(j)], h[j])
    ensures HeapButAbove(Swap(h, Parent(j), j), Parent(j))
  {
    var p := Parent(j);
    var r := Swap(h, p, j);
    forall i | 1 <= i < |r| && i != p ensures !Newer(r[Parent(i)], r[i]) {
      assert i == j || !Newer(h[Parent(i)], h[i]);
    }
    forall i | 1 <= i < |r| && p > 0 && Parent(i) == p ensures !Newer(r[Parent(p)], r[i]) {
      assert !Newer(h[Parent(p)], h[p]);
      assert i == j || !Newer(h[p], h[i]);
    }
  }

  /** container/heap's down, on the first n rows. */
  method SiftDown(h0: seq<RankedRow>, n: nat) returns (h: seq<RankedRow>)
    requires n <= |h0| && HeapButBelow(h0, 0, n)
    ensures multiset(h) == multiset(h0) && |h| == |h0| && h[n..] == h0[n..]
    ensures forall i :: 1 <= i < n ==> !Newer(h[Parent(i)], h[i])
  {
    h := h0;
    var i := 0;
    while 2 * i + 1 < n
      invariant |h| == |h0| && multiset(h) == multiset(h0) && h[n..] == h0[n..]
      invariant HeapButBelow(h, i, n)
      decreases n - i
    {
      var j := OlderChild(h, i, n);
      if !Newer(h[i], h[j]) {
        break;
      }
      DownStep(h, i, j, n);
      h := Swap(h, i, j);
      i := j;
    }
  }

  function OlderChild(h: seq<RankedRow>, i: nat, n: nat): (j: nat)
    requires n <= |h| && 2 * i + 1 < n
    ensures 0 < j < n && Parent(j) == i
    ensures forall c :: 1 <= c < n && Parent(c) == i ==> !Newer(h[j], h[c])
  {
    var j := 2 * i + 1;
    if j + 1 < n && Newer(h[j], h[j + 1]) then j + 1 else j
  }

  lemma DownStep(h: seq<RankedRow>, i: nat, j: nat, n: nat)
    requires n <= |h| && HeapButBelow(h, i, n) && 0 < j < n && Parent(j) == i && Newer(h[i], h[j])
    requires forall c :: 1 <= c < n && Parent(c) == i ==> !Newer(h[j], h[c])
    ensures HeapButBelow(Swap(h, i, j), j, n)
    ensures Swap(h, i, j)[n..] == h[n..]
  {
    var r := Swap(h, i, j);
    forall c | 1 <= c < n && Parent(c) != j ensures !Newer(r[Parent(c)], r[c]) {
      assert Parent(c) == i || !Newer(h[Parent(c)], h[c]);
      assert c == i && i > 0 ==> Parent(j) == i && !Newer(h[Parent(i)], h[j]);
    }
    forall c | 1 <= c < n && Parent(c) == j ensures !Newer(r[Parent(j)], r[c]) {
      assert c != i && c != j && !Newer(h[Parent(c)], h[c]);
    }
  }

  lemma {:induction false} RootIsOldest(h: seq<RankedRow>, i: nat)
    requires HeapOrdered(h) && i < |h|
    ensures !Newer(h[0], h[i])
  {
    if i > 0 {
      RootIsOldest(h, Parent(i));
    }
  }

  method Push(h0: seq<RankedRow>, x: RankedRow) returns (h: seq<RankedRow>)
    requires HeapOrdered(h0)
    ensures HeapOrdered(h) && multiset(h) == multiset(h0) + multiset{x} && |h| == |h0| + 1
  {
    h := h0 + [x];
    forall i | 1 <= i < |h| && i != |h0| ensures !Newer(h[Parent(i)], h[i]) {
      assert !Newer(h0[Parent(i)], h0[i]);
    }
    h := SiftUp(h, |h0|);
  }

  /** Removes the oldest row. */
  method Pop(h0: seq<RankedRow>) returns (h: seq<RankedRow>, x: RankedRow)
    requires HeapOrdered(h0) && h0 != []
    ensures x == h0[0] && HeapOrdered(h) && multiset(h) + multiset{x} == multiset(h0) && |h| == |h0| - 1
  {
    var n := |h0| - 1;
    h := Swap(h0, 0, n);
    forall i | 1 <= i < n && Parent(i) != 0 ensures !Newer(h[Parent(i)], h[i]) {
      assert !Newer(h0[Parent(i)], h0[i]);
    }
    h := SiftDown(h, n);
    assert h == h[..n] + h[n..] && h[n..] == [h[n]];
    assert h[n..] == Swap(h0, 0, n)[n..];
    x := h[n];
    ghost var whole := h;
    h := h[..n];
    forall i | 1 <= i < |h| ensures !Newer(h[Parent(i)], h[i]) {
      assert !Newer(whole[Parent(i)], whole[i]);
    }
  }

  /** h holds the keep newest of the rows seen, as a heap; rest holds the others. */
  ghost predicate Retains(h: seq<RankedRow>, rest: seq<RankedRow>, keep: nat, seen: seq<RankedRow>) {
    && HeapOrdered(h)
    && multiset(h) + multiset(rest) == multiset(seen)
    && |h| == (if keep <= |seen| then keep else |seen|)
    && forall i, j :: 0 <= i < |h| && 0 <= j < |rest| ==> Newer(h[i], rest[j])
  }

  ghost predicate DistinctRanks(s: seq<RankedRow>) {
    forall i, j :: 0 <= i < j < |s| ==> s[i].rank != s[j].rank
  }

  lemma {:induction false} DistinctOnce(s: seq<RankedRow>, x: RankedRow)
    requires DistinctRanks(s)
    ensures multiset(s)[x] <= 1
  {
    if s != [] {
      var init, last := s[..|s| - 1], s[|s| - 1];
      assert s == init + [last];
      DistinctOnce(init, x);
      assert last !in init;
    }
  }

  /** One scanned row: push while there is room, else pop the oldest for a newer one. */
  method Offer(h0: seq<RankedRow>, ghost rest0: seq<RankedRow>, keep: nat, ghost seen: seq<RankedRow>, cand: RankedRow)
    returns (h: seq<RankedRow>, ghost rest: seq<RankedRow>)
    requires Retains(h0, rest0, keep, seen) && DistinctRanks(seen + [cand])
    ensures Retains(h, rest, keep, seen + [cand])
  {
    h, rest := h0, rest0;
    OfferFacts(h0, rest0, keep, seen, cand);
    if |h| < keep {
      h := Push(h, cand);
    } else if |h| > 0 && Newer(cand, h[0]) {
      var oldest;
      h, oldest := Pop(h);
      ghost var popped := h;
      h := Push(h, cand);
      rest := rest + [oldest];
      ReplacedRoot(h0, rest0, popped, h, seen, cand);
    } else {
      rest := rest + [cand];
      NotBetter(h, cand);
    }
  }

  /** What does not beat the root beats nothing in the heap. */
  lemma NotBetter(h: seq<RankedRow>, cand: RankedRow)
    requires HeapOrdered(h) && (h != [] ==> !Newer(cand, h[0]))
    requires forall i :: 0 <= i < |h| ==> h[i].rank != cand.rank
    ensures forall i :: 0 <= i < |h| ==> Newer(h[i], cand)
  {
    forall i | 0 <= i < |h| ensures Newer(h[i], cand) {
      RootIsOldest(h, i);
    }
  }

  lemma OfferFacts(h: seq<RankedRow>, rest: seq<RankedRow>, keep: nat, seen: seq<RankedRow>, cand: RankedRow)
    requires Retains(h, rest, keep, seen) && DistinctRanks(seen + [cand])
    ensures |h| < keep ==> rest == []
    ensures forall i :: 0 <= i < |h| ==> h[i].rank != cand.rank
    ensures multiset(seen + [cand]) == multiset(seen) + multiset{cand}
  {
    assert |multiset(h)| + |multiset(rest)| == |multiset(seen)|;
    forall i | 0 <= i < |h| ensures h[i].rank != cand.rank {
      assert h[i] in multiset(seen);
      var k :| 0 <= k < |seen| && seen[k] == h[i];
      assert (seen + [cand])[k].rank != (seen + [cand])[|seen|].rank;
    }
  }

  lemma ReplacedRoot(h0: seq<RankedRow>, rest: seq<RankedRow>, popped: seq<RankedRow>, h: seq<RankedRow>,
                     seen: seq<RankedRow>, cand: RankedRow)
    requires HeapOrdered(h0) && h0 != [] && Newer(cand, h0[0])
    requires multiset(popped) + multiset{h0[0]} == multiset(h0)
    requires multiset(h) == multiset(popped) + multiset{cand}
    requires forall i, j :: 0 <= i < |h0| && 0 <= j < |rest| ==> Newer(h0[i], rest[j])
    requires multiset(h0) <= multiset(seen) && DistinctRanks(seen + [cand])
    ensures forall i, j :: 0 <= i < |h| && 0 <= j < |rest + [h0[0]]| ==> Newer(h[i], (rest + [h0[0]])[j])
  {
    forall i | 0 <= i < |h| && h[i] != cand ensures h[i] in h0 && Newer(h[i], h0[0]) {
      assert h[i] in multiset(h);
      assert h[i] in multiset(popped) && h[i] in multiset(h0);
      var k :| 0 <= k < |h0| && h0[k] == h[i];
      RootIsOldest(h0, k);
      SoleRank(seen, cand, h[i], h0[0]);
      DistinctOnce(seen, h0[0]);
    }
    forall i | 0 <= i < |h| ensures h[i] == cand || h[i] in h0 {
    }
  }

  lemma SoleRank(seen: seq<RankedRow>, cand: RankedRow, x: RankedRow, y: RankedRow)
    requires DistinctRanks(seen + [cand]) && x in multiset(seen) && y in multiset(seen)
    ensures x != y ==> x.rank != y.rank
    ensures DistinctRanks(seen)
  {
    forall i, j | 0 <= i < j < |seen| ensures seen[i].rank != seen[j].rank {
      assert (seen + [cand])[i].rank != (seen + [cand])[j].rank;
    }
  }

  // ---- What is left at the end of the scan.

  /** The i-th scanned match carries rank i + 1. */
  function Ranked(rows: seq<Row>): (s: seq<RankedRow>)
    ensures |s| == |rows|
    ensures forall i :: 0 <= i < |s| ==> s[i] == RankedRow(rows[i], rows[i].created, i + 1)
  {
    seq(|rows|, i requires 0 <= i < |rows| => RankedRow(rows[i], rows[i].created, i + 1))
  }

  function RowsOf(s: seq<RankedRow>): (rows: seq<Row>)
    ensures |rows| == |s|
    ensures forall i :: 0 <= i < |s| ==> rows[i] == s[i].row
  {
    seq(|s|, i requires 0 <= i < |s| => s[i].row)
  }

  /** Sorting the heap gives the first rows of the full sort of everything seen. */
  lemma RetainedAreFirst(h: seq<RankedRow>, rest: seq<RankedRow>, keep: nat, seen: seq<RankedRow>)
    requires Retains(h, rest, keep, seen) && DistinctRanks(seen)
    ensures StableSort(NewerOrder(), h) == StableSort(NewerOrder(), seen)[..|h|]
  {
    var less := NewerOrder();
    var a, b := StableSort(less, h), StableSort(less, rest);
    var all := StableSort(less, seen);
    NewerIsStrictWeak();
    SortIsSorted(less, h);
    SortIsSorted(less, rest);
    SortIsSorted(less, seen);
    forall i, j | 0 <= i < j < |a + b| ensures !less((a + b)[j], (a + b)[i]) {
      assert i < |a| ==> a[i] in multiset(h);
      assert j >= |a| ==> b[j - |a|] in multiset(rest);
    }
    forall x, y | x in a + b && y in a + b && x != y ensures less(x, y) || less(y, x) {
      assert x in multiset(a + b) && y in multiset(a + b);
      SoleRankIn(seen, x, y);
    }
    SortedUnique(less, a + b, all);
  }

  lemma SoleRankIn(seen: seq<RankedRow>, x: RankedRow, y: RankedRow)
    requires DistinctRanks(seen) && x in multiset(seen) && y in multiset(seen) && x != y
    ensures Newer(x, y) || Newer(y, x)
  {
  }

  /** Sorting ranked rows by (created, rank) is listing the rows newest first. */
  lemma {:induction false} FullSortIsNewestFirst(rows: seq<Row>)
    ensures RowsOf(StableSort(NewerOrder(), Ranked(rows))) == NewestFirst(rows)
  {
    if rows != [] {
      var init := rows[..|rows| - 1];
      FullSortIsNewestFirst(init);
      assert Ranked(rows)[..|rows| - 1] == Ranked(init);
      var sorted := StableSort(NewerOrder(), Ranked(init));
      var x := Ranked(rows)[|rows| - 1];
      NewerIsStrictWeak();
      SortIsSorted(NewerOrder(), Ranked(init));
      forall i | 0 <= i < |sorted| ensures sorted[i].created == sorted[i].row.created && sorted[i].rank < x.rank {
        assert sorted[i] in multiset(Ranked(init));
      }
      InsertRanked(sorted, x);
    }
  }

  /** The rows of a scan so far, before the next one with rank n. */
  ghost predicate RanksBelow(s: seq<RankedRow>, n: int) {
    forall i :: 0 <= i < |s| ==> s[i].created == s[i].row.created && s[i].rank < n
  }

  lemma RowsOfSnoc(s: seq<RankedRow>, x: RankedRow)
    ensures RowsOf(s + [x]) == RowsOf(s) + [x.row]
  {
  }

  lemma SortedInit(s: seq<RankedRow>, n: int)
    requires Sorted(NewerOrder(), s) && RanksBelow(s, n) && s != []
    ensures Sorted(NewerOrder(), s[..|s| - 1]) && RanksBelow(s[..|s| - 1], n)
    ensures s == s[..|s| - 1] + [s[|s| - 1]]
  {
  }

  lemma {:induction false} InsertRanked(s: seq<RankedRow>, x: RankedRow)
    requires Sorted(NewerOrder(), s) && x.created == x.row.created && RanksBelow(s, x.rank)
    ensures RowsOf(InsertSorted(NewerOrder(), s, x)) == InsertNewest(RowsOf(s), x.row)
    decreases |s|
  {
    if s == [] {
    } else if !Newer(x, s[|s| - 1]) {
      RanksDescend(s);
      InsertLast(RowsOf(s), x.row);
      RowsOfSnoc(s, x);
    } else {
      var init, last := s[..|s| - 1], s[|s| - 1];
      SortedInit(s, x.rank);
      InsertRanked(init, x);
      RowsOfSnoc(init, last);
      InsertBeforeLast(RowsOf(init), x.row, last.row);
      RowsOfSnoc(InsertSorted(NewerOrder(), init, x), last);
    }
  }

  lemma RanksDescend(s: seq<RankedRow>)
    requires Sorted(NewerOrder(), s)
    requires forall i :: 0 <= i < |s| ==> s[i].created == s[i].row.created
    ensures Descending(RowsOf(s))
  {
    forall i, j | 0 <= i < j < |s| ensures s[i].created >= s[j].created {
      assert !NewerOrder()(s[j], s[i]);
    }
  }

  lemma {:induction false} InsertLast(l: seq<Row>, r: Row)
    requires l != [] && Descending(l) && l[|l| - 1].created > r.created
    ensures InsertNewest(l, r) == l + [r]
  {
    assert l[0].created > r.created;
    if |l| > 1 {
      InsertLast(l[1..], r);
    }
  }

  lemma {:induction false} InsertBeforeLast(l: seq<Row>, r: Row, last: Row)
    requires last.created <= r.created
    ensures InsertNewest(l + [last], r) == InsertNewest(l, r) + [last]
  {
    if l != [] && l[0].created > r.created {
      assert (l + [last])[1..] == l[1..] + [last];
      InsertBeforeLast(l[1..], r, last);
    }
  }
}
