/** Fitting day files into a file budget by dropping whole dates. */
module FileSelection {
  import opened DayKeys
  import opened Sorting

  datatype DayGroup<K, D> = DayGroup(date: D, files: seq<K>)

  /** The files of a date are adjacent. */
  ghost predicate DatesTogether<K, D>(date: K -> D, names: seq<K>) {
    forall a, b, c :: 0 <= a < b < c < |names| && date(names[a]) == date(names[c])
      ==> date(names[b]) == date(names[a])
  }

  /** No date has files on both sides of position b. */
  ghost predicate Boundary<K, D>(date: K -> D, names: seq<K>, b: int) {
    0 <= b <= |names| && (0 < b < |names| ==> date(names[b - 1]) != date(names[b]))
  }

  ghost predicate OneDate<K, D>(date: K -> D, names: seq<K>) {
    forall i, j :: 0 <= i < |names| && 0 <= j < |names| ==> date(names[i]) == date(names[j])
  }

  /** Cutting at any boundary before this one leaves more than the budget. */
  ghost predicate NoRoomBefore<K, D>(date: K -> D, names: seq<K>, cut: int, budget: int) {
    forall b :: 0 <= b < cut && Boundary(date, names, b) ==> |names| - b > budget
  }

  /** The longest suffix of whole dates within the budget, or the last date alone when even that exceeds it. */
  ghost predicate LongestWholeDates<K, D>(date: K -> D, names: seq<K>, out: seq<K>, budget: int) {
    && |out| <= |names| && out == names[|names| - |out|..] && (names != [] ==> out != [])
    && Boundary(date, names, |names| - |out|)
    && (|out| <= budget || OneDate(date, out))
    && NoRoomBefore(date, names, |names| - |out|, budget)
  }

  /** Whatever the order of the list: files are kept or dropped by whole dates, never all of them, and what
      is kept fits the budget or is a single date. */
  ghost predicate WholeDatesKept<K(!new), D>(date: K -> D, names: seq<K>, out: seq<K>, budget: int) {
    && multiset(out) <= multiset(names) && (names != [] ==> out != [])
    && (forall x, y :: x in names && y in out && date(x) == date(y) ==> x in out)
    && (|out| <= budget || OneDate(date, out))
  }

  function Flatten<K, D>(groups: seq<DayGroup<K, D>>): seq<K> {
    if groups == [] then [] else Flatten(groups[..|groups| - 1]) + groups[|groups| - 1].files
  }

  ghost predicate GroupOf<K, D>(date: K -> D, g: DayGroup<K, D>) {
    g.files != [] && forall k :: 0 <= k < |g.files| ==> date(g.files[k]) == g.date
  }

  ghost predicate GroupsOf<K, D>(date: K -> D, groups: seq<DayGroup<K, D>>) {
    forall i :: 0 <= i < |groups| ==> GroupOf(date, groups[i])
  }

  /** idx finds each group by its date, so no two groups share one. */
  ghost predicate Indexed<K, D>(groups: seq<DayGroup<K, D>>, idx: map<D, nat>) {
    && (forall i :: 0 <= i < |groups| ==> groups[i].date in idx && idx[groups[i].date] == i)
    && (forall d :: d in idx ==> idx[d] < |groups| && groups[idx[d]].date == d)
  }

  /** Where group i starts in the flattened sequence. */
  ghost function Start<K, D>(groups: seq<DayGroup<K, D>>, i: nat): nat
    requires i <= |groups|
  {
    |Flatten(groups[..i])|
  }

  lemma {:induction false} FlattenSplit<K, D>(groups: seq<DayGroup<K, D>>, k: nat)
    requires k <= |groups|
    ensures Flatten(groups) == Flatten(groups[..k]) + Flatten(groups[k..])
  {
    if k == |groups| {
      assert groups[..k] == groups && groups[k..] == [];
    } else {
      var init := groups[..|groups| - 1];
      FlattenSplit(init, k);
      assert groups[..k] == init[..k] && groups[k..][..|groups| - k - 1] == init[k..];
    }
  }

  lemma FlattenAround<K, D>(groups: seq<DayGroup<K, D>>, i: nat)
    requires i < |groups|
    ensures Flatten(groups) == Flatten(groups[..i]) + groups[i].files + Flatten(groups[i + 1..])
  {
    FlattenSplit(groups, i + 1);
    NextGroup(groups, i);
  }

  lemma NextGroup<K, D>(groups: seq<DayGroup<K, D>>, i: nat)
    requires i < |groups|
    ensures Flatten(groups[..i + 1]) == Flatten(groups[..i]) + groups[i].files
  {
    assert groups[..i + 1][..i] == groups[..i];
  }

  /** Group i as a stretch of the flattened sequence. */
  lemma GroupSlice<K, D>(groups: seq<DayGroup<K, D>>, i: nat)
    requires i < |groups|
    ensures Start(groups, i) + |groups[i].files| == Start(groups, i + 1) <= |Flatten(groups)|
    ensures Flatten(groups)[Start(groups, i)..Start(groups, i + 1)] == groups[i].files
  {
    FlattenAround(groups, i);
    NextGroup(groups, i);
    Middle(Flatten(groups[..i]), groups[i].files, Flatten(groups[i + 1..]));
  }

  lemma Middle<K>(a: seq<K>, b: seq<K>, c: seq<K>)
    ensures |a| + |b| <= |a + b + c| && (a + b + c)[|a|..|a| + |b|] == b
  {
  }

  lemma {:induction false} StartsIncrease<K, D>(date: K -> D, groups: seq<DayGroup<K, D>>, i: nat, j: nat)
    requires i <= j <= |groups| && GroupsOf(date, groups)
    ensures i < j ==> Start(groups, i) < Start(groups, j)
  {
    if i < j {
      assert GroupOf(date, groups[j - 1]);
      GroupSlice(groups, j - 1);
      StartsIncrease(date, groups, i, j - 1);
    }
  }

  /** When a date recurs, its group is the last one. */
  lemma RecurringDateIsLast<K, D>(date: K -> D, names: seq<K>, k: nat, groups: seq<DayGroup<K, D>>, idx: map<D, nat>)
    requires k < |names| && DatesTogether(date, names)
    requires GroupsOf(date, groups) && Indexed(groups, idx) && Flatten(groups) == names[..k]
    requires date(names[k]) in idx
    ensures idx[date(names[k])] == |groups| - 1
  {
    var i, last := idx[date(names[k])], |groups| - 1;
    var p, q := Start(groups, i), Start(groups, last);
    GroupSpan(date, groups, i);
    GroupSpan(date, groups, last);
    StartsIncrease(date, groups, i, last);
    assert q < |names[..k]| && names[p] == names[..k][p] && names[q] == names[..k][q];
    assert date(names[p]) == date(names[k]);
    assert date(names[q]) == groups[last].date;
  }

  /** Group i occupies a stretch of files, all of its date. */
  lemma GroupSpan<K, D>(date: K -> D, groups: seq<DayGroup<K, D>>, i: nat)
    requires GroupsOf(date, groups) && i < |groups|
    ensures Start(groups, i) < Start(groups, i + 1) <= |Flatten(groups)|
    ensures OfDate(date, Flatten(groups), Start(groups, i), Start(groups, i + 1), groups[i].date)
  {
    assert GroupOf(date, groups[i]);
    GroupSlice(groups, i);
    Stretch(date, Flatten(groups), Start(groups, i), Start(groups, i + 1), groups[i].files, groups[i].date);
  }

  lemma Stretch<K, D>(date: K -> D, s: seq<K>, lo: nat, hi: nat, files: seq<K>, d: D)
    requires lo <= hi <= |s| && s[lo..hi] == files && forall k :: 0 <= k < |files| ==> date(files[k]) == d
    ensures OfDate(date, s, lo, hi, d)
  {
    forall k | lo <= k < hi ensures date(s[k]) == d {
      assert s[k] == files[k - lo];
    }
  }

  ghost predicate OfDate<K, D>(date: K -> D, s: seq<K>, lo: nat, hi: nat, d: D) {
    hi <= |s| && forall k :: lo <= k < hi ==> date(s[k]) == d
  }

  /** Two such stretches of different dates meet at a boundary. */
  lemma CutBetween<K, D>(date: K -> D, s: seq<K>, lo: nat, b: nat, hi: nat, d: D, e: D)
    requires lo < b < hi && d != e && OfDate(date, s, lo, b, d) && OfDate(date, s, b, hi, e)
    ensures Boundary(date, s, b)
  {
  }

  /** And nothing inside one is a boundary. */
  lemma NoCutInside<K, D>(date: K -> D, s: seq<K>, lo: nat, b: nat, hi: nat, d: D)
    requires lo < b < hi && OfDate(date, s, lo, hi, d)
    ensures !Boundary(date, s, b)
  {
    assert date(s[b - 1]) == date(s[b]);
  }

  /** One group per date, found by date, whatever the order; files that lie together stay in place. */
  method GroupDates<K, D(==)>(date: K -> D, names: seq<K>) returns (groups: seq<DayGroup<K, D>>, idx: map<D, nat>)
    ensures GroupsOf(date, groups) && Indexed(groups, idx) && multiset(Flatten(groups)) == multiset(names)
    ensures DatesTogether(date, names) ==> Flatten(groups) == names
  {
    groups, idx := [], map[];
    for k := 0 to |names|
      invariant Grouped(date, names, k, groups, idx)
    {
      var d := date(names[k]);
      if d in idx {
        JoinNext(date, names, k, groups, idx);
        var i := idx[d];
        groups := groups[i := groups[i].(files := groups[i].files + [names[k]])];
      } else {
        OpenNext(date, names, k, groups, idx);
        idx := idx[d := |groups|];
        groups := groups + [DayGroup(d, [names[k]])];
      }
    }
    assert names[..|names|] == names;
  }

  /** The first k files in groups. */
  ghost predicate Grouped<K, D>(date: K -> D, names: seq<K>, k: nat, groups: seq<DayGroup<K, D>>, idx: map<D, nat>) {
    && k <= |names| && GroupsOf(date, groups) && Indexed(groups, idx)
    && multiset(Flatten(groups)) == multiset(names[..k])
    && (DatesTogether(date, names) ==> Flatten(groups) == names[..k])
  }

  lemma JoinNext<K, D>(date: K -> D, names: seq<K>, k: nat, groups: seq<DayGroup<K, D>>, idx: map<D, nat>)
    requires Grouped(date, names, k, groups, idx) && k < |names| && date(names[k]) in idx
    ensures var i := idx[date(names[k])];
      Grouped(date, names, k + 1, groups[i := groups[i].(files := groups[i].files + [names[k]])], idx)
  {
    assert names[..k + 1] == names[..k] + [names[k]];
    if DatesTogether(date, names) {
      RecurringDateIsLast(date, names, k, groups, idx);
      JoinLast(date, groups, idx, names[k]);
    }
    JoinGroup(date, groups, idx, names[k]);
  }

  lemma OpenNext<K, D>(date: K -> D, names: seq<K>, k: nat, groups: seq<DayGroup<K, D>>, idx: map<D, nat>)
    requires Grouped(date, names, k, groups, idx) && k < |names| && date(names[k]) !in idx
    ensures Grouped(date, names, k + 1, groups + [DayGroup(date(names[k]), [names[k]])],
                    idx[date(names[k]) := |groups|])
  {
    assert names[..k + 1] == names[..k] + [names[k]];
    OpenGroup(date, groups, idx, names[k]);
  }

  lemma JoinGroup<K, D>(date: K -> D, groups: seq<DayGroup<K, D>>, idx: map<D, nat>, name: K)
    requires GroupsOf(date, groups) && Indexed(groups, idx) && date(name) in idx
    ensures var i := idx[date(name)];
      var g := groups[i := groups[i].(files := groups[i].files + [name])];
      GroupsOf(date, g) && Indexed(g, idx) && multiset(Flatten(g)) == multiset(Flatten(groups)) + multiset{name}
  {
    var i := idx[date(name)];
    var g := groups[i := groups[i].(files := groups[i].files + [name])];
    JoinGroups(date, groups, i, name, g);
    JoinIndexed(groups, idx, g);
    JoinCounts(groups, i, name, g);
  }

  lemma JoinGroups<K, D>(date: K -> D, groups: seq<DayGroup<K, D>>, i: nat, name: K, g: seq<DayGroup<K, D>>)
    requires GroupsOf(date, groups) && i < |groups| && groups[i].date == date(name)
    requires g == groups[i := groups[i].(files := groups[i].files + [name])]
    ensures GroupsOf(date, g)
  {
    forall j | 0 <= j < |g| ensures GroupOf(date, g[j]) {
      assert GroupOf(date, groups[j]);
    }
  }

  lemma JoinIndexed<K, D>(groups: seq<DayGroup<K, D>>, idx: map<D, nat>, g: seq<DayGroup<K, D>>)
    requires Indexed(groups, idx) && |groups| == |g| && forall j :: 0 <= j < |g| ==> g[j].date == groups[j].date
    ensures Indexed(g, idx)
  {
  }

  lemma JoinCounts<K, D>(groups: seq<DayGroup<K, D>>, i: nat, name: K, g: seq<DayGroup<K, D>>)
    requires i < |groups| && g == groups[i := groups[i].(files := groups[i].files + [name])]
    ensures multiset(Flatten(g)) == multiset(Flatten(groups)) + multiset{name}
  {
    FlattenAround(groups, i);
    FlattenAround(g, i);
    assert g[..i] == groups[..i] && g[i + 1..] == groups[i + 1..];
    CountWithin(Flatten(groups[..i]), groups[i].files, Flatten(groups[i + 1..]), name);
  }

  lemma CountWithin<K>(a: seq<K>, b: seq<K>, c: seq<K>, x: K)
    ensures multiset(a + (b + [x]) + c) == multiset(a + b + c) + multiset{x}
  {
    assert a + (b + [x]) == (a + b) + [x];
  }

  lemma JoinLast<K, D>(date: K -> D, groups: seq<DayGroup<K, D>>, idx: map<D, nat>, name: K)
    requires GroupsOf(date, groups) && Indexed(groups, idx) && groups != []
    requires groups[|groups| - 1].date == date(name)
    ensures var last := |groups| - 1;
      var g := groups[last := groups[last].(files := groups[last].files + [name])];
      GroupsOf(date, g) && Indexed(g, idx) && Flatten(g) == Flatten(groups) + [name]
  {
    var last := |groups| - 1;
    var g := groups[last := groups[last].(files := groups[last].files + [name])];
    assert g[..last] == groups[..last];
    assert GroupOf(date, groups[last]);
    assert GroupOf(date, g[last]);
  }

  lemma OpenGroup<K, D>(date: K -> D, groups: seq<DayGroup<K, D>>, idx: map<D, nat>, name: K)
    requires GroupsOf(date, groups) && Indexed(groups, idx) && date(name) !in idx
    ensures var g := groups + [DayGroup(date(name), [name])];
      GroupsOf(date, g) && Indexed(g, idx[date(name) := |groups|]) && Flatten(g) == Flatten(groups) + [name]
  {
    var g := groups + [DayGroup(date(name), [name])];
    assert g[..|groups|] == groups;
    assert GroupOf(date, g[|groups|]);
    IndexedSnoc(groups, idx, g[|groups|]);
  }

  lemma IndexedSnoc<K, D>(groups: seq<DayGroup<K, D>>, idx: map<D, nat>, last: DayGroup<K, D>)
    requires Indexed(groups, idx) && last.date !in idx
    ensures Indexed(groups + [last], idx[last.date := |groups|])
  {
    var g, idx' := groups + [last], idx[last.date := |groups|];
    forall i | 0 <= i < |g| ensures g[i].date in idx' && idx'[g[i].date] == i {
      if i < |groups| {
        assert groups[i].date in idx;
      }
    }
  }

  /** Group starts are boundaries. */
  lemma CutAtGroup<K, D>(date: K -> D, groups: seq<DayGroup<K, D>>, drop: nat)
    requires 0 < drop < |groups| && groups[drop - 1].date != groups[drop].date && GroupsOf(date, groups)
    ensures Boundary(date, Flatten(groups), Start(groups, drop))
  {
    GroupSpan(date, groups, drop - 1);
    GroupSpan(date, groups, drop);
    CutBetween(date, Flatten(groups), Start(groups, drop - 1), Start(groups, drop), Start(groups, drop + 1),
               groups[drop - 1].date, groups[drop].date);
  }

  /** Drops leading groups until the rest fits, keeping at least the last. */
  method TruncateBy<K(!new), D(==)>(date: K -> D, names: seq<K>, budget: int) returns (out: seq<K>)
    ensures WholeDatesKept(date, names, out, budget)
    ensures DatesTogether(date, names) ==> LongestWholeDates(date, names, out, budget)
  {
    if |names| <= budget {
      return names;
    }
    var groups, idx := GroupDates(date, names);
    SameLength(Flatten(groups), names);
    var drop := CountDropped(date, names, groups, budget);
    if drop == 0 {
      out := names;
      NothingDropped(date, groups, names, budget);
    } else {
      out := Concatenate(groups[drop..]);
      DroppedWhole(date, names, groups, idx, drop, budget, out);
      if DatesTogether(date, names) {
        DroppedFacts(date, names, groups, idx, drop, budget, out);
      }
    }
  }

  lemma SameLength<K>(a: seq<K>, b: seq<K>)
    requires multiset(a) == multiset(b)
    ensures |a| == |b| && forall x :: x in a <==> x in b
  {
    assert |multiset(a)| == |a| && |multiset(b)| == |b|;
    forall x ensures x in a <==> x in b {
      assert x in a <==> x in multiset(a);
      assert x in b <==> x in multiset(b);
    }
  }

  method CountDropped<K, D>(ghost date: K -> D, names: seq<K>, groups: seq<DayGroup<K, D>>, budget: int)
    returns (drop: nat)
    requires GroupsOf(date, groups) && |Flatten(groups)| == |names|
    ensures drop <= |groups| && (groups != [] ==> drop < |groups|)
    ensures |names| - Start(groups, drop) <= budget || drop >= |groups| - 1
    ensures drop > 0 ==> |names| - Start(groups, drop - 1) > budget
  {
    var total := |names|;
    drop := 0;
    assert groups[..0] == [];
    while total > budget && drop < |groups| - 1
      invariant 0 <= drop <= |groups| && (groups != [] ==> drop < |groups|)
      invariant total == |names| - Start(groups, drop)
      invariant drop > 0 ==> |names| - Start(groups, drop - 1) > budget
    {
      assert GroupOf(date, groups[drop]);
      GroupSlice(groups, drop);
      total := total - |groups[drop].files|;
      drop := drop + 1;
    }
  }

  method Concatenate<K, D>(groups: seq<DayGroup<K, D>>) returns (out: seq<K>)
    ensures out == Flatten(groups)
  {
    out := [];
    for i := 0 to |groups|
      invariant out == Flatten(groups[..i])
    {
      assert groups[..i + 1][..i] == groups[..i];
      out := out + groups[i].files;
    }
    assert groups[..|groups|] == groups;
  }

  lemma OneGroupOneDate<K, D>(date: K -> D, groups: seq<DayGroup<K, D>>, drop: nat)
    requires GroupsOf(date, groups) && drop <= |groups|
    ensures drop >= |groups| - 1 ==> OneDate(date, Flatten(groups[drop..]))
    ensures drop < |groups| ==> Flatten(groups[drop..]) != []
  {
    if drop < |groups| {
      assert GroupOf(date, groups[drop]);
      GroupSlice(groups[drop..], 0);
      if drop == |groups| - 1 {
        assert groups[drop..] == [groups[drop]] && groups[drop..][..0] == [];
        assert Flatten(groups[drop..]) == groups[drop].files;
      }
    }
  }

  lemma NothingDropped<K(!new), D>(date: K -> D, groups: seq<DayGroup<K, D>>, names: seq<K>, budget: int)
    requires GroupsOf(date, groups) && multiset(Flatten(groups)) == multiset(names)
    requires |names| - Start(groups, 0) <= budget || 0 >= |groups| - 1
    ensures WholeDatesKept(date, names, names, budget) && LongestWholeDates(date, names, names, budget)
  {
    OneGroupOneDate(date, groups, 0);
    assert groups[0..] == groups;
    assert groups[..0] == [];
    SameLength(Flatten(groups), names);
    if |names| > budget {
      forall i, j | 0 <= i < |names| && 0 <= j < |names| ensures date(names[i]) == date(names[j]) {
        assert names[i] in names && names[j] in names;
        assert names[i] in Flatten(groups) && names[j] in Flatten(groups);
      }
    }
  }

  lemma {:induction false} InSomeFiles<K, D>(groups: seq<DayGroup<K, D>>, x: K)
    ensures x in Flatten(groups) <==> exists i :: 0 <= i < |groups| && x in groups[i].files
  {
    if groups != [] {
      var n := |groups| - 1;
      InSomeFiles(groups[..n], x);
      assert x in Flatten(groups) <==> x in Flatten(groups[..n]) || x in groups[n].files;
      if i :| 0 <= i < |groups| && x in groups[i].files {
        assert i < n ==> x in groups[..n][i].files;
      }
      if i :| 0 <= i < n && x in groups[..n][i].files {
        assert x in groups[i].files;
      }
    }
  }

  /** What remains are the files of the later dates, all of them. */
  lemma KeptIff<K, D>(date: K -> D, groups: seq<DayGroup<K, D>>, idx: map<D, nat>, drop: nat, x: K)
    requires GroupsOf(date, groups) && Indexed(groups, idx) && drop <= |groups| && x in Flatten(groups)
    ensures date(x) in idx && (x in Flatten(groups[drop..]) <==> idx[date(x)] >= drop)
  {
    var tail := groups[drop..];
    InSomeFiles(groups, x);
    var i :| 0 <= i < |groups| && x in groups[i].files;
    assert GroupOf(date, groups[i]);
    assert idx[groups[i].date] == i;
    InSomeFiles(tail, x);
    if i >= drop {
      assert tail[i - drop] == groups[i];
    } else if x in Flatten(tail) {
      InLaterGroup(date, groups, drop, x);
    }
  }

  lemma InLaterGroup<K, D>(date: K -> D, groups: seq<DayGroup<K, D>>, drop: nat, x: K)
    requires GroupsOf(date, groups) && drop <= |groups| && x in Flatten(groups[drop..])
    ensures exists j :: drop <= j < |groups| && groups[j].date == date(x)
  {
    InSomeFiles(groups[drop..], x);
    var i :| 0 <= i < |groups[drop..]| && x in groups[drop..][i].files;
    assert groups[drop..][i] == groups[drop + i];
    assert GroupOf(date, groups[drop + i]);
  }

  lemma DroppedWhole<K(!new), D>(date: K -> D, names: seq<K>, groups: seq<DayGroup<K, D>>, idx: map<D, nat>,
                                 drop: nat, budget: int, out: seq<K>)
    requires GroupsOf(date, groups) && Indexed(groups, idx) && multiset(Flatten(groups)) == multiset(names)
    requires 0 < drop < |groups| && out == Flatten(groups[drop..])
    requires |names| - Start(groups, drop) <= budget || drop == |groups| - 1
    ensures WholeDatesKept(date, names, out, budget)
  {
    FlattenSplit(groups, drop);
    SameLength(Flatten(groups), names);
    assert |out| == |names| - Start(groups, drop);
    OneGroupOneDate(date, groups, drop);
    forall x, y | x in names && y in out && date(x) == date(y) ensures x in out {
      assert y in Flatten(groups);
      KeptIff(date, groups, idx, drop, x);
      KeptIff(date, groups, idx, drop, y);
    }
  }

  lemma DroppedFacts<K, D>(date: K -> D, names: seq<K>, groups: seq<DayGroup<K, D>>, idx: map<D, nat>,
                           drop: nat, budget: int, out: seq<K>)
    requires GroupsOf(date, groups) && Indexed(groups, idx) && Flatten(groups) == names && 0 < drop < |groups|
    requires |names| - Start(groups, drop) <= budget || drop == |groups| - 1
    requires |names| - Start(groups, drop - 1) > budget
    requires out == Flatten(groups[drop..])
    ensures LongestWholeDates(date, names, out, budget)
  {
    FlattenSplit(groups, drop);
    assert |names| - |out| == Start(groups, drop);
    assert out == names[|names| - |out|..];
    assert idx[groups[drop].date] == drop && idx[groups[drop - 1].date] == drop - 1;
    CutAtGroup(date, groups, drop);
    OneGroupOneDate(date, groups, drop);
    NothingLonger(date, groups, drop, budget);
  }

  lemma NothingLonger<K, D>(date: K -> D, groups: seq<DayGroup<K, D>>, drop: nat, budget: int)
    requires GroupsOf(date, groups) && 0 < drop < |groups|
    requires |Flatten(groups)| - Start(groups, drop - 1) > budget
    ensures NoRoomBefore(date, Flatten(groups), Start(groups, drop), budget)
  {
    GroupSpan(date, groups, drop - 1);
    NoRoomInside(date, Flatten(groups), Start(groups, drop - 1), Start(groups, drop), groups[drop - 1].date, budget);
  }

  lemma NoRoomInside<K, D>(date: K -> D, s: seq<K>, lo: nat, hi: nat, d: D, budget: int)
    requires lo < hi && OfDate(date, s, lo, hi, d) && |s| - lo > budget
    ensures NoRoomBefore(date, s, hi, budget)
  {
    forall b | 0 <= b < hi && Boundary(date, s, b) ensures |s| - b > budget {
      if lo < b {
        NoCutInside(date, s, lo, b, hi, d);
      }
    }
  }

  lemma SortedDatesTogether(names: seq<string>)
    requires Sorted(KeyOrder(), names)
    ensures DatesTogether(ExtractDate, names)
  {
    forall a, b, c | 0 <= a < b < c < |names| && ExtractDate(names[a]) == ExtractDate(names[c])
      ensures ExtractDate(names[b]) == ExtractDate(names[a])
    {
      assert !KeyOrder()(names[b], names[a]) && !KeyOrder()(names[c], names[b]);
      if ExtractDate(names[b]) != ExtractDate(names[a]) {
        LexTotal(ExtractDate(names[a]), ExtractDate(names[b]));
      }
    }
  }

  /** The read path's file list: sorted by (date, seq), then cut to the budget.  The result is the
      longest suffix of whole dates within the budget, or the newest date alone when even that exceeds it. */
  method SelectFiles(names: seq<string>, budget: int) returns (out: seq<string>)
    ensures Sorted(KeyOrder(), SortByDateSeq(names)) && multiset(SortByDateSeq(names)) == multiset(names)
    ensures LongestWholeDates(ExtractDate, SortByDateSeq(names), out, budget)
    ensures forall x, y :: x in names && x !in out && y in out ==> !LexLess(ExtractDate(y), ExtractDate(x))
  {
    var sorted := SortByDateSeq(names);
    KeyOrderIsStrictWeak();
    SortIsSorted(KeyOrder(), names);
    SortedDatesTogether(sorted);
    out := TruncateBy(ExtractDate, sorted, budget);
    forall x, y | x in names && x !in out && y in out ensures !LexLess(ExtractDate(y), ExtractDate(x)) {
      NoLaterDropped(names, sorted, out, x, y);
    }
  }

  lemma NoLaterDropped(names: seq<string>, sorted: seq<string>, out: seq<string>, x: string, y: string)
    requires Sorted(KeyOrder(), sorted) && multiset(sorted) == multiset(names)
    requires |out| <= |sorted| && out == sorted[|sorted| - |out|..] && x in names && x !in out && y in out
    ensures !LexLess(ExtractDate(y), ExtractDate(x))
  {
    var cut := |sorted| - |out|;
    assert x in multiset(sorted);
    var i :| 0 <= i < |sorted| && sorted[i] == x;
    var j :| 0 <= j < |out| && out[j] == y;
    InSuffix(sorted, cut, i);
    assert sorted[cut + j] == y && !KeyOrder()(y, x);
    LexIrreflexive(ExtractDate(x));
  }

  lemma InSuffix<K>(s: seq<K>, cut: nat, i: nat)
    requires i < |s| && cut <= |s|
    ensures i >= cut ==> s[i] in s[cut..]
  {
    assert i >= cut ==> s[cut..][i - cut] == s[i];
  }
}
