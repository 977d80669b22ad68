/** The JSONL log driver: grouped batch inserts, rollover, rollups, and the read paths. */
module JsonlStore {
  import opened Options
  import opened LogRows
  import opened Selections
  import opened Sorting
  import opened DayKeys
  import opened QueryOrder
  import opened TopK
  import opened Rollup
  import opened JsonlFiles
  import opened MetaRecovery
  import opened Aggregates

  /** Unix time of Go's zero time.Time, which marks an entry without a creation time. */
  const ZERO_TIME: int := -62135596800

  /** The bound on rows that a query keeps in memory. */
  const MAX_TOP_K: nat := 20000

  datatype OpenFile = OpenFile(bytesWritten: int, meta: Option<Meta>)

  function FileNames(): Naming {
    Naming(DayFileKey, ExtractDate, SeqOf, IsDate, KeyOrder())
  }

  lemma FileNamesLawful()
    ensures Lawful(FileNames()) && StrictWeakOrder(FileNames().less)
  {
    var nm := FileNames();
    forall d, n: nat | nm.isDate(d) && n <= MAX_SEQ ensures nm.date(nm.key(d, n)) == d && nm.num(nm.key(d, n)) == n {
      KeyRoundTrip(d, n);
    }
    KeyOrderIsStrictWeak();
  }

  /** The byte counter of every open file is its size. */
  ghost predicate Counters(p: Platform, disk: Disk, files: map<string, OpenFile>) {
    forall k :: k in files ==> k in disk && files[k].bytesWritten == SizeOf(p, disk[k])
  }

  /** One file as its rollup sees it. */
  function FileView(disk: Disk, metas: map<string, Meta>, files: map<string, OpenFile>, key: string): FileState {
    FileState(RowsIn(disk, key), if key in metas then Some(metas[key]) else None,
              if key in files then Some(files[key].meta) else None)
  }

  function ReadOrNot(p: Platform, s: FileState, isRead: bool): FileState {
    if isRead then Next(p, s, ReadStats) else s
  }

  /** At most one append. */
  ghost predicate Stepped(p: Platform, before: FileState, after: FileState) {
    exists batch :: after == Next(p, before, Append(batch))
  }

  lemma StepOrStay(p: Platform, before: FileState, after: FileState, batch: seq<Row>)
    requires after == before || (after == Appended(before, batch) && batch != [] && !Capped(p, before.rows))
    ensures Stepped(p, before, after)
  {
    assert before == Next(p, before, Append([]));
    assert !Capped(p, before.rows) && batch != [] ==> Appended(before, batch) == Next(p, before, Append(batch));
  }

  /** The files as their rollups see them. */
  datatype Shelf = Shelf(disk: Disk, metas: map<string, Meta>, files: map<string, OpenFile>)

  function ViewOf(s: Shelf, key: string): FileState {
    FileView(s.disk, s.metas, s.files, key)
  }

  ghost predicate Touchable(nm: Naming, dates: set<string>, key: string) {
    nm.date(key) in dates && Appendable(nm, key)
  }

  /** Every file made at most one append, and none did but those that inserts on the given dates write to. */
  ghost predicate Progress(nm: Naming, p: Platform, a: Shelf, b: Shelf, dates: set<string>) {
    a.disk.Keys <= b.disk.Keys && forall k :: Moved(nm, p, a, b, dates, k)
  }

  ghost predicate Moved(nm: Naming, p: Platform, a: Shelf, b: Shelf, dates: set<string>, key: string) {
    Stepped(p, ViewOf(a, key), ViewOf(b, key)) && (!Touchable(nm, dates, key) ==> ViewOf(b, key) == ViewOf(a, key))
  }

  lemma NoProgress(nm: Naming, p: Platform, a: Shelf)
    ensures Progress(nm, p, a, a, {})
  {
    forall k ensures Moved(nm, p, a, a, {}, k) {
      StepOrStay(p, ViewOf(a, k), ViewOf(a, k), []);
    }
  }

  lemma ProgressJoins(nm: Naming, p: Platform, a: Shelf, b: Shelf, c: Shelf, dates: set<string>, d: string)
    requires Progress(nm, p, a, b, dates) && Progress(nm, p, b, c, {d}) && d !in dates
    ensures Progress(nm, p, a, c, dates + {d})
  {
    forall k ensures Moved(nm, p, a, c, dates + {d}, k) {
      assert Moved(nm, p, a, b, dates, k) && Moved(nm, p, b, c, {d}, k);
      if Touchable(nm, {d}, k) {
        assert ViewOf(b, k) == ViewOf(a, k);
      } else {
        assert ViewOf(c, k) == ViewOf(b, k);
      }
    }
  }

  lemma NothingJoins(nm: Naming, p: Platform, a: Shelf, b: Shelf, c: Shelf, dates: set<string>)
    requires Progress(nm, p, a, b, dates) && Progress(nm, p, b, c, {})
    ensures Progress(nm, p, a, c, dates)
  {
    forall k ensures Moved(nm, p, a, c, dates, k) {
      assert Moved(nm, p, a, b, dates, k) && Moved(nm, p, b, c, {}, k);
    }
  }

  ghost predicate SlotsFull(nm: Naming, p: Platform, disk: Disk, date: string) {
    forall n: nat :: n <= MAX_SEQ ==> Full(p, disk, nm.key(date, n))
  }

  ghost predicate StillFull(p: Platform, a: Disk, b: Disk) {
    forall k :: Full(p, a, k) ==> Full(p, b, k)
  }

  /** A full file stays full. */
  lemma FullStays(nm: Naming, p: Platform, a: Shelf, b: Shelf, dates: set<string>)
    requires Progress(nm, p, a, b, dates)
    ensures StillFull(p, a.disk, b.disk)
  {
    forall k | Full(p, a.disk, k) ensures Full(p, b.disk, k) {
      assert Moved(nm, p, a, b, dates, k);
      var batch :| ViewOf(b, k) == Next(p, ViewOf(a, k), Append(batch));
      SizeConcat(p, RowsIn(a.disk, k), batch);
    }
  }

  /** No rollup, stored or in memory, can lead to a wrong answer now or later. */
  ghost predicate ShelfTrusted(nm: Naming, p: Platform, s: Shelf) {
    forall k :: Sound(p, Appendable(nm, k), ViewOf(s, k))
  }

  /** Rollups that could be trusted stay so. */
  lemma ProgressTrusted(nm: Naming, p: Platform, a: Shelf, b: Shelf, dates: set<string>)
    requires Progress(nm, p, a, b, dates)
    ensures ShelfTrusted(nm, p, a) ==> ShelfTrusted(nm, p, b)
  {
    if ShelfTrusted(nm, p, a) {
      forall k ensures Sound(p, Appendable(nm, k), ViewOf(b, k)) {
        assert Moved(nm, p, a, b, dates, k);
        if Touchable(nm, dates, k) {
          var batch :| ViewOf(b, k) == Next(p, ViewOf(a, k), Append(batch));
          StepSound(p, true, ViewOf(a, k), Append(batch));
        }
      }
    }
  }

  lemma StartTrusted(nm: Naming, p: Platform, s: Shelf)
    requires s.files == map[]
    ensures (forall k :: Trustworthy(p, Appendable(nm, k), ViewOf(s, k))) ==> ShelfTrusted(nm, p, s)
  {
    forall k ensures Trustworthy(p, Appendable(nm, k), ViewOf(s, k)) ==> Sound(p, Appendable(nm, k), ViewOf(s, k)) {
      StartsSound(p, Appendable(nm, k), ViewOf(s, k));
    }
  }

  ghost predicate OneStep(p: Platform, a: Shelf, b: Shelf, key: string, step: Step) {
    ViewOf(b, key) == ViewOf(a, key) || ViewOf(b, key) == Next(p, ViewOf(a, key), step)
  }

  /** Closing or deleting files does not spoil it either. */
  lemma AllStepped(nm: Naming, p: Platform, a: Shelf, b: Shelf, step: Step)
    requires !step.Append? && forall k :: OneStep(p, a, b, k, step)
    ensures ShelfTrusted(nm, p, a) ==> ShelfTrusted(nm, p, b)
  {
    if ShelfTrusted(nm, p, a) {
      forall k ensures Sound(p, Appendable(nm, k), ViewOf(b, k)) {
        assert OneStep(p, a, b, k, step);
        StepSound(p, Appendable(nm, k), ViewOf(a, k), step);
      }
    }
  }

  /** Nor do statistics reads, which are answered exactly. */
  lemma ReadsTrusted(nm: Naming, p: Platform, a: Shelf, b: Shelf, keys: seq<string>)
    requires ReadFrom(p, a, b, keys)
    ensures ShelfTrusted(nm, p, a) ==> ShelfTrusted(nm, p, b)
  {
    if ShelfTrusted(nm, p, a) {
      forall k ensures Sound(p, Appendable(nm, k), ViewOf(b, k)) {
        ReadSettles(p, Appendable(nm, k), ViewOf(a, k));
        assert ViewOf(b, k) == ReadOrNot(p, ViewOf(a, k), k in keys);
      }
    }
  }

  lemma TrustedExact(nm: Naming, p: Platform, s: Shelf, keys: seq<string>)
    ensures ShelfTrusted(nm, p, s) ==> AnswersExact(s, keys)
  {
    if ShelfTrusted(nm, p, s) {
      forall k | k in keys ensures Exact(ViewOf(s, k)) {
        ReadSettles(p, Appendable(nm, k), ViewOf(s, k));
      }
    }
  }

  /** The shelf without some of its files and their rollups. */
  function Without(s: Shelf, named: set<string>): Shelf {
    Shelf(s.disk - named, s.metas - named, s.files - named)
  }

  function DeletedOrNot(p: Platform, s: FileState, isDeleted: bool): FileState {
    if isDeleted then Next(p, s, Delete) else s
  }

  lemma RemovedFiles(nm: Naming, p: Platform, s: Shelf, days: seq<string>)
    ensures forall k :: ViewOf(Without(s, Named(days)), k) == DeletedOrNot(p, ViewOf(s, k), k in days)
    ensures ShelfTrusted(nm, p, s) ==> ShelfTrusted(nm, p, Without(s, Named(days)))
  {
    forall k ensures OneStep(p, s, Without(s, Named(days)), k, Delete) {
    }
    AllStepped(nm, p, s, Without(s, Named(days)), Delete);
  }

  lemma RemovedNext(s: Shelf, days: seq<string>, i: nat)
    requires i < |days|
    ensures Without(Without(s, Named(days[..i])), {days[i]}) == Without(s, Named(days[..i + 1]))
  {
    assert Named(days[..i + 1]) == Named(days[..i]) + {days[i]};
  }

  /** From one state to the other only statistics of the listed files have been read. */
  ghost predicate ReadFrom(p: Platform, a: Shelf, b: Shelf, keys: seq<string>) {
    forall k :: ViewOf(b, k) == ReadOrNot(p, ViewOf(a, k), k in keys)
  }

  ghost predicate AnswersExact(s: Shelf, keys: seq<string>) {
    forall k :: k in keys ==> Exact(ViewOf(s, k))
  }

  /** The entry with its creation time filled in when it had none. */
  function Stamp(e: Row, now: int): Row {
    if e.created == ZERO_TIME then e.(created := now) else e
  }

  function Stamped(entries: seq<Row>, clock: seq<int>): (s: seq<Row>)
    requires |entries| == |clock|
    ensures |s| == |entries|
  {
    seq(|entries|, i requires 0 <= i < |entries| => Stamp(entries[i], clock[i]))
  }

  /** The entries in order, those without a creation time at their clock readings. */
  ghost predicate Timed(entries: seq<Row>, clock: seq<int>, rows: seq<Row>)
    requires |entries| == |clock|
  {
    |rows| == |entries| && forall i :: 0 <= i < |rows| ==>
      rows[i] == if entries[i].created == -62135596800 then entries[i].(created := clock[i]) else entries[i]
  }

  lemma StampedTimes(before: seq<Row>, after: seq<Row>, entries: seq<Row>, clock: seq<int>)
    requires |entries| == |clock| && after == before + Stamped(entries, clock)
    ensures |before| <= |after| && Timed(entries, clock, after[|before|..])
  {
    assert after[|before|..] == Stamped(entries, clock);
  }

  // ---- Paging.

  /** limit rows from the offset on, counted in the first 20000 rows of the listing; 50 where no limit is given. */
  ghost predicate IsPage(f: QueryFilter, listing: seq<Row>, page: seq<Row>) {
    var o := if f.offset < 0 then 0 else f.offset;
    var l := if f.limit <= 0 then 50 else f.limit;
    var kept := Min(Min(o + l, 20000), |listing|);
    |page| == (if o > kept then 0 else Min(l, kept - o)) && forall i :: 0 <= i < |page| ==> page[i] == listing[o + i]
  }

  function Min(a: nat, b: nat): nat {
    if a <= b then a else b
  }

  // ---- Dates in order of first appearance.

  function DatesOf(dateOf: int -> string, rows: seq<Row>): seq<string> {
    if rows == [] then []
    else
      var init, d := DatesOf(dateOf, rows[..|rows| - 1]), dateOf(rows[|rows| - 1].created);
      if d in init then init else init + [d]
  }

  lemma {:induction false} DatesOfMembers(dateOf: int -> string, rows: seq<Row>)
    ensures Distinct(DatesOf(dateOf, rows))
    ensures forall r :: r in rows ==> dateOf(r.created) in DatesOf(dateOf, rows)
    ensures forall d :: d in DatesOf(dateOf, rows) ==> exists r :: r in rows && dateOf(r.created) == d
  {
    if rows != [] {
      var init, last := rows[..|rows| - 1], rows[|rows| - 1];
      assert rows == init + [last];
      DatesOfMembers(dateOf, init);
      forall d | d in DatesOf(dateOf, rows) ensures exists r :: r in rows && dateOf(r.created) == d {
        if d in DatesOf(dateOf, init) {
          var r :| r in init && dateOf(r.created) == d;
          assert r in rows;
        } else {
          assert last in rows;
        }
      }
    }
  }

  /** The rows of the first n dates. */
  ghost function OfFirst(dateOf: int -> string, rows: seq<Row>, n: nat): seq<Row>
    requires n <= |DatesOf(dateOf, rows)|
  {
    Select(OnDates(dateOf, Members(DatesOf(dateOf, rows)[..n])), rows)
  }

  lemma AllOfThem(dateOf: int -> string, rows: seq<Row>)
    ensures OfFirst(dateOf, rows, |DatesOf(dateOf, rows)|) == rows
  {
    var order := DatesOf(dateOf, rows);
    DatesOfMembers(dateOf, rows);
    assert order[..|order|] == order;
    forall r | r in rows ensures OnDates(dateOf, Members(order))(r) {
      assert dateOf(r.created) in order;
    }
    SelectAll(OnDates(dateOf, Members(order)), rows);
  }

  /** Taking one more date adds that date's entries and changes no other date's. */
  lemma AcceptDate(dateOf: int -> string, before: seq<Row>, entries: seq<Row>, done: set<string>, d: string, e: string)
    requires d !in done
    ensures Select(OnDate(dateOf, e), before + Select(OnDates(dateOf, done + {d}), entries)) ==
            Select(OnDate(dateOf, e), before + Select(OnDates(dateOf, done), entries))
              + (if e == d then Select(OnDate(dateOf, d), entries) else [])
  {
    AcceptedAfter(dateOf, before, entries, done + {d}, e);
    AcceptedAfter(dateOf, before, entries, done, e);
    var b, s := Select(OnDate(dateOf, e), before), Select(OnDate(dateOf, e), entries);
    if e == d {
      assert (b + []) + s == b + s;
    } else {
      var now := Select(OnDate(dateOf, e), before + Select(OnDates(dateOf, done), entries));
      assert now + [] == now;
    }
  }

  lemma AcceptedAfter(dateOf: int -> string, before: seq<Row>, entries: seq<Row>, done: set<string>, e: string)
    ensures Select(OnDate(dateOf, e), before + Select(OnDates(dateOf, done), entries)) ==
            Select(OnDate(dateOf, e), before) + (if e in done then Select(OnDate(dateOf, e), entries) else [])
  {
    SelectConcat(OnDate(dateOf, e), before, Select(OnDates(dateOf, done), entries));
    AcceptedOnDate(dateOf, entries, done, e);
  }

  lemma {:induction false} AcceptedCount(dateOf: int -> string, entries: seq<Row>, done: set<string>, d: string)
    requires d !in done
    ensures |Select(OnDates(dateOf, done + {d}), entries)| ==
            |Select(OnDates(dateOf, done), entries)| + |Select(OnDate(dateOf, d), entries)|
  {
    if entries != [] {
      AcceptedCount(dateOf, entries[..|entries| - 1], done, d);
    }
  }

  lemma AcceptedOnDate(dateOf: int -> string, entries: seq<Row>, done: set<string>, e: string)
    ensures Select(OnDate(dateOf, e), Select(OnDates(dateOf, done), entries)) ==
            if e in done then Select(OnDate(dateOf, e), entries) else []
  {
    if e in done {
      SelectWithin(OnDate(dateOf, e), OnDates(dateOf, done), entries);
    } else {
      SelectMembers(OnDates(dateOf, done), entries);
      SelectNone(OnDate(dateOf, e), Select(OnDates(dateOf, done), entries));
    }
  }

  lemma NextDateExtends(p: Platform, before: seq<Row>, rows: seq<Row>, done: set<string>, d: string)
    requires d !in done
    ensures Extends(p, before + Select(OnDates(p.dateOf, done), rows),
                    before + Select(OnDates(p.dateOf, done + {d}), rows),
                    d, Select(OnDate(p.dateOf, d), rows))
  {
    SelectMembers(OnDate(p.dateOf, d), rows);
    var now, next := before + Select(OnDates(p.dateOf, done), rows),
      before + Select(OnDates(p.dateOf, done + {d}), rows);
    forall e ensures ExtendsOn(p, now, next, d, Select(OnDate(p.dateOf, d), rows), e) {
      AcceptDate(p.dateOf, before, rows, done, d, e);
    }
  }

  /** order lists the dates by first appearance and batches holds each date's rows. */
  ghost predicate Grouped(dateOf: int -> string, rows: seq<Row>, batches: map<string, seq<Row>>, order: seq<string>) {
    && order == DatesOf(dateOf, rows)
    && (forall d :: d in batches <==> d in order)
    && (forall d :: d in batches ==> batches[d] == Select(OnDate(dateOf, d), rows))
  }

  /** Splits a batch into one run per date. */
  method GroupByDate(dateOf: int -> string, rows: seq<Row>) returns (batches: map<string, seq<Row>>, order: seq<string>)
    ensures Grouped(dateOf, rows, batches, order)
    ensures forall i, j :: 0 <= i < j < |order| ==> AppearsFirst(dateOf, rows, order[i], order[j])
  {
    batches, order := map[], [];
    for i := 0 to |rows|
      invariant Grouped(dateOf, rows[..i], batches, order)
    {
      var d := dateOf(rows[i].created);
      assert rows[..i + 1] == rows[..i] + [rows[i]];
      if d in batches {
        GroupedSnoc(dateOf, rows[..i], rows[i], batches, order, batches[d := batches[d] + [rows[i]]]);
        batches := batches[d := batches[d] + [rows[i]]];
      } else {
        NewDate(dateOf, rows[..i], d);
        assert [] + [rows[i]] == [rows[i]];
        GroupedSnoc(dateOf, rows[..i], rows[i], batches, order, batches[d := [rows[i]]]);
        batches := batches[d := [rows[i]]];
        order := order + [d];
      }
    }
    assert rows[..|rows|] == rows;
    forall i, j | 0 <= i < j < |order| ensures AppearsFirst(dateOf, rows, order[i], order[j]) {
      DatesInOrder(dateOf, rows, i, j);
    }
  }

  /** Some row is of date d before any is of date e. */
  ghost predicate AppearsFirst(dateOf: int -> string, rows: seq<Row>, d: string, e: string) {
    exists k :: 0 <= k < |rows| && dateOf(rows[k].created) == d && NoneUpTo(dateOf, rows, k, e)
  }

  ghost predicate NoneUpTo(dateOf: int -> string, rows: seq<Row>, k: int, e: string) {
    forall m :: 0 <= m <= k && m < |rows| ==> dateOf(rows[m].created) != e
  }

  lemma {:induction false} DatesInOrder(dateOf: int -> string, rows: seq<Row>, i: nat, j: nat)
    requires i < j < |DatesOf(dateOf, rows)|
    ensures AppearsFirst(dateOf, rows, DatesOf(dateOf, rows)[i], DatesOf(dateOf, rows)[j])
  {
    var init, last := rows[..|rows| - 1], rows[|rows| - 1];
    var order, before := DatesOf(dateOf, rows), DatesOf(dateOf, init);
    assert rows == init + [last];
    if j < |before| {
      DatesInOrder(dateOf, init, i, j);
      assert order[i] == before[i] && order[j] == before[j];
      StaysFirst(dateOf, init, last, before[i], before[j]);
    } else {
      assert order == before + [dateOf(last.created)] && order[i] == before[i];
      NewDateLast(dateOf, init, last, before[i]);
    }
  }

  lemma StaysFirst(dateOf: int -> string, init: seq<Row>, last: Row, d: string, e: string)
    requires AppearsFirst(dateOf, init, d, e)
    ensures AppearsFirst(dateOf, init + [last], d, e)
  {
    var k :| 0 <= k < |init| && dateOf(init[k].created) == d && NoneUpTo(dateOf, init, k, e);
    assert (init + [last])[k] == init[k] && NoneUpTo(dateOf, init + [last], k, e);
  }

  lemma NewDateLast(dateOf: int -> string, init: seq<Row>, last: Row, d: string)
    requires dateOf(last.created) !in DatesOf(dateOf, init) && d in DatesOf(dateOf, init)
    ensures AppearsFirst(dateOf, init + [last], d, dateOf(last.created))
  {
    DatesOfMembers(dateOf, init);
    var r :| r in init && dateOf(r.created) == d;
    var k :| 0 <= k < |init| && init[k] == r;
    assert NoneUpTo(dateOf, init + [last], k, dateOf(last.created));
    assert (init + [last])[k] == r;
  }

  lemma GroupedSnoc(dateOf: int -> string, rows: seq<Row>, r: Row, batches: map<string, seq<Row>>, order: seq<string>,
                    batches': map<string, seq<Row>>)
    requires Grouped(dateOf, rows, batches, order)
    requires batches' == batches[dateOf(r.created) := Select(OnDate(dateOf, dateOf(r.created)), rows) + [r]]
    ensures Grouped(dateOf, rows + [r], batches',
                    if dateOf(r.created) in batches then order else order + [dateOf(r.created)])
  {
    assert (rows + [r])[..|rows|] == rows;
    forall d | d in batches' ensures batches'[d] == Select(OnDate(dateOf, d), rows + [r]) {
      SelectSnoc(OnDate(dateOf, d), rows, r);
      var s := Select(OnDate(dateOf, d), rows);
      assert s + [] == s;
    }
  }

  lemma NewDate(dateOf: int -> string, rows: seq<Row>, d: string)
    requires d !in DatesOf(dateOf, rows)
    ensures Select(OnDate(dateOf, d), rows) == []
  {
    DatesOfMembers(dateOf, rows);
    SelectNone(OnDate(dateOf, d), rows);
  }

  function LexOrder(): (string, string) -> bool {
    (a: string, b: string) => LexLess(a, b)
  }

  lemma LexOrderIsStrictWeak()
    ensures StrictWeakOrder(LexOrder())
  {
    forall a ensures !LexOrder()(a, a) {
      LexIrreflexive(a);
    }
    forall a, b, c ensures LexOrder()(a, b) && LexOrder()(b, c) ==> LexOrder()(a, c) {
      if LexLess(a, b) && LexLess(b, c) {
        LexTransitive(a, b, c);
      }
    }
    forall a, b, c ensures !LexOrder()(a, b) && !LexOrder()(b, c) ==> !LexOrder()(a, c) {
      if !LexLess(a, b) && !LexLess(b, c) && LexLess(a, c) && a != b && b != c {
        LexTotal(a, b);
        LexTotal(b, c);
        LexTransitive(c, b, a);
        LexAsymmetric(a, c);
      }
    }
  }

  lemma SameSize(a: seq<Row>, b: seq<Row>)
    requires multiset(a) == multiset(b)
    ensures |a| == |b|
  {
    assert |multiset(a)| == |a| && |multiset(b)| == |b|;
  }

  method OfferRow(keep: nat, h0: seq<RankedRow>, ghost rest0: seq<RankedRow>, ghost seen: seq<Row>, e: Row, n: nat)
    returns (h: seq<RankedRow>, ghost rest: seq<RankedRow>)
    requires Retains(h0, rest0, keep, Ranked(seen)) && n == |seen| + 1
    ensures Retains(h, rest, keep, Ranked(seen + [e]))
  {
    RankedSnoc(seen, e);
    h, rest := Offer(h0, rest0, keep, Ranked(seen), RankedRow(e, e.created, n));
  }

  /** One file's rows offered to the heap, one after the other. */
  method CollectFile(pick: Row -> bool, keep: nat, rows: seq<Row>, h0: seq<RankedRow>, ghost rest0: seq<RankedRow>,
                     ghost seen: seq<Row>, n0: nat)
    returns (h: seq<RankedRow>, n: nat, ghost rest: seq<RankedRow>)
    requires Retains(h0, rest0, keep, Ranked(seen)) && n0 == |seen|
    ensures Retains(h, rest, keep, Ranked(seen + Select(pick, rows)))
    ensures n == |seen + Select(pick, rows)|
  {
    h, rest, n := h0, rest0, n0;
    ghost var now := seen;
    for j := 0 to |rows|
      invariant now == seen + Select(pick, rows[..j])
      invariant Retains(h, rest, keep, Ranked(now)) && n == |now|
    {
      var e := rows[j];
      PickNext(pick, seen, rows, j);
      if pick(e) {
        n := n + 1;
        h, rest := OfferRow(keep, h, rest, now, e, n);
        now := now + [e];
      }
    }
    assert rows[..|rows|] == rows;
  }

  lemma PickNext(pick: Row -> bool, seen: seq<Row>, rows: seq<Row>, j: nat)
    requires j < |rows|
    ensures seen + Select(pick, rows[..j + 1])
      == seen + Select(pick, rows[..j]) + (if pick(rows[j]) then [rows[j]] else [])
    ensures !pick(rows[j]) ==> seen + Select(pick, rows[..j + 1]) == seen + Select(pick, rows[..j])
  {
    assert rows[..j + 1] == rows[..j] + [rows[j]];
    SelectSnoc(pick, rows[..j], rows[j]);
  }

  lemma RankedSnoc(rows: seq<Row>, e: Row)
    ensures Ranked(rows + [e]) == Ranked(rows) + [RankedRow(e, e.created, |rows| + 1)]
    ensures DistinctRanks(Ranked(rows + [e]))
  {
  }

  lemma RankedDistinct(rows: seq<Row>)
    ensures DistinctRanks(Ranked(rows))
  {
  }

  lemma RowsOfPrefix(s: seq<RankedRow>, n: nat)
    requires n <= |s|
    ensures RowsOf(s[..n]) == RowsOf(s)[..n]
  {
  }

  /** Sorting what the heap retained gives the head of the newest-first listing. */
  lemma BestRows(h: seq<RankedRow>, rest: seq<RankedRow>, keep: nat, seen: seq<Row>)
    requires Retains(h, rest, keep, Ranked(seen))
    ensures |h| == Min(keep, |NewestFirst(seen)|)
    ensures RowsOf(StableSort(NewerOrder(), h)) == NewestFirst(seen)[..|h|]
  {
    RankedDistinct(seen);
    RetainedAreFirst(h, rest, keep, Ranked(seen));
    FullSortIsNewestFirst(seen);
    RowsOfPrefix(StableSort(NewerOrder(), Ranked(seen)), |h|);
  }

  /** Scans the files and keeps the best rows in a heap. */
  method Collect(pick: Row -> bool, keep: nat, disk: Disk, keys: seq<string>)
    returns (h: seq<RankedRow>, total: nat, ghost rest: seq<RankedRow>)
    ensures Retains(h, rest, keep, Ranked(Select(pick, ScanOf(disk, keys))))
    ensures total == |Select(pick, ScanOf(disk, keys))|
  {
    h, total, rest := [], 0, [];
    for i := 0 to |keys|
      invariant Retains(h, rest, keep, Ranked(Select(pick, ScanOf(disk, keys[..i]))))
      invariant total == |Select(pick, ScanOf(disk, keys[..i]))|
    {
      assert keys[..i + 1] == keys[..i] + [keys[i]];
      ScanSnoc(disk, keys[..i], keys[i]);
      SelectConcat(pick, ScanOf(disk, keys[..i]), RowsIn(disk, keys[i]));
      h, total, rest := CollectFile(pick, keep, RowsIn(disk, keys[i]), h, rest, Select(pick, ScanOf(disk, keys[..i])),
                                    total);
    }
    assert keys[..|keys|] == keys;
  }

  /** One page of the newest rows that pass, and how many pass. */
  method PageAcross(f: QueryFilter, disk: Disk, keys: seq<string>) returns (out: seq<Row>, total: nat)
    ensures IsPage(f, NewestFirst(Select(Passing(f), ScanOf(disk, keys))), out)
    ensures total == |Select(Passing(f), ScanOf(disk, keys))|
  {
    var limit := if f.limit <= 0 then 50 else f.limit;
    var offset := if f.offset < 0 then 0 else f.offset;
    var keep := if offset + limit > MAX_TOP_K then MAX_TOP_K else offset + limit;
    var h;
    ghost var rest;
    h, total, rest := Collect(Passing(f), keep, disk, keys);
    var sorted := StableSort(NewerOrder(), h);
    BestRows(h, rest, keep, Select(Passing(f), ScanOf(disk, keys)));
    out := CutPage(f, offset, limit, sorted, NewestFirst(Select(Passing(f), ScanOf(disk, keys))));
  }

  method CutPage(ghost f: QueryFilter, offset: nat, limit: nat, sorted: seq<RankedRow>, ghost listing: seq<Row>)
    returns (out: seq<Row>)
    requires offset == (if f.offset < 0 then 0 else f.offset) && limit == if f.limit <= 0 then 50 else f.limit
    requires |sorted| == Min(Min(offset + limit, MAX_TOP_K), |listing|) && RowsOf(sorted) == listing[..|sorted|]
    ensures IsPage(f, listing, out)
  {
    var start := if offset > |sorted| then |sorted| else offset;
    var end := if start + limit > |sorted| then |sorted| else start + limit;
    out := RowsOf(sorted[start..end]);
    forall i | 0 <= i < |out| ensures out[i] == listing[start + i] {
      assert out[i] == sorted[start + i].row == RowsOf(sorted)[start + i] == listing[..|sorted|][start + i];
    }
  }

  // ---- Aggregates of a full scan are aggregates of the history.

  lemma ScanSums(nm: Naming, p: Platform, disk: Disk, count: map<string, nat>, history: seq<Row>, keys: seq<string>,
                 pick: Row -> bool)
    requires Lawful(nm) && InOrder(nm, p, disk, count, history) && Enumerates(nm, keys, disk)
    ensures Sum(Select(pick, ScanOf(disk, keys))) == Sum(Select(pick, history))
    ensures SumGroup(Select(pick, ScanOf(disk, keys))) == SumGroup(Select(pick, history))
  {
    ScanListsHistory(nm, p, disk, count, history, keys, pick);
    SumNewestFirst(Select(pick, ScanOf(disk, keys)));
    SumNewestFirst(Select(pick, history));
  }

  function Every(): Row -> bool {
    (r: Row) => true
  }

  lemma ScanTotals(nm: Naming, p: Platform, disk: Disk, count: map<string, nat>, history: seq<Row>, keys: seq<string>)
    requires Lawful(nm) && InOrder(nm, p, disk, count, history) && Enumerates(nm, keys, disk)
    ensures Sum(ScanOf(disk, keys)) == Sum(history)
  {
    ScanSums(nm, p, disk, count, history, keys, Every());
    SelectAll(Every(), ScanOf(disk, keys));
    SelectAll(Every(), history);
  }

  function Both(p: Row -> bool, q: Row -> bool): Row -> bool {
    (r: Row) => p(r) && q(r)
  }

  lemma ScanGroups(nm: Naming, p: Platform, disk: Disk, count: map<string, nat>, history: seq<Row>, keys: seq<string>,
                   pick: Row -> bool, field: string)
    requires Lawful(nm) && InOrder(nm, p, disk, count, history) && Enumerates(nm, keys, disk)
    ensures GroupBy(field, Select(pick, ScanOf(disk, keys))) == GroupBy(field, Select(pick, history))
  {
    var a, b := Select(pick, ScanOf(disk, keys)), Select(pick, history);
    ScanListsHistory(nm, p, disk, count, history, keys, pick);
    SameLabels(field, a, b);
    forall k | k in Labels(field, b) ensures GroupBy(field, a)[k] == GroupBy(field, b)[k] {
      SelectTwice(pick, Labelled(field, k), Both(pick, Labelled(field, k)), ScanOf(disk, keys));
      SelectTwice(pick, Labelled(field, k), Both(pick, Labelled(field, k)), history);
      ScanSums(nm, p, disk, count, history, keys, Both(pick, Labelled(field, k)));
    }
    SameGroups(GroupBy(field, a), GroupBy(field, b));
  }

  lemma SameLabels(field: string, a: seq<Row>, b: seq<Row>)
    requires multiset(a) == multiset(b)
    ensures Labels(field, a) == Labels(field, b)
  {
    forall r ensures r in a <==> r in b {
      assert r in a <==> r in multiset(a);
      assert r in b <==> r in multiset(b);
    }
  }

  /** One more file whose rollup is right. */
  lemma NextTotals(s: Shelf, keys: seq<string>, i: nat, m: Meta, sum: Totals)
    requires i < |keys| && AnswersExact(s, keys) && m == Answer(ViewOf(s, keys[i]))
    requires sum == Sum(ScanOf(s.disk, keys[..i]))
    ensures Plus(sum, m.totals) == Sum(ScanOf(s.disk, keys[..i + 1]))
  {
    assert m.totals == Sum(RowsIn(s.disk, keys[i]));
    NextScan(s.disk, keys, i);
    SumConcat(ScanOf(s.disk, keys[..i]), RowsIn(s.disk, keys[i]));
  }

  lemma NextGroups(s: Shelf, keys: seq<string>, i: nat, m: Meta, field: string, groups: Groups)
    requires i < |keys| && AnswersExact(s, keys) && m == Answer(ViewOf(s, keys[i])) && ValidField(field)
    requires groups == GroupBy(field, ScanOf(s.disk, keys[..i]))
    ensures Merged(groups, FieldMap(m, field)) == GroupBy(field, ScanOf(s.disk, keys[..i + 1]))
  {
    RollupGroups(field, RowsIn(s.disk, keys[i]));
    NextScan(s.disk, keys, i);
    MergedGroupings(field, ScanOf(s.disk, keys[..i]), RowsIn(s.disk, keys[i]));
  }

  lemma RollupGroups(field: string, rows: seq<Row>)
    requires ValidField(field)
    ensures FieldMap(RollupOf(rows), field) == GroupBy(field, rows)
  {
  }

  lemma NextScan(disk: Disk, keys: seq<string>, i: nat)
    requires i < |keys|
    ensures ScanOf(disk, keys[..i + 1]) == ScanOf(disk, keys[..i]) + RowsIn(disk, keys[i])
  {
    assert keys[..i + 1] == keys[..i] + [keys[i]];
    ScanSnoc(disk, keys[..i], keys[i]);
  }

  lemma PlusZero(t: Totals)
    ensures Plus(ZERO, t) == t
  {
  }

  /** Groups the matching rows by scanning. */
  method GroupScan(pick: Row -> bool, field: string, disk: Disk, keys: seq<string>) returns (groups: Groups)
    ensures groups == GroupBy(field, Select(pick, ScanOf(disk, keys)))
  {
    groups := map[];
    for i := 0 to |keys|
      invariant groups == GroupBy(field, Select(pick, ScanOf(disk, keys[..i])))
    {
      assert keys[..i + 1] == keys[..i] + [keys[i]];
      ScanSnoc(disk, keys[..i], keys[i]);
      SelectConcat(pick, ScanOf(disk, keys[..i]), RowsIn(disk, keys[i]));
      groups := GroupFile(pick, field, RowsIn(disk, keys[i]), Select(pick, ScanOf(disk, keys[..i])), groups);
    }
    assert keys[..|keys|] == keys;
  }

  method GroupFile(pick: Row -> bool, field: string, rows: seq<Row>, ghost seen: seq<Row>, groups0: Groups)
    returns (groups: Groups)
    requires groups0 == GroupBy(field, seen)
    ensures groups == GroupBy(field, seen + Select(pick, rows))
  {
    groups := groups0;
    ghost var now := seen;
    for j := 0 to |rows|
      invariant now == seen + Select(pick, rows[..j]) && groups == GroupBy(field, now)
    {
      PickNext(pick, seen, rows, j);
      if pick(rows[j]) {
        AddToGrouping(field, now, rows[j]);
        groups := AddTo(groups, FieldKey(field, rows[j]), rows[j]);
        now := now + [rows[j]];
      }
    }
    assert rows[..|rows|] == rows;
  }

  method SeriesScan(pick: Row -> bool, bucketOf: Row -> int, disk: Disk, keys: seq<string>)
    returns (out: seq<SeriesBucket>)
    ensures SeriesOf(bucketOf, out, Select(pick, ScanOf(disk, keys)))
  {
    var agg: Series := map[];
    for i := 0 to |keys|
      invariant BucketsOf(bucketOf, Select(pick, ScanOf(disk, keys[..i])), agg)
    {
      assert keys[..i + 1] == keys[..i] + [keys[i]];
      ScanSnoc(disk, keys[..i], keys[i]);
      SelectConcat(pick, ScanOf(disk, keys[..i]), RowsIn(disk, keys[i]));
      agg := SeriesFile(pick, bucketOf, RowsIn(disk, keys[i]), Select(pick, ScanOf(disk, keys[..i])), agg);
    }
    assert keys[..|keys|] == keys;
    out := ListBuckets(bucketOf, Select(pick, ScanOf(disk, keys)), agg);
  }

  method SeriesFile(pick: Row -> bool, bucketOf: Row -> int, rows: seq<Row>, ghost seen: seq<Row>, agg0: Series)
    returns (agg: Series)
    requires BucketsOf(bucketOf, seen, agg0)
    ensures BucketsOf(bucketOf, seen + Select(pick, rows), agg)
  {
    agg := agg0;
    ghost var now := seen;
    for j := 0 to |rows|
      invariant now == seen + Select(pick, rows[..j]) && BucketsOf(bucketOf, now, agg)
    {
      PickNext(pick, seen, rows, j);
      if pick(rows[j]) {
        agg := AddToSeries(bucketOf, now, agg, rows[j]);
        now := now + [rows[j]];
      }
    }
    assert rows[..|rows|] == rows;
  }

  /** Ranks the groups of whichever of the two row sequences they are. */
  method RankedRows(groups: Groups, field: string, limit: int, ghost scanned: seq<Row>, ghost inserted: seq<Row>)
    returns (top: seq<NamedMetric>)
    requires ValidField(field)
    ensures groups == GroupBy(field, scanned) ==> TopGroups(top, field, scanned, limit)
    ensures groups == GroupBy(field, inserted) ==> TopGroups(top, field, inserted, limit)
  {
    top := RankGroups(groups, limit);
    if groups == GroupBy(field, scanned) {
      TopMeans(top, field, scanned, limit);
    }
    if groups == GroupBy(field, inserted) {
      TopMeans(top, field, inserted, limit);
    }
  }

  lemma SameListing(nm: Naming, p: Platform, disk: Disk, count: map<string, nat>, history: seq<Row>,
                    keys: seq<string>, pick: Row -> bool)
    requires Lawful(nm) && InOrder(nm, p, disk, count, history) && Enumerates(nm, keys, disk)
    ensures NewestFirst(Select(pick, ScanOf(disk, keys))) == NewestFirst(Select(pick, history))
    ensures |Select(pick, ScanOf(disk, keys))| == |Select(pick, history)|
  {
    ScanListsHistory(nm, p, disk, count, history, keys, pick);
    SameSize(Select(pick, ScanOf(disk, keys)), Select(pick, history));
  }

  /** The series of the scanned rows is that of the history. */
  lemma ChartsHistory(nm: Naming, p: Platform, disk: Disk, count: map<string, nat>, history: seq<Row>,
                      keys: seq<string>, pick: Row -> bool, out: seq<SeriesBucket>, w: int)
    requires Lawful(nm) && InOrder(nm, p, disk, count, history) && Enumerates(nm, keys, disk)
    requires w > 0 && Charts(out, w, Select(pick, ScanOf(disk, keys)))
    ensures Charts(out, w, Select(pick, history))
  {
    var a, b := Select(pick, ScanOf(disk, keys)), Select(pick, history);
    ScanListsHistory(nm, p, disk, count, history, keys, pick);
    forall i | 0 <= i < |out| ensures Bar(out[i], w, b) {
      var span := InSpan(w, out[i].bucket);
      assert Bar(out[i], w, a);
      SelectTwice(pick, span, Both(pick, span), ScanOf(disk, keys));
      SelectTwice(pick, span, Both(pick, span), history);
      ScanSums(nm, p, disk, count, history, keys, Both(pick, span));
      ScanListsHistory(nm, p, disk, count, history, keys, Both(pick, span));
      SameTotals(out[i].totals, Select(span, a), Select(span, b));
    }
    forall r | r in b ensures Falls(r, w, out) {
      assert r in multiset(b) && r in a;
    }
    ScanSums(nm, p, disk, count, history, keys, pick);
    SameTotals(SumBuckets(out), a, b);
  }

  lemma SumsAgree(a: seq<Row>, b: seq<Row>)
    requires Sum(a) == Sum(b)
    ensures forall t :: Adds(t, a) <==> Adds(t, b)
  {
    SumAdds(a);
    SumAdds(b);
  }

  lemma SameTotals(t: Totals, a: seq<Row>, b: seq<Row>)
    requires Adds(t, a) && Sum(a) == Sum(b)
    ensures Adds(t, b)
  {
    SumAdds(a);
    SumAdds(b);
  }

  class JsonlDriver {
    const p: Platform
    const nm: Naming

    // The directory: <key>.jsonl and <key>.meta.json.
    var disk: Disk
    var metas: map<string, Meta>
    // The process: files held open, and each date's active file.
    var files: map<string, OpenFile>
    var current: map<string, string>

    /** The rows inserted so far, in order of insertion. */
    ghost var history: seq<Row>
    ghost var count: map<string, nat>

    ghost predicate Valid()
      reads this
    {
      && Lawful(nm)
      && Counters(p, disk, files)
      && (forall d :: d in current ==> nm.date(current[d]) == d && Appendable(nm, current[d]))
    }

    ghost function View(key: string): FileState
      reads this
    {
      FileView(disk, metas, files, key)
    }

    ghost function Now(): Shelf
      reads this
    {
      Shelf(disk, metas, files)
    }

    /** No rollup, stored or in memory, can lead to a wrong answer now or later. */
    ghost predicate Trusted()
      reads this
    {
      ShelfTrusted(nm, p, Now())
    }

    /** The directory holds the history: numbered files, rolled over only when full. */
    ghost predicate Ordered()
      reads this
    {
      InOrder(nm, p, disk, count, history)
    }

    /** The directory is in order, and this is the date's last file. */
    ghost predicate IsLast(date: string, key: string)
      reads this
    {
      Ordered() && date in count && key == nm.key(date, count[date] - 1)
    }

    /** A new driver on an empty directory. */
    constructor (p: Platform)
      ensures Valid() && Ordered() && Trusted() && history == [] && disk == map[] && this.p == p && nm == FileNames()
    {
      this.p := p;
      nm := FileNames();
      disk, metas, files, current := map[], map[], map[], map[];
      history, count := [], map[];
      new;
      FileNamesLawful();
      EmptyInOrder(nm, p);
    }

    /** A driver on an existing directory, whatever it holds.  If that is the history of earlier inserts, it
        goes on from there. */
    constructor Open(p: Platform, disk: Disk, metas: map<string, Meta>, ghost count: map<string, nat>,
                     ghost history: seq<Row>)
      ensures Valid() && this.p == p && nm == FileNames() && this.disk == disk && this.metas == metas && files == map[]
      ensures this.count == count && this.history == history
      ensures InOrder(nm, p, disk, count, history) ==> Ordered()
      ensures (forall k :: Trustworthy(p, Appendable(nm, k), View(k))) ==> Trusted()
    {
      this.p := p;
      nm := FileNames();
      this.disk, this.metas, files, current := disk, metas, map[], map[];
      this.history, this.count := history, count;
      new;
      FileNamesLawful();
      StartTrusted(nm, p, Now());
    }

    /** Closing forgets the open files; what they held is on disk. */
    method Close()
      requires Valid()
      modifies this`files
      ensures Valid() && (old(Ordered()) ==> Ordered()) && files == map[]
      ensures forall k :: View(k) == Next(p, old(View(k)), Reopen)
      ensures old(Trusted()) ==> Trusted()
    {
      ghost var start := Now();
      files := map[];
      AllStepped(nm, p, start, Now(), Reopen);
    }

    /** A clean restart: a new process opens the same directory. */
    method Restart()
      requires Valid()
      modifies this`files, this`current
      ensures Valid() && (old(Ordered()) ==> Ordered()) && files == map[] && current == map[]
      ensures forall k :: View(k) == Next(p, old(View(k)), Reopen)
      ensures old(Trusted()) ==> Trusted()
    {
      ghost var start := Now();
      files, current := map[], map[];
      AllStepped(nm, p, start, Now(), Reopen);
    }

    function LoadMeta(key: string): Option<Meta>
      reads this
    {
      if key in metas && metas[key].totals.rows != 0 then Some(metas[key]) else None
    }

    /** Opens or creates a file: an empty one starts a clean rollup, another one has the rollup that is
        stored, or none. */
    method OpenSlot(date: string, key: string)
      requires Valid() && key !in files && nm.date(key) == date && Appendable(nm, key)
      modifies this`files, this`current, this`disk
      ensures Valid() && key in files && current == old(current)[date := key]
      ensures disk == Grown(old(disk), key)
      ensures files == old(files)[key := files[key]] && files[key].meta == Opened(old(View(key)))
      ensures files[key].bytesWritten == SizeOf(p, disk[key])
      ensures files[key].meta ==
        if RowsIn(old(disk), key) == [] then Some(EMPTY_META)
        else if key in metas && metas[key].totals.rows != 0 then Some(metas[key])
        else None
    {
      if key !in disk {
        disk := disk[key := []];
      }
      var size := SizeOf(p, disk[key]);
      SizeZero(p, disk[key]);
      files := files[key := OpenFile(size, if size == 0 then Some(EMPTY_META) else LoadMeta(key))];
      current := current[date := key];
    }

    /** The first slot of the date that is missing or below the cap. */
    method FindSlot(date: string) returns (n: nat, ok: bool)
      requires Valid()
      ensures forall m: nat :: m < n ==> Full(p, disk, nm.key(date, m))
      ensures ok ==> n <= 9999 && (nm.key(date, n) in disk ==> SizeOf(p, disk[nm.key(date, n)]) < p.maxFileBytes)
      ensures !ok ==> n == 10000
    {
      n, ok := 0, false;
      while n <= MAX_SEQ
        invariant n <= MAX_SEQ + 1
        invariant forall m: nat :: m < n ==> Full(p, disk, nm.key(date, m))
      {
        var key := nm.key(date, n);
        if key in files {
          // The in-memory counter stands in for the size of a file held open.
          if files[key].bytesWritten < p.maxFileBytes {
            return n, true;
          }
        } else if !(key in disk && SizeOf(p, disk[key]) >= p.maxFileBytes) {
          return n, true;
        }
        n := n + 1;
      }
    }

    /** The file to append to: the active one while it has room, else the first slot with room.
        In an ordered directory that is the date's last file or a new one behind it. */
    method Acquire(date: string) returns (key: string, ok: bool)
      requires Valid() && nm.isDate(date)
      modifies this`files, this`current, this`disk, this`count
      ensures Valid() && (old(Ordered()) ==> Ordered())
      ensures ok ==> key in files && nm.date(key) == date && Appendable(nm, key) && !Full(p, old(disk), key)
      ensures ok ==> disk == Grown(old(disk), key)
      ensures ok ==> files == old(files)[key := files[key]] && files[key].meta == Opened(old(View(key)))
      ensures ok && old(Ordered()) ==> IsLast(date, key)
      ensures !ok ==> disk == old(disk) && files == old(files)
      ensures !ok ==> forall n: nat :: n <= MAX_SEQ ==> Full(p, disk, nm.key(date, n))
    {
      if date in current && current[date] in files && files[current[date]].bytesWritten < p.maxFileBytes {
        key, ok := current[date], true;
        RoomIsLast(date, key);
      } else {
        key, ok := AcquireSlot(date);
      }
    }

    method AcquireSlot(date: string) returns (key: string, ok: bool)
      requires Valid() && nm.isDate(date)
      modifies this`files, this`current, this`disk, this`count
      ensures Valid() && (old(Ordered()) ==> Ordered())
      ensures ok ==> key in files && nm.date(key) == date && Appendable(nm, key) && !Full(p, old(disk), key)
      ensures ok ==> disk == Grown(old(disk), key)
      ensures ok ==> files == old(files)[key := files[key]] && files[key].meta == Opened(old(View(key)))
      ensures ok && old(Ordered()) ==> IsLast(date, key)
      ensures !ok ==> disk == old(disk) && files == old(files)
      ensures !ok ==> forall n: nat :: n <= MAX_SEQ ==> Full(p, disk, nm.key(date, n))
    {
      var n;
      n, ok := FindSlot(date);
      if !ok {
        key := "";
        return;
      }
      key := nm.key(date, n);
      assert SlotOf(nm, key, date, n);
      ghost var counted := SlotCount(date, n, key);
      UseSlot(date, key, Ordered(), counted);
    }

    method UseSlot(date: string, key: string, ghost ordered: bool, ghost counted: map<string, nat>)
      requires Valid() && nm.date(key) == date && Appendable(nm, key)
      requires ordered ==> InOrder(nm, p, Grown(disk, key), counted, history)
      modifies this`files, this`current, this`disk, this`count
      ensures Valid() && (ordered ==> Ordered()) && count == counted
      ensures key in files && disk == Grown(old(disk), key)
      ensures files == old(files)[key := files[key]] && files[key].meta == Opened(old(View(key)))
    {
      OpenOrReuse(date, key);
      count := counted;
    }

    /** The numbering once the slot is in use. */
    lemma SlotCount(date: string, n: nat, key: string) returns (counted: map<string, nat>)
      requires Lawful(nm) && nm.isDate(date) && n <= MAX_SEQ && key == nm.key(date, n) && !Full(p, disk, key)
      requires forall m: nat :: m < n ==> Full(p, disk, nm.key(date, m))
      ensures Ordered() ==> InOrder(nm, p, Grown(disk, key), counted, history)
      ensures Ordered() ==> date in counted && key == nm.key(date, counted[date] - 1)
    {
      counted := count;
      if key in disk {
        RoomIsLast(date, key);
      } else if Ordered() {
        NextSlot(date, n);
        counted := count[date := n + 1];
      }
    }

    method OpenOrReuse(date: string, key: string)
      requires Valid() && nm.date(key) == date && Appendable(nm, key)
      modifies this`files, this`current, this`disk
      ensures Valid() && key in files
      ensures disk == Grown(old(disk), key)
      ensures files == old(files)[key := files[key]] && files[key].meta == Opened(old(View(key)))
    {
      if key in files {
        current := current[date := key];
      } else {
        OpenSlot(date, key);
      }
    }

    /** One batch of lines: the byte counter and the rollup, if there is one, follow every row written. */
    method WriteLines(f: OpenFile, ghost rows: seq<Row>, entries: seq<Row>) returns (f': OpenFile)
      requires f.bytesWritten == SizeOf(p, rows)
      ensures f'.bytesWritten == SizeOf(p, rows + entries)
      ensures f'.meta == if f.meta.None? then None else Some(FoldTo(Folded, f.meta.value, entries, |entries|))
    {
      var meta := new FileMeta(if f.meta.Some? then f.meta.value else EMPTY_META);
      ghost var start := meta.View();
      var bytes := f.bytesWritten;
      assert rows + entries[..0] == rows;
      for n := 0 to |entries|
        invariant bytes == SizeOf(p, rows + entries[..n])
        invariant f.meta.Some? ==> meta.View() == FoldTo(Folded, start, entries, n)
      {
        SizeNext(p, rows, entries, n);
        bytes := bytes + p.lineLen(entries[n]) + 1;
        if f.meta.Some? {
          meta.Add(entries[n]);
        }
      }
      assert entries[..|entries|] == entries;
      f' := OpenFile(bytes, if f.meta.Some? then Some(meta.View()) else None);
    }

    /** Writes the entries to an open file, flushes, and writes the rollup if there is one. */
    method WriteTo(key: string, entries: seq<Row>)
      requires Valid() && key in files
      modifies this`disk, this`files, this`metas
      ensures Valid() && key in old(disk) && disk == old(disk)[key := old(disk)[key] + entries]
      ensures View(key) == Written(old(View(key)), old(files[key].meta), entries)
      ensures forall k :: k != key ==> View(k) == old(View(k))
    {
      var f := WriteLines(files[key], disk[key], entries);
      disk := disk[key := disk[key] + entries];
      files := files[key := f];
      if f.meta.Some? {
        metas := metas[key := f.meta.value];
      }
    }

    /** Writes the entries to an open file; what was the date's last file stays it. */
    method AppendTo(date: string, key: string, entries: seq<Row>, ghost next: seq<Row>)
      requires Valid() && key in files && Extends(p, history, next, date, entries)
      modifies this`disk, this`files, this`metas, this`history
      ensures Valid() && key in old(disk) && disk == old(disk)[key := old(disk)[key] + entries] && history == next
      ensures old(IsLast(date, key)) ==> Ordered()
      ensures View(key) == Written(old(View(key)), old(files[key].meta), entries)
      ensures forall k :: k != key ==> View(k) == old(View(k))
    {
      AppendKeepsOrder(date, key, entries, next);
      WriteTo(key, entries);
      history := next;
    }

    /** Appends one date's entries to the file that has room for them. */
    method AppendForDate(date: string, entries: seq<Row>, ghost next: seq<Row>) returns (n: nat, ok: bool, key: string)
      requires Valid() && nm.isDate(date) && Extends(p, history, next, date, entries)
      modifies this
      ensures Valid() && (old(Ordered()) ==> Ordered())
      ensures ok ==> n == |entries| && history == next
      ensures ok ==> nm.date(key) == date && Appendable(nm, key)
      ensures ok && key in old(disk) ==> SizeOf(p, old(disk)[key]) < p.maxFileBytes
      ensures ok ==> disk == old(disk)[key := RowsIn(old(disk), key) + entries]
      ensures ok ==> View(key) == Appended(old(View(key)), entries)
      ensures forall k :: !ok || k != key ==> View(k) == old(View(k))
      ensures !ok ==> n == 0 && history == old(history) && disk == old(disk)
      ensures !ok ==> forall n: nat :: n <= 9999 ==>
        nm.key(date, n) in disk && SizeOf(p, disk[nm.key(date, n)]) >= p.maxFileBytes
    {
      key, ok := Acquire(date);
      if !ok {
        return 0, false, key;
      }
      n := |entries|;
      Extended(old(disk), key, entries);
      AppendTo(date, key, entries, next);
    }

    /** The same as a step of the file's state. */
    method AppendOne(date: string, entries: seq<Row>, ghost next: seq<Row>) returns (n: nat, ok: bool)
      requires Valid() && nm.isDate(date) && Extends(p, history, next, date, entries) && entries != []
      modifies this
      ensures Valid() && (old(Ordered()) ==> Ordered())
      ensures ok ==> n == |entries| && history == next
      ensures !ok ==> history == old(history) && NoSlotLeft(date)
      ensures Progress(nm, p, old(Now()), Now(), if ok then {date} else {})
    {
      var key;
      n, ok, key := AppendForDate(date, entries, next);
      ghost var dates := if ok then {date} else {};
      forall k ensures Moved(nm, p, old(Now()), Now(), dates, k) {
        assert ViewOf(Now(), k) == View(k) && ViewOf(old(Now()), k) == old(View(k));
        StepOrStay(p, old(View(k)), View(k), entries);
      }
    }

    lemma AppendKeepsOrder(date: string, key: string, entries: seq<Row>, next: seq<Row>)
      requires Lawful(nm) && key in disk && Extends(p, history, next, date, entries)
      ensures IsLast(date, key) ==> InOrder(nm, p, disk[key := disk[key] + entries], count, next)
    {
      if IsLast(date, key) {
        AppendsToLast(nm, p, disk, count, history, date, entries, next);
      }
    }

    /** Appends a batch, grouped by UTC date in order of first appearance.  Dates are taken one by
        one until one of them has no slot left; clock gives the time for entries that have none.
        Every file takes at most one append step. */
    method BatchInsert(entries: seq<Row>, clock: seq<int>) returns (total: nat, ok: bool, ghost taken: nat)
      requires Valid() && |entries| == |clock|
      requires forall e :: e in Stamped(entries, clock) ==> nm.isDate(p.dateOf(e.created))
      modifies this
      ensures Valid() && (old(Ordered()) ==> Ordered()) && (old(Trusted()) ==> Trusted())
      ensures taken <= |DatesOf(p.dateOf, Stamped(entries, clock))|
      ensures var written := OfFirst(p.dateOf, Stamped(entries, clock), taken);
        history == old(history) + written && total == |written| && (ok ==> written == Stamped(entries, clock))
      ensures ok ==> Timed(entries, clock, history[|old(history)|..])
      ensures !ok ==> var dates := DatesOf(p.dateOf, Stamped(entries, clock));
        taken < |dates| && NoSlotLeft(dates[taken])
      ensures var dates := Members(DatesOf(p.dateOf, Stamped(entries, clock))[..taken]);
        Progress(nm, p, old(Now()), Now(), dates)
    {
      var rows := Stamped(entries, clock);
      var batches, order := GroupByDate(p.dateOf, rows);
      DatesOfMembers(p.dateOf, rows);
      forall d | d in order ensures nm.isDate(d) && batches[d] != [] {
        var r :| r in rows && p.dateOf(r.created) == d;
        SelectMembers(OnDate(p.dateOf, d), rows);
        assert r in batches[d];
      }
      total, ok, taken := InsertDates(rows, batches, order);
      if ok {
        AllOfThem(p.dateOf, rows);
        StampedTimes(old(history), history, entries, clock);
      }
    }

    ghost predicate NoSlotLeft(d: string)
      reads this
    {
      SlotsFull(nm, p, disk, d)
    }

    method InsertDates(ghost rows: seq<Row>, batches: map<string, seq<Row>>, order: seq<string>)
      returns (total: nat, ok: bool, ghost taken: nat)
      requires Valid() && Grouped(p.dateOf, rows, batches, order) && Distinct(order)
      requires forall d :: d in order ==> nm.isDate(d) && batches[d] != []
      modifies this
      ensures Valid() && (old(Ordered()) ==> Ordered())
      ensures taken <= |order| && (ok ==> taken == |order|)
      ensures history == old(history) + Select(OnDates(p.dateOf, Members(order[..taken])), rows)
      ensures total == |Select(OnDates(p.dateOf, Members(order[..taken])), rows)|
      ensures !ok ==> taken < |order| && NoSlotLeft(order[taken])
      ensures Progress(nm, p, old(Now()), Now(), Members(order[..taken]))
      ensures old(Trusted()) ==> Trusted()
    {
      total, ok, taken := InsertEach(rows, batches, order);
      ProgressTrusted(nm, p, old(Now()), Now(), Members(order[..taken]));
    }

    method InsertEach(ghost rows: seq<Row>, batches: map<string, seq<Row>>, order: seq<string>)
      returns (total: nat, ok: bool, ghost taken: nat)
      requires Valid() && Grouped(p.dateOf, rows, batches, order) && Distinct(order)
      requires forall d :: d in order ==> nm.isDate(d) && batches[d] != []
      modifies this
      ensures Valid() && (old(Ordered()) ==> Ordered())
      ensures taken <= |order| && (ok ==> taken == |order|)
      ensures history == old(history) + Select(OnDates(p.dateOf, Members(order[..taken])), rows)
      ensures total == |Select(OnDates(p.dateOf, Members(order[..taken])), rows)|
      ensures !ok ==> taken < |order| && NoSlotLeft(order[taken])
      ensures Progress(nm, p, old(Now()), Now(), Members(order[..taken]))
    {
      total, ok, taken := 0, true, 0;
      ghost var done := {};
      SelectNone(OnDates(p.dateOf, {}), rows);
      assert history + [] == history;
      NoProgress(nm, p, Now());
      for i := 0 to |order|
        invariant Valid() && (old(Ordered()) ==> Ordered()) && ok && taken == i
        invariant done == Members(order[..i])
        invariant history == old(history) + Select(OnDates(p.dateOf, done), rows)
        invariant total == |Select(OnDates(p.dateOf, done), rows)|
        invariant Progress(nm, p, old(Now()), Now(), done)
      {
        var d := order[i];
        MembersNext(order, i);
        var n, appended := InsertDate(old(history), rows, done, d, batches[d], old(Now()));
        if !appended {
          ok := false;
          return;
        }
        total := total + n;
        done := done + {d};
        taken := i + 1;
      }
    }

    /** One more date of the batch. */
    method InsertDate(ghost base: seq<Row>, ghost rows: seq<Row>, ghost done: set<string>, d: string, batch: seq<Row>,
                      ghost start: Shelf)
      returns (n: nat, ok: bool)
      requires Valid() && nm.isDate(d) && d !in done && batch != [] && batch == Select(OnDate(p.dateOf, d), rows)
      requires history == base + Select(OnDates(p.dateOf, done), rows) && Progress(nm, p, start, Now(), done)
      modifies this
      ensures Valid() && (old(Ordered()) ==> Ordered())
      ensures ok ==> history == base + Select(OnDates(p.dateOf, done + {d}), rows)
      ensures ok ==> |Select(OnDates(p.dateOf, done + {d}), rows)| == |Select(OnDates(p.dateOf, done), rows)| + n
      ensures !ok ==> history == old(history) && NoSlotLeft(d)
      ensures Progress(nm, p, start, Now(), if ok then done + {d} else done)
    {
      NextDateExtends(p, base, rows, done, d);
      AcceptedCount(p.dateOf, rows, done, d);
      n, ok := AppendOne(d, batch, base + Select(OnDates(p.dateOf, done + {d}), rows));
      if ok {
        ProgressJoins(nm, p, start, old(Now()), Now(), done, d);
      } else {
        NothingJoins(nm, p, start, old(Now()), Now(), done);
      }
    }

    // ---- Reading.

    /** Every *.jsonl name, ascending. */
    method ListFiles() returns (names: seq<string>)
      ensures Distinct(names) && (forall k :: k in names <==> k in disk) && Sorted(LexOrder(), names)
    {
      var todo := disk.Keys;
      var found := [];
      while todo != {}
        invariant todo <= disk.Keys && Distinct(found)
        invariant forall k :: k in found <==> k in disk.Keys - todo
        decreases todo
      {
        var k :| k in todo;
        assert k !in found;
        found := found + [k];
        todo := todo - {k};
      }
      names := StableSort(LexOrder(), found);
      LexOrderIsStrictWeak();
      SortIsSorted(LexOrder(), found);
      PermutedKeys(found, names);
    }

    /** The files a read visits: the given ones, or all, by (date, seq). */
    method ResolveDays(days: seq<string>) returns (keys: seq<string>)
      requires StrictWeakOrder(nm.less)
      ensures days != [] ==> keys == StableSort(nm.less, days)
      ensures days == [] ==> Enumerates(nm, keys, disk)
    {
      var names := days;
      if days == [] {
        names := ListFiles();
      }
      keys := StableSort(nm.less, names);
      if days == [] {
        SortIsSorted(nm.less, names);
        PermutedKeys(names, keys);
      }
    }

    /** Matching rows, newest first: one page of the best rows, and the exact number of matches. */
    method QueryAcross(f: QueryFilter, days: seq<string>) returns (out: seq<Row>, total: nat, ghost keys: seq<string>)
      requires StrictWeakOrder(nm.less)
      ensures days != [] ==> keys == StableSort(nm.less, days)
      ensures days == [] ==> Enumerates(nm, keys, disk)
      ensures IsPage(f, NewestFirst(Select(Passing(f), ScanOf(disk, keys))), out)
      ensures total == |Select(Passing(f), ScanOf(disk, keys))|
      ensures days == [] && Lawful(nm) && Ordered() ==>
        var all := NewestFirst(Select(Passing(f), history));
        var o, l := if f.offset < 0 then 0 else f.offset, if f.limit <= 0 then 50 else f.limit;
        var most := if o + l <= 20000 then o + l else 20000;
        var kept := if most <= |all| then most else |all|;
        && |out| == (if o > kept then 0 else if l <= kept - o then l else kept - o)
        && (forall i :: 0 <= i < |out| ==> out[i] == all[o + i])
        && total == |Select(Passing(f), history)|
    {
      var files := ResolveDays(days);
      keys := files;
      out, total := PageAcross(f, disk, files);
      if days == [] && Lawful(nm) && Ordered() {
        SameListing(nm, p, disk, count, history, keys, Passing(f));
      }
    }

    /** The rollup of a file as stored, or rebuilt from its rows, and then stored, when that is missing. */
    method MetaFor(key: string) returns (m: Meta)
      modifies this`metas
      ensures m == Answer(old(View(key)))
      ensures if key in old(metas) && old(metas)[key].totals.rows != 0 then m == old(metas)[key] && metas == old(metas)
        else m == RollupOf(RowsIn(disk, key)) && metas == old(metas)[key := m]
      ensures forall k :: View(k) == ReadOrNot(p, old(View(k)), k == key)
    {
      var loaded := LoadMeta(key);
      if loaded.Some? {
        return loaded.value;
      }
      m := RebuildMeta(RowsIn(disk, key));
      metas := metas[key := m];
    }

    /** Totals from the rollups: those of a full scan if the visited files answer exactly; those of one file are
        what it answers. */
    method LogStats(days: seq<string>) returns (out: Totals, ghost keys: seq<string>)
      requires Valid() && StrictWeakOrder(nm.less)
      modifies this`metas
      ensures Valid() && (days != [] ==> keys == StableSort(nm.less, days))
        && (days == [] ==> Enumerates(nm, keys, disk))
      ensures ReadFrom(p, old(Now()), Now(), keys)
      ensures AnswersExact(old(Now()), keys) ==> Adds(out, ScanOf(disk, keys))
      ensures AnswersExact(old(Now()), keys) && days == [] && Ordered() ==> Adds(out, history)
      ensures |keys| == 1 ==> out == Answer(ViewOf(old(Now()), keys[0])).totals
      ensures old(Trusted()) ==> Trusted() && AnswersExact(old(Now()), keys)
    {
      var files := ResolveDays(days);
      keys := files;
      out := ReadTotals(files);
      if days == [] && Ordered() {
        ScanTotals(nm, p, disk, count, history, keys);
        SumsAgree(ScanOf(disk, keys), history);
      }
    }

    method ReadTotals(keys: seq<string>) returns (out: Totals)
      modifies this`metas
      ensures ReadFrom(p, old(Now()), Now(), keys)
      ensures AnswersExact(old(Now()), keys) ==> Adds(out, ScanOf(disk, keys))
      ensures |keys| == 1 ==> out == Answer(ViewOf(old(Now()), keys[0])).totals
      ensures old(Trusted()) ==> Trusted() && AnswersExact(old(Now()), keys)
    {
      TrustedExact(nm, p, Now(), keys);
      out := AddRollups(keys);
      SumAdds(ScanOf(disk, keys));
      ReadsTrusted(nm, p, old(Now()), Now(), keys);
    }

    /** The next file's statistics; a file read before answers the same again. */
    method ReadNext(ghost start: Shelf, keys: seq<string>, i: nat) returns (m: Meta)
      requires i < |keys| && ReadFrom(p, start, Now(), keys[..i])
      modifies this`metas
      ensures ReadFrom(p, start, Now(), keys[..i + 1]) && m == Answer(ViewOf(start, keys[i]))
    {
      ReadTwice(p, ViewOf(start, keys[i]));
      assert View(keys[i]) == ViewOf(Now(), keys[i]);
      ghost var before := Now();
      m := MetaFor(keys[i]);
      assert keys[..i + 1] == keys[..i] + [keys[i]];
      forall k ensures ViewOf(Now(), k) == ReadOrNot(p, ViewOf(start, k), k in keys[..i + 1]) {
        assert ViewOf(Now(), k) == View(k);
        assert ViewOf(before, k) == ReadOrNot(p, ViewOf(start, k), k in keys[..i]);
      }
    }

    /** Adds up the totals in the rollups of the listed files. */
    method AddRollups(keys: seq<string>) returns (out: Totals)
      modifies this`metas
      ensures ReadFrom(p, old(Now()), Now(), keys)
      ensures AnswersExact(old(Now()), keys) ==> out == Sum(ScanOf(disk, keys))
      ensures |keys| == 1 ==> out == Answer(ViewOf(old(Now()), keys[0])).totals
    {
      out := ZERO;
      ghost var start := Now();
      for i := 0 to |keys|
        invariant ReadFrom(p, start, Now(), keys[..i])
        invariant AnswersExact(start, keys) ==> out == Sum(ScanOf(disk, keys[..i]))
        invariant (i == 0 ==> out == ZERO) && (i == 1 ==> out == Answer(ViewOf(start, keys[0])).totals)
      {
        var m := ReadNext(start, keys, i);
        if AnswersExact(start, keys) {
          NextTotals(start, keys, i, m, out);
        }
        PlusZero(m.totals);
        out := Plus(out, m.totals);
      }
      assert keys[..|keys|] == keys;
    }

    /** Merges the rollups of the listed files. */
    method MergeRollups(field: string, keys: seq<string>) returns (groups: Groups)
      requires ValidField(field)
      modifies this`metas
      ensures ReadFrom(p, old(Now()), Now(), keys)
      ensures AnswersExact(old(Now()), keys) ==> groups == GroupBy(field, ScanOf(disk, keys))
    {
      groups := map[];
      ghost var start := Now();
      for i := 0 to |keys|
        invariant ReadFrom(p, start, Now(), keys[..i])
        invariant AnswersExact(start, keys) ==> groups == GroupBy(field, ScanOf(disk, keys[..i]))
      {
        var m := ReadNext(start, keys, i);
        if AnswersExact(start, keys) {
          NextGroups(start, keys, i, m, field, groups);
        }
        groups := MergeField(groups, FieldMap(m, field));
      }
      assert keys[..|keys|] == keys;
    }

    /** The largest groups of the matching rows; an empty filter is answered from the rollups. */
    method TopByField(f: QueryFilter, field: string, limit: int, days: seq<string>)
      returns (out: Option<seq<NamedMetric>>, ghost keys: seq<string>)
      requires Valid() && StrictWeakOrder(nm.less)
      modifies this`metas
      ensures Valid() && (out.None? <==> !ValidField(field))
      ensures (days != [] ==> keys == StableSort(nm.less, days)) && (days == [] ==> Enumerates(nm, keys, disk))
      ensures out.Some? && (FilterIsEmpty(f) ==> AnswersExact(old(Now()), keys)) ==>
        TopGroups(out.value, field, Select(Passing(f), ScanOf(disk, keys)), limit)
      ensures out.Some? && (FilterIsEmpty(f) ==> AnswersExact(old(Now()), keys)) && days == [] && Ordered() ==>
        TopGroups(out.value, field, Select(Passing(f), history), limit)
      ensures old(Trusted()) ==> Trusted() && AnswersExact(old(Now()), keys)
    {
      var files := ResolveDays(days);
      keys := files;
      TrustedExact(nm, p, Now(), keys);
      if !ValidField(field) {
        return None, keys;
      }
      if days == [] && Ordered() {
        ScanGroups(nm, p, disk, count, history, keys, Passing(f), field);
      }
      var top := TopGroupsOf(f, field, limit, files);
      out := Some(top);
    }

    method TopGroupsOf(f: QueryFilter, field: string, limit: int, keys: seq<string>) returns (top: seq<NamedMetric>)
      requires ValidField(field)
      modifies this`metas
      ensures (FilterIsEmpty(f) ==> AnswersExact(old(Now()), keys)) ==>
        TopGroups(top, field, Select(Passing(f), ScanOf(disk, keys)), limit)
      ensures GroupBy(field, Select(Passing(f), ScanOf(disk, keys))) == GroupBy(field, Select(Passing(f), history)) ==>
        (FilterIsEmpty(f) ==> AnswersExact(old(Now()), keys)) ==>
        TopGroups(top, field, Select(Passing(f), history), limit)
      ensures old(Trusted()) ==> Trusted()
    {
      var groups := GroupsOf(f, field, keys);
      top := RankedRows(groups, field, limit, Select(Passing(f), ScanOf(disk, keys)), Select(Passing(f), history));
    }

    method GroupsOf(f: QueryFilter, field: string, keys: seq<string>) returns (groups: Groups)
      requires ValidField(field)
      modifies this`metas
      ensures (FilterIsEmpty(f) ==> AnswersExact(old(Now()), keys)) ==>
        groups == GroupBy(field, Select(Passing(f), ScanOf(disk, keys)))
      ensures old(Trusted()) ==> Trusted()
    {
      if FilterIsEmpty(f) {
        groups := MergeRollups(field, keys);
        ReadsTrusted(nm, p, old(Now()), Now(), keys);
        EmptyFilterSelectsAll(f, ScanOf(disk, keys));
      } else {
        groups := GroupScan(Passing(f), field, disk, keys);
      }
    }

    /** Matching rows per time bucket, ascending: every bucket holds the totals of exactly its rows. */
    method TimeSeries(f: QueryFilter, bucketSec: int, days: seq<string>)
      returns (out: seq<SeriesBucket>, ghost keys: seq<string>)
      requires Lawful(nm) && StrictWeakOrder(nm.less)
      ensures (days != [] ==> keys == StableSort(nm.less, days)) && (days == [] ==> Enumerates(nm, keys, disk))
      ensures forall i, j :: 0 <= i < j < |out| ==> out[i].bucket < out[j].bucket
      ensures Charts(out, if bucketSec <= 0 then 3600 else bucketSec, Select(Passing(f), ScanOf(disk, keys)))
      ensures days == [] && Ordered() ==>
        Charts(out, if bucketSec <= 0 then 3600 else bucketSec, Select(Passing(f), history))
      ensures FilterIsEmpty(f) ==> Select(Passing(f), history) == history
    {
      var files := ResolveDays(days);
      keys := files;
      var w := if bucketSec <= 0 then 3600 else bucketSec;
      out := SeriesScan(Passing(f), Bucketing(w), disk, files);
      SeriesCharts(out, w, Select(Passing(f), ScanOf(disk, keys)));
      if days == [] && Ordered() {
        ChartsHistory(nm, p, disk, count, history, keys, Passing(f), out, w);
      }
      if FilterIsEmpty(f) {
        EmptyFilterSelectsAll(f, history);
      }
    }

    // ---- Deleting.

    /** Removes the named files and their rollups.  The directory stays in order exactly when no date keeps a
        file behind a removed one; it then holds, of every date, the rows of its first files.  Deleting whole
        dates, as retention does, leaves exactly the history of the remaining dates. */
    method DeleteFiles(days: seq<string>)
      requires Valid()
      modifies this
      ensures Valid() && disk == old(disk) - Named(days) && metas == old(metas) - Named(days)
      ensures old(Ordered()) ==> (Ordered() <==> CutsBehind(nm, old(count), Named(days)))
      ensures old(Ordered()) ==> history == HistoryLeft(nm, p, old(disk), old(count), Named(days), old(history))
      ensures WholeDates(nm, old(disk), Named(days)) ==>
        history == Select(NotOnDates(p.dateOf, DatesNamed(nm, old(disk), Named(days))), old(history))
      ensures forall k :: ViewOf(Now(), k) == DeletedOrNot(p, ViewOf(old(Now()), k), k in days)
      ensures old(Trusted()) ==> Trusted()
    {
      RemovedFiles(nm, p, Now(), days);
      history, count := WhatIsLeft(nm, p, disk, count, history, Named(days));
      RemoveAll(days);
    }

    method RemoveAll(days: seq<string>)
      requires Valid()
      modifies this`disk, this`metas, this`files, this`current
      ensures Valid() && Now() == Without(old(Now()), Named(days))
    {
      for i := 0 to |days|
        invariant Valid() && Now() == Without(old(Now()), Named(days[..i]))
      {
        RemovedNext(old(Now()), days, i);
        RemoveFile(days[i]);
      }
      assert days[..|days|] == days;
    }

    method RemoveFile(key: string)
      requires Valid()
      modifies this`disk, this`metas, this`files, this`current
      ensures Valid() && Now() == Without(old(Now()), {key})
    {
      CloseKey(key);
      disk := disk - {key};
      metas := metas - {key};
    }

    method CloseKey(key: string)
      requires Valid()
      modifies this`files, this`current
      ensures Valid() && files == old(files) - {key}
      ensures var active := nm.date(key) in old(current) && old(current)[nm.date(key)] == key;
        current == if active then old(current) - {nm.date(key)} else old(current)
    {
      files := files - {key};
      if nm.date(key) in current && current[nm.date(key)] == key {
        current := current - {nm.date(key)};
      }
    }

    // ---- The first slots of a date.

    /** The first missing slot comes right behind the files of the date, which are all full. */
    lemma NextSlot(date: string, n: nat)
      requires Lawful(nm) && nm.isDate(date) && n <= MAX_SEQ && nm.key(date, n) !in disk && Ordered()
      requires forall m: nat :: m < n ==> Full(p, disk, nm.key(date, m))
      ensures n == CountOf(count, date) && InOrder(nm, p, disk[nm.key(date, n) := []], count[date := n + 1], history)
    {
      FirstMissing(date, n);
      CreatesNext(nm, p, disk, count, history, date);
    }

    /** Only a date's last file has room. */
    lemma RoomIsLast(date: string, key: string)
      requires Lawful(nm) && key in disk && nm.date(key) == date && !Full(p, disk, key)
      ensures Ordered() ==> IsLast(date, key)
    {
      if Ordered() {
        assert KnownKey(nm, count, key);
      }
    }

    lemma FirstMissing(date: string, n: nat)
      requires Lawful(nm) && Ordered() && nm.isDate(date) && n <= MAX_SEQ && nm.key(date, n) !in disk
      requires forall m: nat :: m < n ==> Full(p, disk, nm.key(date, m))
      ensures n == CountOf(count, date)
    {
      if n > 0 {
        assert Full(p, disk, nm.key(date, n - 1));
        assert KnownKey(nm, count, nm.key(date, n - 1));
      }
    }
  }

  // ---- A directory that lost a rollup.

  lemma OneFileInOrder(nm: Naming, p: Platform, date: string, rows: seq<Row>)
    requires Lawful(nm) && nm.isDate(date) && forall e :: e in rows ==> p.dateOf(e.created) == date
    ensures InOrder(nm, p, map[nm.key(date, 0) := rows], map[date := 1], rows)
  {
    var key := nm.key(date, 0);
    var disk := map[key := rows];
    forall d ensures HoldsOn(nm, p, disk, map[date := 1], rows, d) {
      if d == date {
        SelectAll(OnDate(p.dateOf, d), rows);
        ScanSnoc(disk, [], key);
        assert DayKeysUpTo(nm, d, 1) == [] + [key];
      } else {
        SelectNone(OnDate(p.dateOf, d), rows);
      }
    }
  }

  /** The first file of the only date holds the beginning of the history, and all of it unless it is full. */
  lemma FirstFile(nm: Naming, p: Platform, disk: Disk, count: map<string, nat>, history: seq<Row>, date: string)
    requires Lawful(nm) && InOrder(nm, p, disk, count, history) && nm.isDate(date) && history != []
    requires forall e :: e in history ==> p.dateOf(e.created) == date
    ensures var first := RowsIn(disk, nm.key(date, 0));
      first <= history && (first == history || Full(p, disk, nm.key(date, 0)))
  {
    var key := nm.key(date, 0);
    SelectAll(OnDate(p.dateOf, date), history);
    assert HoldsOn(nm, p, disk, count, history, date);
    ScanSnoc(disk, [], key);
    assert DayKeysUpTo(nm, date, 1) == [] + [key];
    ScanPrefix(nm, disk, date, 1, CountOf(count, date));
  }

  lemma GrewByOne(p: Platform, before: FileState, after: FileState, r: Row)
    requires Stepped(p, before, after) && after.rows <= before.rows + [r] && after.rows != before.rows
    ensures after == Appended(before, [r])
  {
    var batch :| after == Next(p, before, Append(batch));
    assert after.rows == before.rows + batch;
    assert |batch| == 1 && batch[0] == after.rows[|before.rows|];
    assert batch == [r];
  }

  /** A file with room has room as long as nothing is written. */
  lemma StillHasRoom(nm: Naming, p: Platform, a: Shelf, b: Shelf, date: string, taken: nat)
    requires taken <= 1 && Progress(nm, p, a, b, Members([date][..taken]))
    requires SizeOf(p, RowsIn(a.disk, date)) < p.maxFileBytes
    ensures taken == 0 ==> !Full(p, b.disk, date)
  {
    assert Moved(nm, p, a, b, Members([date][..taken]), date);
  }

  lemma WroteOne(nm: Naming, p: Platform, a: Shelf, b: Shelf, date: string, taken: nat, history: seq<Row>, r: Row)
    requires taken <= 1 && Progress(nm, p, a, b, Members([date][..taken]))
    requires RowsIn(a.disk, date) == history && SizeOf(p, history) < p.maxFileBytes
    requires RowsIn(b.disk, date) <= history + [r]
    requires RowsIn(b.disk, date) == history + [r] || Full(p, b.disk, date)
    ensures ViewOf(b, date) == Appended(ViewOf(a, date), [r])
  {
    assert Moved(nm, p, a, b, Members([date][..taken]), date);
    GrewByOne(p, ViewOf(a, date), ViewOf(b, date), r);
  }

  lemma OneRow(dateOf: int -> string, r: Row, now: int)
    requires r.created != ZERO_TIME
    ensures Stamped([r], [now]) == [r] && DatesOf(dateOf, [r]) == [dateOf(r.created)]
  {
    assert [r][..0] == [];
  }

  /** One more entry for a directory with one file that has room. */
  method InsertOne(d: JsonlDriver, date: string, r: Row)
    requires d.Valid() && d.Ordered() && d.nm == FileNames()
    requires IsDate(date) && d.p.dateOf(r.created) == date && r.created != ZERO_TIME
    requires d.history != [] && forall e :: e in d.history ==> d.p.dateOf(e.created) == date
    requires RowsIn(d.disk, date) == d.history && SizeOf(d.p, d.history) < d.p.maxFileBytes
    modifies d
    ensures d.Valid() && d.Ordered() && d.history == old(d.history) + [r]
    ensures ViewOf(d.Now(), date) == Appended(ViewOf(old(d.Now()), date), [r])
  {
    ghost var start := d.Now();
    OneRow(d.p.dateOf, r, 0);
    var n, ok;
    ghost var taken;
    n, ok, taken := d.BatchInsert([r], [0]);
    StillHasRoom(d.nm, d.p, start, d.Now(), date, taken);
    assert taken == 0 ==> !Full(d.p, d.disk, d.nm.key(date, 0));
    assert ok;
    FirstFile(d.nm, d.p, d.disk, d.count, d.history, date);
    WroteOne(d.nm, d.p, start, d.Now(), date, taken, old(d.history), r);
  }

  /** Opened without a rollup, the file is read right once; what the read stores is not kept up to date. */
  lemma StoredGoesStale(rows: seq<Row>, r: Row, s: FileState, t: FileState)
    requires rows != [] && s == Appended(FileState(rows, None, None), [r])
    requires t == Appended(s.(stored := Some(Answer(s))), [r])
    ensures Answer(s).totals == Sum(rows + [r])
    ensures Answer(t).totals == Sum(rows + [r]) != Sum(rows + [r] + [r])
  {
    RowsCounted(rows + [r]);
    RowsCounted(rows + [r] + [r]);
  }

  /** a: before the first read, b: after it, c: before the second. */
  lemma StatisticsGoStale(p: Platform, date: string, rows: seq<Row>, r: Row, a: Shelf, b: Shelf, c: Shelf)
    requires rows != [] && ViewOf(a, date) == Appended(FileState(rows, None, None), [r])
    requires ReadFrom(p, a, b, [date]) && ViewOf(c, date) == Appended(ViewOf(b, date), [r])
    ensures Answer(ViewOf(a, date)).totals == Sum(rows + [r])
    ensures Answer(ViewOf(c, date)).totals != Sum(rows + [r] + [r])
  {
    assert ViewOf(b, date) == ReadOrNot(p, ViewOf(a, date), date in [date]);
    StoredGoesStale(rows, r, ViewOf(a, date), ViewOf(c, date));
  }

  /** A day file without its rollup: an insert, a read and another insert later, the statistics are wrong. */
  method StaleStatistics(p: Platform, date: string, rows: seq<Row>, r: Row) returns (first: Totals, second: Totals)
    requires rows != [] && IsDate(date) && forall e :: e in rows + [r] ==> p.dateOf(e.created) == date
    requires r.created != ZERO_TIME && SizeOf(p, rows + [r]) < p.maxFileBytes
    ensures first == Sum(rows + [r])
    ensures second != Sum(rows + [r] + [r])
  {
    var d := OpenedWithout(p, date, rows);
    SizeGrows(p, rows, [r]);
    assert r in rows + [r];
    InsertOne(d, date, r);
    ghost var a := d.Now();
    first := StatsOfOne(d, date);
    ghost var b := d.Now();
    InsertOne(d, date, r);
    StatisticsGoStale(p, date, rows, r, a, b, d.Now());
    second := StatsOfOne(d, date);
  }

  method StatsOfOne(d: JsonlDriver, key: string) returns (out: Totals)
    requires d.Valid() && StrictWeakOrder(d.nm.less)
    modifies d`metas
    ensures d.Valid() && (old(d.Ordered()) ==> d.Ordered())
    ensures out == Answer(ViewOf(old(d.Now()), key)).totals && ReadFrom(d.p, old(d.Now()), d.Now(), [key])
  {
    ghost var keys;
    out, keys := d.LogStats([key]);
  }

  /** A driver on a directory that holds one file and no rollup. */
  method OpenedWithout(p: Platform, date: string, rows: seq<Row>) returns (d: JsonlDriver)
    requires IsDate(date) && forall e :: e in rows ==> p.dateOf(e.created) == date
    ensures fresh(d) && d.Valid() && d.Ordered() && d.p == p && d.nm == FileNames() && d.history == rows
    ensures StrictWeakOrder(d.nm.less) && ViewOf(d.Now(), date) == FileState(rows, None, None)
  {
    FileNamesLawful();
    OneFileInOrder(FileNames(), p, date, rows);
    d := new JsonlDriver.Open(p, map[date := rows], map[], map[date := 1], rows);
  }

  /** History and numbering once some files are removed. */
  lemma WhatIsLeft(nm: Naming, p: Platform, disk: Disk, count: map<string, nat>, history: seq<Row>, named: set<string>)
    returns (left: seq<Row>, numbered: map<string, nat>)
    requires Lawful(nm)
    ensures InOrder(nm, p, disk, count, history) ==> left == HistoryLeft(nm, p, disk, count, named, history)
    ensures InOrder(nm, p, disk, count, history) ==>
      (InOrder(nm, p, disk - named, numbered, left) <==> CutsBehind(nm, count, named))
    ensures WholeDates(nm, disk, named) ==> left == Select(NotOnDates(p.dateOf, DatesNamed(nm, disk, named)), history)
  {
    if InOrder(nm, p, disk, count, history) {
      DeleteOrderedIff(nm, p, disk, count, history, named);
      WholeDatesLeft(nm, p, disk, count, history, named);
      left, numbered := HistoryLeft(nm, p, disk, count, named, history), CountLeft(nm, count, named);
    } else {
      left, numbered := Select(NotOnDates(p.dateOf, DatesNamed(nm, disk, named)), history), count;
    }
  }

  /** The file exists afterwards, empty if it did not before. */
  function Grown(disk: Disk, key: string): Disk {
    if key in disk then disk else disk[key := []]
  }

  lemma Extended(before: Disk, key: string, entries: seq<Row>)
    ensures var grown := Grown(before, key);
            key in grown && grown[key := grown[key] + entries] == before[key := RowsIn(before, key) + entries]
  {
  }

  lemma SizeNext(p: Platform, rows: seq<Row>, entries: seq<Row>, n: nat)
    requires n < |entries|
    ensures SizeOf(p, rows + entries[..n + 1]) == SizeOf(p, rows + entries[..n]) + p.lineLen(entries[n]) + 1
  {
    assert rows + entries[..n + 1] == (rows + entries[..n]) + [entries[n]];
    SizeConcat(p, rows + entries[..n], [entries[n]]);
    SizeOne(p, entries[n]);
  }

  lemma SizeOne(p: Platform, r: Row)
    ensures SizeOf(p, [r]) == p.lineLen(r) + 1
  {
    assert [r][..0] == [];
  }

  lemma SizeZero(p: Platform, rows: seq<Row>)
    ensures SizeOf(p, rows) == 0 <==> rows == []
  {
  }
}
