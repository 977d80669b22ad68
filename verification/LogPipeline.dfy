/** The front end and the driver together: what was enqueued is what queries list. */
module LogPipeline {
  import opened LogRows
  import opened Selections
  import opened Sorting
  import opened QueryOrder
  import opened JsonlFiles
  import opened JsonlStore
  import opened LogManager

  /** The same entry, with a creation time filled in if it had none. */
  predicate SameEntry(entry: Row, row: Row) {
    row == entry || (entry.created == ZERO_TIME && row == entry.(created := row.created))
  }

  ghost predicate SameEntries(entries: seq<Row>, rows: seq<Row>) {
    |entries| == |rows| && forall i :: 0 <= i < |rows| ==> SameEntry(entries[i], rows[i])
  }

  lemma StampedSame(entries: seq<Row>, clock: seq<int>)
    requires |entries| == |clock|
    ensures SameEntries(entries, Stamped(entries, clock))
  {
  }

  /** The entries of every batch get a creation time that the driver can file under a date. */
  ghost predicate Datable(d: JsonlDriver, batches: seq<seq<Row>>, clocks: seq<seq<int>>) {
    |batches| == |clocks| && forall i :: 0 <= i < |batches| ==> DatableBatch(d, batches[i], clocks[i])
  }

  ghost predicate DatableBatch(d: JsonlDriver, batch: seq<Row>, clock: seq<int>) {
    |batch| == |clock| && forall e :: e in Stamped(batch, clock) ==> d.nm.isDate(d.p.dateOf(e.created))
  }

  /** What a batch has added to the history: the entries of its first dates; where some are missing, the next
      date has no slot below the cap left. */
  ghost predicate PartOf(nm: Naming, p: Platform, disk: Disk, batch: seq<Row>, clock: seq<int>, part: seq<Row>) {
    |batch| == |clock| && exists taken :: PartUpTo(nm, p, disk, Stamped(batch, clock), part, taken)
  }

  ghost predicate PartUpTo(nm: Naming, p: Platform, disk: Disk, rows: seq<Row>, part: seq<Row>, taken: nat) {
    var dates := DatesOf(p.dateOf, rows);
    && taken <= |dates| && part == OfFirst(p.dateOf, rows, taken)
    && (part == rows || (taken < |dates| && SlotsFull(nm, p, disk, dates[taken])))
  }

  /** Where a date has no slot left, it has none later. */
  lemma PartStays(nm: Naming, p: Platform, a: Disk, b: Disk, batch: seq<Row>, clock: seq<int>, part: seq<Row>)
    requires StillFull(p, a, b) && PartOf(nm, p, a, batch, clock, part)
    ensures PartOf(nm, p, b, batch, clock, part)
  {
    var taken :| PartUpTo(nm, p, a, Stamped(batch, clock), part, taken);
    assert PartUpTo(nm, p, b, Stamped(batch, clock), part, taken);
  }

  /** The parts of the first batches. */
  ghost predicate PartsOf(nm: Naming, p: Platform, disk: Disk, batches: seq<seq<Row>>, clocks: seq<seq<int>>,
                          parts: seq<seq<Row>>)
    requires |batches| == |clocks|
  {
    |parts| <= |batches| && forall i :: 0 <= i < |parts| ==> PartOf(nm, p, disk, batches[i], clocks[i], parts[i])
  }

  lemma OneMorePart(nm: Naming, p: Platform, a: Disk, b: Disk, batches: seq<seq<Row>>, clocks: seq<seq<int>>,
                    parts: seq<seq<Row>>, part: seq<Row>)
    requires |parts| < |batches| == |clocks| && PartsOf(nm, p, a, batches, clocks, parts) && StillFull(p, a, b)
    requires PartOf(nm, p, b, batches[|parts|], clocks[|parts|], part)
    ensures PartsOf(nm, p, b, batches, clocks, parts + [part])
  {
    forall i | 0 <= i < |parts| ensures PartOf(nm, p, b, batches[i], clocks[i], parts[i]) {
      PartStays(nm, p, a, b, batches[i], clocks[i], parts[i]);
    }
  }

  /** One batch; an error is logged and otherwise ignored. */
  method Flush(d: JsonlDriver, batch: seq<Row>, clock: seq<int>) returns (ok: bool, ghost part: seq<Row>)
    requires d.Valid() && d.Ordered() && DatableBatch(d, batch, clock)
    modifies d
    ensures d.Valid() && d.Ordered() && StillFull(d.p, old(d.disk), d.disk)
    ensures d.history == old(d.history) + part && PartOf(d.nm, d.p, d.disk, batch, clock, part)
    ensures ok ==> SameEntries(batch, part)
  {
    var n;
    ghost var taken;
    ghost var start := d.Now();
    n, ok, taken := d.BatchInsert(batch, clock);
    part := OfFirst(d.p.dateOf, Stamped(batch, clock), taken);
    assert PartUpTo(d.nm, d.p, d.disk, Stamped(batch, clock), part, taken);
    FullStays(d.nm, d.p, start, d.Now(), Members(DatesOf(d.p.dateOf, Stamped(batch, clock))[..taken]));
    StampedSame(batch, clock);
  }

  /** The driver receives the batches one after the other, whether or not earlier ones went wrong: what it
      holds then are the parts written of all of them, one after the other. */
  method Deliver(d: JsonlDriver, batches: seq<seq<Row>>, clocks: seq<seq<int>>)
    returns (ok: bool, ghost parts: seq<seq<Row>>)
    requires d.Valid() && d.Ordered() && Datable(d, batches, clocks)
    modifies d
    ensures d.Valid() && d.Ordered()
    ensures |parts| == |batches| && d.history == old(d.history) + Flat(parts)
    ensures PartsOf(d.nm, d.p, d.disk, batches, clocks, parts)
    ensures ok ==> SameEntries(Flat(batches), Flat(parts))
  {
    ok, parts := true, [];
    ghost var before := d.history;
    assert before + [] == before;
    for i := 0 to |batches|
      invariant d.Valid() && d.Ordered() && |parts| == i
      invariant d.history == old(d.history) + Flat(parts)
      invariant PartsOf(d.nm, d.p, d.disk, batches, clocks, parts)
      invariant ok ==> SameEntries(Flat(batches[..i]), Flat(parts))
    {
      var done;
      done, parts := DeliverNext(d, batches, clocks, i, before, parts);
      ok := ok && done;
    }
    assert batches[..|batches|] == batches;
  }

  /** The next batch, behind the parts of the earlier ones. */
  method DeliverNext(d: JsonlDriver, batches: seq<seq<Row>>, clocks: seq<seq<int>>, i: nat, ghost before: seq<Row>,
                     ghost parts0: seq<seq<Row>>)
    returns (ok: bool, ghost parts: seq<seq<Row>>)
    requires d.Valid() && d.Ordered() && Datable(d, batches, clocks) && |parts0| == i < |batches|
    requires d.history == before + Flat(parts0) && PartsOf(d.nm, d.p, d.disk, batches, clocks, parts0)
    modifies d
    ensures d.Valid() && d.Ordered() && |parts| == i + 1
    ensures d.history == before + Flat(parts) && PartsOf(d.nm, d.p, d.disk, batches, clocks, parts)
    ensures ok && SameEntries(Flat(batches[..i]), Flat(parts0)) ==> SameEntries(Flat(batches[..i + 1]), Flat(parts))
  {
    assert DatableBatch(d, batches[i], clocks[i]);
    ghost var disk, part := d.disk, [];
    ok, part := Flush(d, batches[i], clocks[i]);
    OneMorePart(d.nm, d.p, disk, d.disk, batches, clocks, parts0, part);
    Grown(before, batches, parts0, part, i);
    parts := parts0 + [part];
  }

  lemma Grown(history: seq<Row>, batches: seq<seq<Row>>, parts: seq<seq<Row>>, part: seq<Row>, i: nat)
    requires i < |batches|
    ensures (history + Flat(parts)) + part == history + Flat(parts + [part])
    ensures SameEntries(Flat(batches[..i]), Flat(parts)) && SameEntries(batches[i], part) ==>
      SameEntries(Flat(batches[..i + 1]), Flat(parts + [part]))
  {
    assert batches[..i + 1] == batches[..i] + [batches[i]];
    FlatSnoc(batches[..i], batches[i]);
    FlatSnoc(parts, part);
    Reassociate(history, Flat(parts), part);
    if SameEntries(Flat(batches[..i]), Flat(parts)) && SameEntries(batches[i], part) {
      JoinSame(Flat(batches[..i]), Flat(parts), batches[i], part);
    }
  }

  lemma JoinSame(a: seq<Row>, r: seq<Row>, b: seq<Row>, s: seq<Row>)
    requires SameEntries(a, r) && SameEntries(b, s)
    ensures SameEntries(a + b, r + s)
  {
  }

  /** Any run of the front end, its batches delivered to an empty store: a query lists the page of the newest
      entries written so far.  If every batch went through, these are the first accepted entries, in order,
      including all that were enqueued before a flush that has returned; otherwise the entries of dates that
      have no slot left are missing. */
  method QueryAfterRun(cfg: Config, ghost steps: seq<Step<Row>>, s: State<Row>, d: JsonlDriver, clocks: seq<seq<int>>,
                       f: QueryFilter)
    returns (ok: bool, out: seq<Row>, total: nat, ghost parts: seq<seq<Row>>)
    requires IsRun(cfg, Init(), steps) && s == After(cfg, Init(), steps)
    requires d.Valid() && d.Ordered() && d.history == [] && StrictWeakOrder(d.nm.less) && Datable(d, s.handed, clocks)
    modifies d
    ensures |parts| == |s.handed| && d.history == Flat(parts)
    ensures PartsOf(d.nm, d.p, d.disk, s.handed, clocks, parts)
    ensures s.accepted == Admitted(cfg, Init(), steps)
    ensures Overflows(cfg, Init(), steps) == 0 ==> s.accepted == Entries(steps)
    ensures ok ==> |d.history| <= |s.accepted| && SameEntries(s.accepted[..|d.history|], d.history)
    ensures ok ==> forall id :: id in s.returned ==> id in s.asked && s.asked[id] <= |d.history|
    ensures IsPage(f, NewestFirst(Select(Passing(f), d.history)), out)
    ensures total == |Select(Passing(f), d.history)|
  {
    PipelineConserves(cfg, steps);
    ok, parts := Deliver(d, s.handed, clocks);
    assert [] + Flat(parts) == Flat(parts);
    HandedIsPrefix(s);
    out, total := QueryAll(d, f);
    AcceptedIs(cfg, Init(), steps);
    assert [] + Admitted(cfg, Init(), steps) == Admitted(cfg, Init(), steps);
    if Overflows(cfg, Init(), steps) == 0 {
      NothingDropped(cfg, Init(), steps);
    }
  }

  method QueryAll(d: JsonlDriver, f: QueryFilter) returns (out: seq<Row>, total: nat)
    requires d.Valid() && d.Ordered() && StrictWeakOrder(d.nm.less)
    ensures IsPage(f, NewestFirst(Select(Passing(f), d.history)), out)
    ensures total == |Select(Passing(f), d.history)|
  {
    ghost var keys;
    out, total, keys := d.QueryAcross(f, []);
    APage(f, NewestFirst(Select(Passing(f), d.history)), out);
  }

  lemma APage(f: QueryFilter, all: seq<Row>, out: seq<Row>)
    requires var o, l := if f.offset < 0 then 0 else f.offset, if f.limit <= 0 then 50 else f.limit;
      var most := if o + l <= 20000 then o + l else 20000;
      var kept := if most <= |all| then most else |all|;
      && |out| == (if o > kept then 0 else if l <= kept - o then l else kept - o)
      && (forall i :: 0 <= i < |out| ==> out[i] == all[o + i])
    ensures IsPage(f, all, out)
  {
  }

  lemma HandedIsPrefix(s: State<Row>)
    requires Flat(s.handed) + s.batch + s.queue == s.accepted
    ensures |Flat(s.handed)| <= |s.accepted| && Flat(s.handed) == s.accepted[..|Flat(s.handed)|]
  {
  }
}
