/** The log directory: day files that roll over at a size cap, and what it means for them to
    hold an append-only history. */
module JsonlFiles {
  import opened LogRows
  import opened Selections
  import opened Sorting
  import opened QueryOrder

  /** What the driver takes from its surroundings: the UTC date of a second as Go formats it,
      the length of a row's JSON line, and the rollover threshold. */
  datatype Platform = Platform(dateOf: int -> string, lineLen: Row -> nat, maxFileBytes: int)

  /** How files are named: the key of a (date, seq) pair, its two parts, which dates are dates,
      and the order in which a scan visits keys. */
  datatype Naming = Naming(
    key: (string, nat) -> string, date: string -> string, num: string -> int,
    isDate: string -> bool, less: (string, string) -> bool)

  /** The parts of a key give back the pair, and keys of one date are visited by number. */
  ghost predicate Lawful(nm: Naming) {
    && (forall d, n: nat :: nm.isDate(d) && n <= MAX_SEQ ==> nm.date(nm.key(d, n)) == d && nm.num(nm.key(d, n)) == n)
    && (forall a, b {:trigger nm.less(a, b)} :: nm.date(a) == nm.date(b) ==> (nm.less(a, b) <==> nm.num(a) < nm.num(b)))
  }

  /** The names that inserts ever write to. */
  ghost predicate Appendable(nm: Naming, key: string) {
    exists d, n: nat :: SlotOf(nm, key, d, n)
  }

  predicate SlotOf(nm: Naming, key: string, d: string, n: nat) {
    nm.isDate(d) && n <= MAX_SEQ && key == nm.key(d, n)
  }

  type Disk = map<string, seq<Row>>

  /** The largest sequence number tried before an insert fails. */
  const MAX_SEQ: nat := 9999

  function SizeOf(p: Platform, rows: seq<Row>): nat {
    if rows == [] then 0 else SizeOf(p, rows[..|rows| - 1]) + p.lineLen(rows[|rows| - 1]) + 1
  }

  lemma {:induction false} SizeConcat(p: Platform, a: seq<Row>, b: seq<Row>)
    ensures SizeOf(p, a + b) == SizeOf(p, a) + SizeOf(p, b)
  {
    if b == [] {
      assert a + b == a;
    } else {
      assert (a + b)[..|a + b| - 1] == a + b[..|b| - 1];
      SizeConcat(p, a, b[..|b| - 1]);
    }
  }

  function RowsIn(disk: Disk, key: string): seq<Row> {
    if key in disk then disk[key] else []
  }

  /** The rows of the listed files, file after file. */
  function ScanOf(disk: Disk, keys: seq<string>): seq<Row> {
    if keys == [] then [] else ScanOf(disk, keys[..|keys| - 1]) + RowsIn(disk, keys[|keys| - 1])
  }

  function CountOf(count: map<string, nat>, d: string): nat {
    if d in count then count[d] else 0
  }

  /** The files of date d with sequence numbers below n. */
  function DayKeysUpTo(nm: Naming, d: string, n: nat): seq<string> {
    if n == 0 then [] else DayKeysUpTo(nm, d, n - 1) + [nm.key(d, n - 1)]
  }

  ghost predicate Full(p: Platform, disk: Disk, key: string) {
    key in disk && SizeOf(p, disk[key]) >= p.maxFileBytes
  }

  /** Each date's files are numbered 0 .. count - 1, and all but the last have reached the cap. */
  ghost predicate Numbered(nm: Naming, p: Platform, disk: Disk, count: map<string, nat>) {
    && (forall d :: d in count ==> nm.isDate(d) && 1 <= count[d] <= MAX_SEQ + 1)
    && (forall d, n: nat :: d in count && n < count[d] ==> nm.key(d, n) in disk)
    && (forall d, n: nat :: d in count && n < count[d] - 1 ==> Full(p, disk, nm.key(d, n)))
    && (forall k :: k in disk ==> KnownKey(nm, count, k))
  }

  ghost predicate KnownKey(nm: Naming, count: map<string, nat>, k: string) {
    nm.date(k) in count && 0 <= nm.num(k) < count[nm.date(k)] && k == nm.key(nm.date(k), nm.num(k))
  }

  /** Every row lies in a file of its own date. */
  ghost predicate Routed(nm: Naming, p: Platform, disk: Disk) {
    forall k, r :: k in disk && r in disk[k] ==> p.dateOf(r.created) == nm.date(k)
  }

  /** A date's files, in sequence order, hold that date's rows of the history, in order. */
  ghost predicate Holds(nm: Naming, p: Platform, disk: Disk, count: map<string, nat>, history: seq<Row>) {
    forall d :: HoldsOn(nm, p, disk, count, history, d)
  }

  ghost predicate HoldsOn(nm: Naming, p: Platform, disk: Disk, count: map<string, nat>, history: seq<Row>, d: string) {
    Select(OnDate(p.dateOf, d), history) == ScanOf(disk, DayKeysUpTo(nm, d, CountOf(count, d)))
  }

  ghost predicate InOrder(nm: Naming, p: Platform, disk: Disk, count: map<string, nat>, history: seq<Row>) {
    Numbered(nm, p, disk, count) && Routed(nm, p, disk) && Holds(nm, p, disk, count, history)
  }

  lemma EmptyInOrder(nm: Naming, p: Platform)
    ensures InOrder(nm, p, map[], map[], [])
  {
    assert forall d :: HoldsOn(nm, p, map[], map[], [], d);
  }

  // ---- Growing the directory.

  lemma {:induction false} ScanFrame(disk: Disk, disk': Disk, keys: seq<string>)
    requires forall i :: 0 <= i < |keys| ==> RowsIn(disk', keys[i]) == RowsIn(disk, keys[i])
    ensures ScanOf(disk', keys) == ScanOf(disk, keys)
  {
    if keys != [] {
      ScanFrame(disk, disk', keys[..|keys| - 1]);
    }
  }

  lemma {:induction false} DayKeysAt(nm: Naming, d: string, n: nat)
    ensures |DayKeysUpTo(nm, d, n)| == n
    ensures forall i: nat :: i < n ==> DayKeysUpTo(nm, d, n)[i] == nm.key(d, i)
  {
    if n > 0 {
      DayKeysAt(nm, d, n - 1);
    }
  }

  /** Creating the next file of a date. */
  lemma CreatesNext(nm: Naming, p: Platform, disk: Disk, count: map<string, nat>, history: seq<Row>, d: string)
    requires Lawful(nm)
    requires InOrder(nm, p, disk, count, history) && nm.isDate(d) && CountOf(count, d) <= MAX_SEQ
    requires CountOf(count, d) > 0 ==> Full(p, disk, nm.key(d, CountOf(count, d) - 1))
    ensures var n := CountOf(count, d);
      nm.key(d, n) !in disk && InOrder(nm, p, disk[nm.key(d, n) := []], count[d := n + 1], history)
  {
    var n := CountOf(count, d);
    var key := nm.key(d, n);
    assert key !in disk by {
      assert key in disk ==> KnownKey(nm, count, key);
    }
    CreatesNumbered(nm, p, disk, count, d);
    CreatesHolds(nm, p, disk, count, history, d);
  }

  lemma CreatesHolds(nm: Naming, p: Platform, disk: Disk, count: map<string, nat>, history: seq<Row>, d: string)
    requires Holds(nm, p, disk, count, history) && nm.key(d, CountOf(count, d)) !in disk
    ensures Holds(nm, p, disk[nm.key(d, CountOf(count, d)) := []], count[d := CountOf(count, d) + 1], history)
  {
    var n := CountOf(count, d);
    var disk', count' := disk[nm.key(d, n) := []], count[d := n + 1];
    forall e ensures HoldsOn(nm, p, disk', count', history, e) {
      assert HoldsOn(nm, p, disk, count, history, e);
      var keys := DayKeysUpTo(nm, e, CountOf(count, e));
      ScanFrame(disk, disk', keys);
      if e == d {
        assert (keys + [nm.key(d, n)])[..|keys|] == keys;
        assert ScanOf(disk', keys) + [] == ScanOf(disk', keys);
      }
    }
  }

  lemma CreatesNumbered(nm: Naming, p: Platform, disk: Disk, count: map<string, nat>, d: string)
    requires Lawful(nm)
    requires Numbered(nm, p, disk, count) && nm.isDate(d) && CountOf(count, d) <= MAX_SEQ
    requires CountOf(count, d) > 0 ==> Full(p, disk, nm.key(d, CountOf(count, d) - 1))
    requires nm.key(d, CountOf(count, d)) !in disk
    ensures Numbered(nm, p, disk[nm.key(d, CountOf(count, d)) := []], count[d := CountOf(count, d) + 1])
  {
    var n := CountOf(count, d);
    var key := nm.key(d, n);
    var disk', count' := disk[key := []], count[d := n + 1];
    forall e, m: nat | e in count' && m < count'[e] ensures nm.key(e, m) in disk' {
      if !(e == d && m == n) {
        assert e in count && m < count[e];
      }
    }
    forall e, m: nat | e in count' && m < count'[e] - 1 ensures Full(p, disk', nm.key(e, m)) {
      if !(e == d && m == n - 1) {
        assert e in count && m < count[e] - 1;
      }
      assert Full(p, disk, nm.key(e, m));
    }
    forall k | k in disk' ensures KnownKey(nm, count', k) {
      if k != key {
        assert KnownKey(nm, count, k);
      }
    }
  }

  /** next is history with one date's rows added to that date. */
  ghost predicate Extends(p: Platform, history: seq<Row>, next: seq<Row>, d: string, rows: seq<Row>) {
    && (forall r :: r in rows ==> p.dateOf(r.created) == d)
    && (forall e :: ExtendsOn(p, history, next, d, rows, e))
  }

  ghost predicate ExtendsOn(p: Platform, history: seq<Row>, next: seq<Row>, d: string, rows: seq<Row>, e: string) {
    Select(OnDate(p.dateOf, e), next) == Select(OnDate(p.dateOf, e), history) + (if e == d then rows else [])
  }

  /** Appending to the last file of a date. */
  lemma AppendsToLast(nm: Naming, p: Platform, disk: Disk, count: map<string, nat>, history: seq<Row>, d: string,
                      rows: seq<Row>, history': seq<Row>)
    requires Lawful(nm) && InOrder(nm, p, disk, count, history) && d in count
    requires Extends(p, history, history', d, rows)
    ensures var key := nm.key(d, count[d] - 1);
      key in disk && InOrder(nm, p, disk[key := disk[key] + rows], count, history')
  {
    var key := nm.key(d, count[d] - 1);
    assert key in disk;
    AppendNumbered(nm, p, disk, count, d, rows);
    var disk' := disk[key := disk[key] + rows];
    assert Routed(nm, p, disk') by {
      assert nm.date(key) == d;
    }
    forall e ensures HoldsOn(nm, p, disk', count, history', e) {
      assert HoldsOn(nm, p, disk, count, history, e) && ExtendsOn(p, history, history', d, rows, e);
      AppendScan(nm, p, disk, count, d, rows, e);
    }
  }

  lemma AppendNumbered(nm: Naming, p: Platform, disk: Disk, count: map<string, nat>, d: string, rows: seq<Row>)
    requires Lawful(nm) && Numbered(nm, p, disk, count) && d in count && nm.key(d, count[d] - 1) in disk
    ensures var key := nm.key(d, count[d] - 1); Numbered(nm, p, disk[key := disk[key] + rows], count)
  {
    var key := nm.key(d, count[d] - 1);
    var disk' := disk[key := disk[key] + rows];
    forall e, m: nat | e in count && m < count[e] - 1 ensures Full(p, disk', nm.key(e, m)) {
      assert Full(p, disk, nm.key(e, m));
      assert nm.key(e, m) != key;
    }
  }

  lemma AppendScan(nm: Naming, p: Platform, disk: Disk, count: map<string, nat>, d: string, rows: seq<Row>, e: string)
    requires Lawful(nm) && Numbered(nm, p, disk, count) && d in count && nm.key(d, count[d] - 1) in disk
    ensures var key := nm.key(d, count[d] - 1);
      ScanOf(disk[key := disk[key] + rows], DayKeysUpTo(nm, e, CountOf(count, e))) ==
        ScanOf(disk, DayKeysUpTo(nm, e, CountOf(count, e))) + (if e == d then rows else [])
  {
    if e == d {
      AppendScanSame(nm, disk, d, count[d], rows);
    } else {
      AppendScanOther(nm, p, disk, count, d, rows, e);
      NothingBehind(ScanOf(disk, DayKeysUpTo(nm, e, CountOf(count, e))));
    }
  }

  lemma AppendScanOther(nm: Naming, p: Platform, disk: Disk, count: map<string, nat>, d: string, rows: seq<Row>,
                        e: string)
    requires Lawful(nm) && Numbered(nm, p, disk, count) && d in count && nm.key(d, count[d] - 1) in disk && e != d
    ensures var key := nm.key(d, count[d] - 1);
      ScanOf(disk[key := disk[key] + rows], DayKeysUpTo(nm, e, CountOf(count, e))) ==
        ScanOf(disk, DayKeysUpTo(nm, e, CountOf(count, e)))
  {
    var n := CountOf(count, e);
    var key := nm.key(d, count[d] - 1);
    if n > 0 {
      AppendFrame(nm, disk, disk[key := disk[key] + rows], e, n, d, count[d] - 1);
    }
  }

  lemma AppendScanSame(nm: Naming, disk: Disk, d: string, n: nat, rows: seq<Row>)
    requires Lawful(nm) && nm.isDate(d) && 0 < n <= MAX_SEQ + 1 && nm.key(d, n - 1) in disk
    ensures var key := nm.key(d, n - 1);
      ScanOf(disk[key := disk[key] + rows], DayKeysUpTo(nm, d, n)) == ScanOf(disk, DayKeysUpTo(nm, d, n)) + rows
  {
    var key := nm.key(d, n - 1);
    var keys := DayKeysUpTo(nm, d, n - 1);
    AppendFrame(nm, disk, disk[key := disk[key] + rows], d, n - 1, d, n - 1);
    assert DayKeysUpTo(nm, d, n) == keys + [key];
    AppendAtEnd(disk, keys, key, rows);
  }

  lemma AppendAtEnd(disk: Disk, keys: seq<string>, key: string, rows: seq<Row>)
    requires key in disk
    requires ScanOf(disk[key := disk[key] + rows], keys) == ScanOf(disk, keys)
    ensures ScanOf(disk[key := disk[key] + rows], keys + [key]) == ScanOf(disk, keys + [key]) + rows
  {
    var disk' := disk[key := disk[key] + rows];
    ScanSnoc(disk, keys, key);
    ScanSnoc(disk', keys, key);
    Reassociate(ScanOf(disk, keys), disk[key], rows);
    assert RowsIn(disk', key) == disk[key] + rows;
  }

  lemma ScanSnoc(disk: Disk, keys: seq<string>, key: string)
    ensures ScanOf(disk, keys + [key]) == ScanOf(disk, keys) + RowsIn(disk, key)
  {
    assert (keys + [key])[..|keys|] == keys;
  }

  lemma AppendFrame(nm: Naming, disk: Disk, disk': Disk, e: string, n: nat, d: string, last: nat)
    requires Lawful(nm) && nm.isDate(e) && nm.isDate(d) && n <= MAX_SEQ + 1 && last <= MAX_SEQ
    requires e != d || n <= last
    requires forall k :: k != nm.key(d, last) ==> RowsIn(disk', k) == RowsIn(disk, k)
    ensures ScanOf(disk', DayKeysUpTo(nm, e, n)) == ScanOf(disk, DayKeysUpTo(nm, e, n))
  {
    var keys := DayKeysUpTo(nm, e, n);
    DayKeysAt(nm, e, n);
    forall i | 0 <= i < |keys| ensures RowsIn(disk', keys[i]) == RowsIn(disk, keys[i]) {
      assert keys[i] == nm.key(e, i);
    }
    ScanFrame(disk, disk', keys);
  }

  // ---- Reading the directory in (date, seq) order.

  /** keys lists every file once, in (date, seq) order. */
  ghost predicate Enumerates(nm: Naming, keys: seq<string>, disk: Disk) {
    Distinct(keys) && (forall k :: k in keys <==> k in disk) && Sorted(nm.less, keys)
  }

  function HasDate(nm: Naming, d: string): string -> bool {
    (k: string) => nm.date(k) == d
  }

  lemma {:induction false} ScanOfDate(nm: Naming, p: Platform, disk: Disk, keys: seq<string>, c: int)
    requires Routed(nm, p, disk)
    ensures Select(InSecond(c), ScanOf(disk, keys))
      == Select(InSecond(c), ScanOf(disk, Select(HasDate(nm, p.dateOf(c)), keys)))
  {
    if keys != [] {
      var init, last, d := keys[..|keys| - 1], keys[|keys| - 1], p.dateOf(c);
      ScanOfDate(nm, p, disk, init, c);
      SelectConcat(InSecond(c), ScanOf(disk, init), RowsIn(disk, last));
      var sel := Select(HasDate(nm, d), init);
      if nm.date(last) == d {
        assert (sel + [last])[..|sel|] == sel;
        SelectConcat(InSecond(c), ScanOf(disk, sel), RowsIn(disk, last));
      } else {
        SelectNone(InSecond(c), RowsIn(disk, last));
        assert sel + [] == sel;
      }
    }
  }

  lemma {:induction false} SelectKeepsOrder(less: (string, string) -> bool, p: string -> bool, s: seq<string>)
    requires Distinct(s) && Sorted(less, s)
    ensures Distinct(Select(p, s)) && Sorted(less, Select(p, s))
  {
    if s != [] {
      var init, last := s[..|s| - 1], s[|s| - 1];
      SelectKeepsOrder(less, p, init);
      SelectMembers(p, init);
      var t := Select(p, init);
      forall i | 0 <= i < |t| ensures t[i] != last && !less(last, t[i]) {
        assert t[i] in init;
        var k :| 0 <= k < |init| && init[k] == t[i];
        assert s[k] == t[i];
      }
    }
  }

  lemma SameMembersSameMultiset(a: seq<string>, b: seq<string>)
    requires Distinct(a) && Distinct(b) && forall x :: x in a <==> x in b
    ensures multiset(a) == multiset(b)
  {
    forall x ensures multiset(a)[x] == multiset(b)[x] {
      DistinctCounts(a, x);
      DistinctCounts(b, x);
    }
  }

  /** Files of one date that their numbers tell apart. */
  lemma NumbersCompare(nm: Naming, d: string, s: seq<string>)
    requires Lawful(nm) && forall x :: x in s ==> nm.date(x) == d && nm.num(x) >= 0 && x == nm.key(d, nm.num(x))
    ensures Comparable(nm.less, s)
  {
    forall x, y | x in s && y in s && x != y ensures nm.less(x, y) || nm.less(y, x) {
      assert nm.num(x) != nm.num(y);
    }
  }

  lemma MembersOfDate(nm: Naming, p: Platform, disk: Disk, count: map<string, nat>, keys: seq<string>, d: string)
    requires Lawful(nm)
    requires Numbered(nm, p, disk, count) && Enumerates(nm, keys, disk)
    ensures var a, b := Select(HasDate(nm, d), keys), DayKeysUpTo(nm, d, CountOf(count, d));
            && multiset(a) == multiset(b)
            && forall x :: x in a ==> nm.date(x) == d && nm.num(x) >= 0 && x == nm.key(d, nm.num(x))
  {
    var a, b := Select(HasDate(nm, d), keys), DayKeysUpTo(nm, d, CountOf(count, d));
    var n := CountOf(count, d);
    SelectKeepsOrder(nm.less, HasDate(nm, d), keys);
    SelectMembers(HasDate(nm, d), keys);
    DayKeysAt(nm, d, n);
    forall i: nat | i < n ensures nm.date(b[i]) == d && nm.num(b[i]) == i && b[i] in a {
      assert nm.key(d, i) in disk;
    }
    forall x | x in a ensures 0 <= nm.num(x) < n && x == b[nm.num(x)] {
      assert KnownKey(nm, count, x);
    }
    SameMembersSameMultiset(a, b);
  }

  /** Among all files in (date, seq) order, those of one date are its sequence 0, 1, 2, ... */
  lemma FilesOfDate(nm: Naming, p: Platform, disk: Disk, count: map<string, nat>, keys: seq<string>, d: string)
    requires Lawful(nm)
    requires Numbered(nm, p, disk, count) && Enumerates(nm, keys, disk)
    ensures Select(HasDate(nm, d), keys) == DayKeysUpTo(nm, d, CountOf(count, d))
  {
    var a, b := Select(HasDate(nm, d), keys), DayKeysUpTo(nm, d, CountOf(count, d));
    MembersOfDate(nm, p, disk, count, keys, d);
    SelectKeepsOrder(nm.less, HasDate(nm, d), keys);
    DayKeysAt(nm, d, CountOf(count, d));
    NumbersCompare(nm, d, a);
    SortedUnique(nm.less, a, b);
  }

  /** Reading all files in (date, seq) order meets the rows of each second in insertion order. */
  lemma ScanKeepsSeconds(nm: Naming, p: Platform, disk: Disk, count: map<string, nat>, history: seq<Row>,
                         keys: seq<string>, c: int)
    requires Lawful(nm)
    requires InOrder(nm, p, disk, count, history) && Enumerates(nm, keys, disk)
    ensures Select(InSecond(c), ScanOf(disk, keys)) == Select(InSecond(c), history)
  {
    var d := p.dateOf(c);
    ScanOfDate(nm, p, disk, keys, c);
    FilesOfDate(nm, p, disk, count, keys, d);
    assert HoldsOn(nm, p, disk, count, history, d);
    SelectWithin(InSecond(c), OnDate(p.dateOf, d), history);
  }

  /** Hence a full scan lists newest first exactly as the history does, under any filter. */
  lemma ScanListsHistory(nm: Naming, p: Platform, disk: Disk, count: map<string, nat>, history: seq<Row>,
                         keys: seq<string>, pick: Row -> bool)
    requires Lawful(nm)
    requires InOrder(nm, p, disk, count, history) && Enumerates(nm, keys, disk)
    ensures NewestFirst(Select(pick, ScanOf(disk, keys))) == NewestFirst(Select(pick, history))
    ensures multiset(Select(pick, ScanOf(disk, keys))) == multiset(Select(pick, history))
  {
    var scan := ScanOf(disk, keys);
    forall c ensures Select(InSecond(c), Select(pick, scan)) == Select(InSecond(c), Select(pick, history)) {
      ScanKeepsSeconds(nm, p, disk, count, history, keys, c);
      SelectCommutes(InSecond(c), pick, scan);
      SelectCommutes(InSecond(c), pick, history);
    }
    SameSecondsListAlike(Select(pick, scan), Select(pick, history));
  }

  // ---- Deleting.

  function Named(days: seq<string>): set<string> {
    set k | k in days
  }

  function DatesNamed(nm: Naming, disk: Disk, named: set<string>): set<string> {
    set k | k in disk.Keys && k in named :: nm.date(k)
  }

  /** A date loses all of its files or none. */
  ghost predicate WholeDates(nm: Naming, disk: Disk, named: set<string>) {
    forall k :: k in disk && nm.date(k) in DatesNamed(nm, disk, named) ==> k in named
  }

  /** A date that loses a file also loses those behind it. */
  ghost predicate CutsBehind(nm: Naming, count: map<string, nat>, named: set<string>) {
    forall d, m: nat, n: nat :: d in count && m < n < count[d] && nm.key(d, m) in named ==> nm.key(d, n) in named
  }

  /** How many of the date's first n files come before the first one to go. */
  function FilesLeft(nm: Naming, named: set<string>, d: string, n: nat): (m: nat)
    ensures m <= n
  {
    if n == 0 then 0
    else
      var m := FilesLeft(nm, named, d, n - 1);
      if m == n - 1 && nm.key(d, n - 1) !in named then n else m
  }

  function CountLeft(nm: Naming, count: map<string, nat>, named: set<string>): map<string, nat> {
    map d | d in count && FilesLeft(nm, named, d, count[d]) > 0 :: FilesLeft(nm, named, d, count[d])
  }

  /** Of every date the first rows, as many as keep says. */
  function FirstRows(dateOf: int -> string, keep: string -> nat, rows: seq<Row>): seq<Row> {
    if rows == [] then []
    else
      var init, last := rows[..|rows| - 1], rows[|rows| - 1];
      var d := dateOf(last.created);
      FirstRows(dateOf, keep, init) + (if |Select(OnDate(dateOf, d), init)| < keep(d) then [last] else [])
  }

  /** How many rows the files before the first one to go hold. */
  function RowsLeft(nm: Naming, disk: Disk, count: map<string, nat>, named: set<string>): string -> nat {
    (d: string) => |ScanOf(disk, DayKeysUpTo(nm, d, CountOf(CountLeft(nm, count, named), d)))|
  }

  function HistoryLeft(nm: Naming, p: Platform, disk: Disk, count: map<string, nat>, named: set<string>,
                       history: seq<Row>): seq<Row> {
    FirstRows(p.dateOf, RowsLeft(nm, disk, count, named), history)
  }

  function NotOnDates(dateOf: int -> string, ds: set<string>): Row -> bool {
    (r: Row) => dateOf(r.created) !in ds
  }

  lemma {:induction false} FilesLeftIs(nm: Naming, named: set<string>, d: string, n: nat)
    ensures var m := FilesLeft(nm, named, d, n);
      (forall i: nat :: i < m ==> nm.key(d, i) !in named) && (m < n ==> nm.key(d, m) in named)
  {
    if n > 0 {
      FilesLeftIs(nm, named, d, n - 1);
    }
  }

  /** With cuts behind only, the files left are those not named. */
  lemma LeftIffUnnamed(nm: Naming, count: map<string, nat>, named: set<string>, d: string, i: nat)
    requires CutsBehind(nm, count, named) && d in count && i < count[d]
    ensures i < FilesLeft(nm, named, d, count[d]) <==> nm.key(d, i) !in named
  {
    FilesLeftIs(nm, named, d, count[d]);
    var m := FilesLeft(nm, named, d, count[d]);
    if m < i {
      assert nm.key(d, m) in named;
    }
  }

  function Take(rows: seq<Row>, k: nat): seq<Row> {
    if k < |rows| then rows[..k] else rows
  }

  lemma TakeSnoc(rows: seq<Row>, r: Row, k: nat)
    ensures Take(rows + [r], k) == if |rows| < k then Take(rows, k) + [r] else Take(rows, k)
  {
  }

  lemma {:induction false} FirstRowsOnDate(dateOf: int -> string, keep: string -> nat, rows: seq<Row>, d: string)
    ensures Select(OnDate(dateOf, d), FirstRows(dateOf, keep, rows)) == Take(Select(OnDate(dateOf, d), rows), keep(d))
  {
    if rows != [] {
      var init, last := rows[..|rows| - 1], rows[|rows| - 1];
      assert rows == init + [last];
      FirstRowsOnDate(dateOf, keep, init, d);
      FirstRowsNext(dateOf, keep, init, last, d, FirstRows(dateOf, keep, init));
    }
  }

  lemma FirstRowsNext(dateOf: int -> string, keep: string -> nat, init: seq<Row>, last: Row, d: string, kept: seq<Row>)
    requires Select(OnDate(dateOf, d), kept) == Take(Select(OnDate(dateOf, d), init), keep(d))
    ensures var more := |Select(OnDate(dateOf, dateOf(last.created)), init)| < keep(dateOf(last.created));
      Select(OnDate(dateOf, d), kept + (if more then [last] else []))
        == Take(Select(OnDate(dateOf, d), init + [last]), keep(d))
  {
    var on, k := OnDate(dateOf, d), keep(d);
    assert kept + [] == kept;
    NextOn(on, init, last);
    NextOn(on, kept, last);
    if on(last) {
      TakeSnoc(Select(on, init), last, k);
    }
  }

  lemma NextOn(pick: Row -> bool, rows: seq<Row>, r: Row)
    ensures Select(pick, rows + [r]) == if pick(r) then Select(pick, rows) + [r] else Select(pick, rows)
  {
    SelectSnoc(pick, rows, r);
    assert Select(pick, rows) + [] == Select(pick, rows);
  }

  lemma {:induction false} ScanPrefix(nm: Naming, disk: Disk, d: string, m: nat, n: nat)
    requires m <= n
    ensures ScanOf(disk, DayKeysUpTo(nm, d, m)) <= ScanOf(disk, DayKeysUpTo(nm, d, n))
  {
    if m < n {
      ScanPrefix(nm, disk, d, m, n - 1);
      ScanSnoc(disk, DayKeysUpTo(nm, d, n - 1), nm.key(d, n - 1));
    }
  }

  lemma LeftNumbered(nm: Naming, p: Platform, disk: Disk, count: map<string, nat>, named: set<string>)
    requires Lawful(nm) && Numbered(nm, p, disk, count) && CutsBehind(nm, count, named)
    ensures Numbered(nm, p, disk - named, CountLeft(nm, count, named))
  {
    var disk', count' := disk - named, CountLeft(nm, count, named);
    forall d, n: nat | d in count' && n < count'[d]
      ensures nm.key(d, n) in disk' && (n < count'[d] - 1 ==> Full(p, disk', nm.key(d, n)))
    {
      LeftIffUnnamed(nm, count, named, d, n);
      assert n < count[d] - 1 ==> Full(p, disk, nm.key(d, n));
    }
    forall k | k in disk' ensures KnownKey(nm, count', k) {
      assert KnownKey(nm, count, k);
      LeftIffUnnamed(nm, count, named, nm.date(k), nm.num(k));
    }
  }

  /** The files left of a date are the same files as before. */
  lemma LeftScan(nm: Naming, disk: Disk, count: map<string, nat>, named: set<string>, d: string)
    ensures var keys := DayKeysUpTo(nm, d, CountOf(CountLeft(nm, count, named), d));
      && ScanOf(disk - named, keys) == ScanOf(disk, keys)
      && ScanOf(disk, keys) <= ScanOf(disk, DayKeysUpTo(nm, d, CountOf(count, d)))
  {
    var m, n := CountOf(CountLeft(nm, count, named), d), CountOf(count, d);
    var keys := DayKeysUpTo(nm, d, m);
    FilesLeftIs(nm, named, d, n);
    DayKeysAt(nm, d, m);
    forall i | 0 <= i < |keys| ensures RowsIn(disk - named, keys[i]) == RowsIn(disk, keys[i]) {
      assert keys[i] == nm.key(d, i);
    }
    ScanFrame(disk, disk - named, keys);
    ScanPrefix(nm, disk, d, m, n);
  }

  lemma LeftHolds(nm: Naming, p: Platform, disk: Disk, count: map<string, nat>, history: seq<Row>, named: set<string>,
                  d: string)
    requires HoldsOn(nm, p, disk, count, history, d)
    ensures HoldsOn(nm, p, disk - named, CountLeft(nm, count, named),
                    HistoryLeft(nm, p, disk, count, named, history), d)
  {
    LeftScan(nm, disk, count, named, d);
    FirstRowsOnDate(p.dateOf, RowsLeft(nm, disk, count, named), history, d);
  }

  /** What is left holds what is left of the history. */
  lemma DeleteKeepsOrder(nm: Naming, p: Platform, disk: Disk, count: map<string, nat>, history: seq<Row>,
                         named: set<string>)
    requires Lawful(nm) && InOrder(nm, p, disk, count, history) && CutsBehind(nm, count, named)
    ensures InOrder(nm, p, disk - named, CountLeft(nm, count, named), HistoryLeft(nm, p, disk, count, named, history))
  {
    LeftNumbered(nm, p, disk, count, named);
    forall d ensures HoldsOn(nm, p, disk - named, CountLeft(nm, count, named),
                             HistoryLeft(nm, p, disk, count, named, history), d) {
      assert HoldsOn(nm, p, disk, count, history, d);
      LeftHolds(nm, p, disk, count, history, named, d);
    }
  }

  /** In whatever order the rest of the directory is, a file that stays keeps those before it. */
  lemma StaysBehind(nm: Naming, p: Platform, disk: Disk, count: map<string, nat>, named: set<string>,
                    count': map<string, nat>, d: string, m: nat, n: nat)
    requires Lawful(nm) && Numbered(nm, p, disk, count) && Numbered(nm, p, disk - named, count')
    requires d in count && m < n < count[d] && nm.key(d, n) !in named
    ensures nm.key(d, m) !in named
  {
    assert KnownKey(nm, count', nm.key(d, n));
    assert nm.key(d, m) in disk - named;
  }

  /** After a deletion the directory is in order, for some numbering and some history, if and only if no
      date keeps a file behind a removed one. */
  lemma DeleteOrderedIff(nm: Naming, p: Platform, disk: Disk, count: map<string, nat>, history: seq<Row>,
                         named: set<string>)
    requires Lawful(nm) && InOrder(nm, p, disk, count, history)
    ensures (exists c, h :: InOrder(nm, p, disk - named, c, h)) <==> CutsBehind(nm, count, named)
    ensures InOrder(nm, p, disk - named, CountLeft(nm, count, named), HistoryLeft(nm, p, disk, count, named, history))
       <==> CutsBehind(nm, count, named)
  {
    if CutsBehind(nm, count, named) {
      DeleteKeepsOrder(nm, p, disk, count, history, named);
    }
    forall c, h, d, m: nat, n: nat
      | InOrder(nm, p, disk - named, c, h) && d in count && m < n < count[d] && nm.key(d, n) !in named
      ensures nm.key(d, m) !in named
    {
      StaysBehind(nm, p, disk, count, named, c, d, m, n);
    }
  }

  lemma {:induction false} AllOrNone(dateOf: int -> string, keep: string -> nat, rows: seq<Row>, ds: set<string>)
    requires forall d :: if d in ds then keep(d) == 0 else |Select(OnDate(dateOf, d), rows)| <= keep(d)
    ensures FirstRows(dateOf, keep, rows) == Select(NotOnDates(dateOf, ds), rows)
  {
    if rows != [] {
      var init, last := rows[..|rows| - 1], rows[|rows| - 1];
      assert rows == init + [last];
      forall d ensures if d in ds then keep(d) == 0 else |Select(OnDate(dateOf, d), init)| <= keep(d) {
        SelectSnoc(OnDate(dateOf, d), init, last);
      }
      AllOrNone(dateOf, keep, init, ds);
      SelectSnoc(OnDate(dateOf, dateOf(last.created)), init, last);
      SelectSnoc(NotOnDates(dateOf, ds), init, last);
    }
  }

  /** A deletion of whole dates leaves the history of the other dates, and only cuts behind. */
  lemma WholeDatesLeft(nm: Naming, p: Platform, disk: Disk, count: map<string, nat>, history: seq<Row>,
                       named: set<string>)
    requires Lawful(nm) && InOrder(nm, p, disk, count, history)
    ensures WholeDates(nm, disk, named) ==>
      HistoryLeft(nm, p, disk, count, named, history)
        == Select(NotOnDates(p.dateOf, DatesNamed(nm, disk, named)), history)
    ensures WholeDates(nm, disk, named) ==> CutsBehind(nm, count, named)
  {
    if WholeDates(nm, disk, named) {
      var ds := DatesNamed(nm, disk, named);
      var keep := RowsLeft(nm, disk, count, named);
      forall d ensures if d in ds then keep(d) == 0 else |Select(OnDate(p.dateOf, d), history)| <= keep(d) {
        assert HoldsOn(nm, p, disk, count, history, d);
        DateWhole(nm, p, disk, count, named, d);
      }
      AllOrNone(p.dateOf, keep, history, ds);
      forall d, m: nat, n: nat | d in count && m < n < count[d] && nm.key(d, m) in named ensures nm.key(d, n) in named {
        assert nm.key(d, m) in disk && nm.date(nm.key(d, m)) == d;
        assert nm.key(d, n) in disk && nm.date(nm.key(d, n)) == d;
      }
    }
  }

  lemma DateWhole(nm: Naming, p: Platform, disk: Disk, count: map<string, nat>, named: set<string>, d: string)
    requires Lawful(nm) && Numbered(nm, p, disk, count) && WholeDates(nm, disk, named)
    ensures CountOf(CountLeft(nm, count, named), d)
         == if d in DatesNamed(nm, disk, named) then 0 else CountOf(count, d)
  {
    if d in count {
      FilesLeftIs(nm, named, d, count[d]);
      var m := FilesLeft(nm, named, d, count[d]);
      forall i: nat | i < count[d] ensures nm.key(d, i) in disk && nm.date(nm.key(d, i)) == d {
      }
      if d in DatesNamed(nm, disk, named) {
        assert nm.key(d, 0) in named;
        assert m == 0;
      } else {
        assert m == count[d];
      }
    }
  }
}
