/** The channel pool: round-robin keys, and reloads that keep the rotation going. */
module KeyRotation {
  import opened Options
  import opened Selections

  /** The counter is an unsigned 64-bit integer. */
  const WRAP := 0x1_0000_0000_0000_0000

  datatype Key = Key(id: int, secret: string, active: bool)

  datatype Entry = Entry(keys: seq<Key>, counter: nat)

  type Pool = map<int, Entry>

  // ---- Choosing a key.

  /** The i-th index tried by a call that drew start; the sum wraps before the modulus. */
  function Tried(start: nat, i: nat, n: nat): nat
    requires n > 0
  {
    (start + i) % WRAP % n
  }

  function PickFrom(keys: seq<Key>, start: nat, i: nat): Option<Key>
    decreases |keys| - i
  {
    if i >= |keys| then None
    else
      var k := keys[Tried(start, i, |keys|)];
      if k.active then Some(k) else PickFrom(keys, start, i + 1)
  }

  function Pick(keys: seq<Key>, start: nat): Option<Key> {
    PickFrom(keys, start, 0)
  }

  /** The first active key among those tried, in order; none only if all tried are inactive. */
  lemma {:induction false} PickFirst(keys: seq<Key>, start: nat, i: nat)
    requires i <= |keys|
    ensures PickFrom(keys, start, i).None? ==> forall k :: i <= k < |keys| ==> !keys[Tried(start, k, |keys|)].active
    ensures PickFrom(keys, start, i).Some? ==>
      exists k :: i <= k < |keys| && PickFrom(keys, start, i) == Some(keys[Tried(start, k, |keys|)])
        && keys[Tried(start, k, |keys|)].active
        && forall m :: i <= m < k ==> !keys[Tried(start, m, |keys|)].active
    decreases |keys| - i
  {
    if i < |keys| && !keys[Tried(start, i, |keys|)].active {
      PickFirst(keys, start, i + 1);
    }
  }

  ghost predicate SomeActive(keys: seq<Key>) {
    exists j :: 0 <= j < |keys| && keys[j].active
  }

  /** Every index is tried. */
  ghost predicate Covers(start: nat, n: nat)
    requires n > 0
  {
    forall j :: 0 <= j < n ==> Reaches(start, n, j)
  }

  ghost predicate Reaches(start: nat, n: nat, j: nat)
    requires n > 0
  {
    exists i :: 0 <= i < n && Tried(start, i, n) == j
  }

  lemma NoMultipleBetween(n: int, d: int)
    requires n > 0 && d != 0
    ensures d * n >= n || d * n <= -n
  {
  }

  lemma ModUnique(x: int, q: int, j: int, n: int)
    requires n > 0 && x == q * n + j && 0 <= j < n
    ensures x % n == j
  {
    var d := x / n - q;
    assert d * n == x / n * n - q * n;
    assert x == x / n * n + x % n;
    if d != 0 {
      NoMultipleBetween(n, d);
    }
  }

  /** Counting on from c, the index j comes up within n steps. */
  lemma Arrives(c: int, j: int, n: int) returns (k: nat)
    requires n > 0 && 0 <= j < n
    ensures k < n && (c + k) % n == j
  {
    k := (j - c) % n;
    var q := (j - c) / n;
    assert j - c == q * n + k;
    assert -q * n == -(q * n);
    ModUnique(c + k, -q, j, n);
  }

  /** Within n steps no index comes up twice. */
  lemma NoRepeat(c: int, k: int, m: int, n: int)
    requires n > 0 && 0 <= k < m < n
    ensures (c + k) % n != (c + m) % n
  {
    var d := (c + m) / n - (c + k) / n;
    assert d * n == (c + m) / n * n - (c + k) / n * n;
    assert c + m == (c + m) / n * n + (c + m) % n;
    assert c + k == (c + k) / n * n + (c + k) % n;
    if d != 0 {
      NoMultipleBetween(n, d);
    }
  }

  lemma CoversUnwrapped(start: nat, n: nat)
    requires n > 0 && start + n <= WRAP
    ensures Covers(start, n)
  {
    forall j | 0 <= j < n
      ensures Reaches(start, n, j)
    {
      var k := Arrives(start, j, n);
      assert (start + k) % WRAP == start + k;
      assert Tried(start, k, n) == j;
    }
  }

  lemma ModMod(x: nat, n: nat)
    requires n > 0 && WRAP % n == 0 && x < 2 * WRAP
    ensures x % WRAP % n == x % n
  {
    if x >= WRAP {
      assert x % WRAP == x - WRAP;
      var p, q := WRAP / n, (x - WRAP) / n;
      assert (p + q) * n == p * n + q * n;
      ModUnique(x, p + q, (x - WRAP) % n, n);
    }
  }

  lemma CoversDivisor(start: nat, n: nat)
    requires n > 0 && WRAP % n == 0 && start < WRAP && n <= WRAP
    ensures Covers(start, n)
  {
    forall j | 0 <= j < n
      ensures Reaches(start, n, j)
    {
      var k := Arrives(start, j, n);
      ModMod(start + k, n);
      assert Tried(start, k, n) == j;
    }
  }

  /** Counting m back from the wrap. */
  lemma BeforeWrap(m: nat, n: nat)
    requires n > 0 && 0 < m < n <= WRAP
    ensures (WRAP - m) % n == if m <= WRAP % n then WRAP % n - m else n + WRAP % n - m
  {
    var p, e := WRAP / n, WRAP % n;
    assert WRAP == p * n + e;
    if m <= e {
      ModUnique(WRAP - m, p, e - m, n);
    } else {
      assert (p - 1) * n == p * n - n;
      ModUnique(WRAP - m, p - 1, n + e - m, n);
    }
  }

  /** Where a call wraps and n does not divide the range, some index is never tried: with w steps left
      before the wrap, the first w indices end just below WRAP % n, and the others are 0 .. n - w - 1. */
  lemma MissedIndex(start: nat, n: nat) returns (j: nat)
    requires start < WRAP < start + n && n <= WRAP && WRAP % n != 0
    ensures j < n && !Reaches(start, n, j)
  {
    var w := WRAP - start;
    var e := WRAP % n;
    j := if e >= w then n - 1 else n + e - w - 1;
    forall i | 0 <= i < n
      ensures Tried(start, i, n) != j
    {
      if i < w {
        TriedBefore(start, i, n);
      } else {
        TriedAfter(start, i, n);
      }
    }
  }

  lemma TriedBefore(start: nat, i: nat, n: nat)
    requires start + i < WRAP < start + n && n <= WRAP
    ensures var m, e := WRAP - start - i, WRAP % n; Tried(start, i, n) == if m <= e then e - m else n + e - m
  {
    BeforeWrap(WRAP - start - i, n);
  }

  lemma TriedAfter(start: nat, i: nat, n: nat)
    requires start < WRAP <= start + i && i < n <= WRAP
    ensures Tried(start, i, n) == start + i - WRAP
  {
    assert (start + i) % WRAP == start + i - WRAP;
    ModUnique(start + i - WRAP, 0, start + i - WRAP, n);
  }

  /** A call on these keys fails exactly when none is active. */
  ghost predicate FailsIffNoneActive(keys: seq<Key>, start: nat) {
    Pick(keys, start).None? <==> !SomeActive(keys)
  }

  /** The condition on the counter under which that holds for every channel of n keys. */
  predicate WholeTurn(start: nat, n: nat) {
    n > 0 ==> start + n <= WRAP || WRAP % n == 0
  }

  lemma CoveredFails(keys: seq<Key>, start: nat)
    requires |keys| > 0 ==> Covers(start, |keys|)
    ensures FailsIffNoneActive(keys, start)
  {
    PickFirst(keys, start, 0);
    if SomeActive(keys) {
      var j :| 0 <= j < |keys| && keys[j].active;
      assert Reaches(start, |keys|, j);
    }
  }

  lemma MissedFails(start: nat, n: nat, j: nat) returns (keys: seq<Key>)
    requires j < n && !Reaches(start, n, j)
    ensures |keys| == n && !FailsIffNoneActive(keys, start)
  {
    keys := seq(n, k requires 0 <= k < n => Key(k, "", k == j));
    PickFirst(keys, start, 0);
    assert keys[j].active;
  }

  /** NextKey fails exactly when no key is active, for every channel of n keys, if and only if the
      call's counter does not wrap midway, or the wrap happens to fall on a whole turn. */
  lemma FailureExactIff(start: nat, n: nat)
    requires start < WRAP && n <= WRAP
    ensures (forall keys: seq<Key> :: |keys| == n ==> FailsIffNoneActive(keys, start)) <==> WholeTurn(start, n)
  {
    if WholeTurn(start, n) {
      forall keys: seq<Key> | |keys| == n
        ensures FailsIffNoneActive(keys, start)
      {
        if n > 0 && start + n <= WRAP {
          CoversUnwrapped(start, n);
        } else if n > 0 {
          CoversDivisor(start, n);
        }
        CoveredFails(keys, start);
      }
    } else {
      var j := MissedIndex(start, n);
      var keys := MissedFails(start, n, j);
    }
  }

  /** The key k places behind start, all in front of it inactive. */
  ghost predicate FirstInTurn(keys: seq<Key>, start: nat, k: nat, key: Key) {
    && k < |keys| && key == keys[(start + k) % |keys|] && key.active
    && forall m :: 0 <= m < k ==> InactiveAt(keys, start, m)
  }

  predicate InactiveAt(keys: seq<Key>, start: nat, m: nat)
    requires keys != []
  {
    !keys[(start + m) % |keys|].active
  }

  /** Before the wrap the choice is the first active key from start on, and there is none only if no key is active. */
  lemma PickInTurn(keys: seq<Key>, start: nat)
    requires keys != [] && start + |keys| <= 0x1_0000_0000_0000_0000
    ensures var r := Pick(keys, start);
      if r.None? then !SomeActive(keys) else exists k :: FirstInTurn(keys, start, k, r.value)
  {
    var n := |keys|;
    PickFirst(keys, start, 0);
    CoversUnwrapped(start, n);
    CoveredFails(keys, start);
    forall k | 0 <= k < n ensures Tried(start, k, n) == (start + k) % n {
      Unwrapped(start + k);
    }
    if Pick(keys, start).Some? {
      var k :| 0 <= k < n && Pick(keys, start) == Some(keys[Tried(start, k, n)]) && keys[Tried(start, k, n)].active
        && forall m :: 0 <= m < k ==> !keys[Tried(start, m, n)].active;
      forall m | 0 <= m < k ensures InactiveAt(keys, start, m) {
        assert Tried(start, m, n) == (start + m) % n;
      }
      assert FirstInTurn(keys, start, k, keys[(start + k) % n]);
    }
  }

  // ---- Reloading.

  datatype Row = Row(id: int, enabled: bool)

  /** What the store answers: the channel rows, and the keys of a channel; either may fail. */
  datatype Store = Store(rows: Option<seq<Row>>, keysOf: int -> Option<seq<Key>>)

  function Ids(keys: seq<Key>): (ids: seq<int>)
    ensures |ids| == |keys| && forall i :: 0 <= i < |ids| ==> ids[i] == keys[i].id
  {
    seq(|keys|, i requires 0 <= i < |keys| => keys[i].id)
  }

  /** The counter survives when the same ids come back in the same order. */
  function Inherited(prev: Pool, id: int, keys: seq<Key>): nat {
    if id in prev && Ids(prev[id].keys) == Ids(keys) then prev[id].counter else 0
  }

  /** The table built from the first i rows. */
  function Built(prev: Pool, rows: seq<Row>, keysOf: int -> Option<seq<Key>>, i: nat): Option<Pool>
    requires i <= |rows|
  {
    if i == 0 then Some(map[])
    else
      var r := rows[i - 1];
      var before := Built(prev, rows, keysOf, i - 1);
      if before.None? || !r.enabled then before
      else if keysOf(r.id).None? then None
      else Some(before.value[r.id := Entry(keysOf(r.id).value, Inherited(prev, r.id, keysOf(r.id).value))])
  }

  function Loaded(prev: Pool, st: Store): Pool {
    if st.rows.None? then prev
    else
      var next := Built(prev, st.rows.value, st.keysOf, |st.rows.value|);
      if next.None? then prev else next.value
  }

  /** The same ids in the same order, whatever has become of secrets and activity. */
  ghost predicate SameOrder(before: seq<Key>, after: seq<Key>) {
    |before| == |after| && forall i :: 0 <= i < |after| ==> before[i].id == after[i].id
  }

  /** The pool holds the enabled channels of the store with the store's keys. */
  ghost predicate Matches(p: Pool, st: Store) {
    st.rows.Some?
    && (forall id :: id in p <==> Row(id, true) in st.rows.value)
    && (forall id :: id in p ==> st.keysOf(id) == Some(p[id].keys))
  }

  /** What the table built from the first i rows holds, whatever was loaded before. */
  ghost predicate Holds(next: Pool, prev: Pool, rows: seq<Row>, keysOf: int -> Option<seq<Key>>, i: nat)
    requires i <= |rows|
  {
    && (forall id :: id in next <==> Row(id, true) in rows[..i])
    && (forall id :: id in next ==> keysOf(id) == Some(next[id].keys))
    && (forall id :: id in next ==> next[id].counter == Inherited(prev, id, next[id].keys))
  }

  lemma HoldsNext(next: Pool, prev: Pool, rows: seq<Row>, keysOf: int -> Option<seq<Key>>, i: nat, keys: seq<Key>)
    requires i < |rows| && rows[i].enabled && Holds(next, prev, rows, keysOf, i) && keysOf(rows[i].id) == Some(keys)
    ensures Holds(next[rows[i].id := Entry(keys, Inherited(prev, rows[i].id, keys))], prev, rows, keysOf, i + 1)
  {
    assert rows[..i + 1] == rows[..i] + [rows[i]];
  }

  lemma {:induction false} BuiltHolds(prev: Pool, rows: seq<Row>, keysOf: int -> Option<seq<Key>>, i: nat)
    requires i <= |rows|
    ensures var next := Built(prev, rows, keysOf, i);
            next.Some? ==> Holds(next.value, prev, rows, keysOf, i)
  {
    if i > 0 {
      var before := Built(prev, rows, keysOf, i - 1);
      BuiltHolds(prev, rows, keysOf, i - 1);
      if before.Some? && rows[i - 1].enabled && keysOf(rows[i - 1].id).Some? {
        HoldsNext(before.value, prev, rows, keysOf, i - 1, keysOf(rows[i - 1].id).value);
      } else {
        assert rows[..i] == rows[..i - 1] + [rows[i - 1]];
      }
    }
  }

  lemma {:induction false} BuiltIff(prev: Pool, rows: seq<Row>, keysOf: int -> Option<seq<Key>>, i: nat)
    requires i <= |rows|
    ensures Built(prev, rows, keysOf, i).Some? <==>
      forall k :: 0 <= k < i && rows[k].enabled ==> keysOf(rows[k].id).Some?
  {
    if i > 0 {
      BuiltIff(prev, rows, keysOf, i - 1);
    }
  }

  /** A load that succeeds makes the pool match the store. */
  lemma LoadMatches(prev: Pool, st: Store)
    requires st.rows.Some? && Built(prev, st.rows.value, st.keysOf, |st.rows.value|).Some?
    ensures Matches(Loaded(prev, st), st)
  {
    BuiltHolds(prev, st.rows.value, st.keysOf, |st.rows.value|);
    assert st.rows.value[..|st.rows.value|] == st.rows.value;
  }

  /** A rotation goes on where it was exactly when the channel's ids are unchanged, and starts anew otherwise. */
  lemma CountersOf(prev: Pool, st: Store, next: Pool)
    requires st.rows.Some? && Built(prev, st.rows.value, st.keysOf, |st.rows.value|) == Some(next)
    ensures forall id :: id in next ==>
      next[id].counter == if id in prev && SameOrder(prev[id].keys, next[id].keys) then prev[id].counter else 0
  {
    BuiltHolds(prev, st.rows.value, st.keysOf, |st.rows.value|);
    forall id | id in next && id in prev
      ensures SameOrder(prev[id].keys, next[id].keys) <==> Ids(prev[id].keys) == Ids(next[id].keys)
    {
      IdsSame(prev[id].keys, next[id].keys);
    }
  }

  lemma IdsSame(a: seq<Key>, b: seq<Key>)
    ensures SameOrder(a, b) <==> Ids(a) == Ids(b)
  {
    if Ids(a) == Ids(b) {
      assert |a| == |Ids(a)| && |b| == |Ids(b)|;
      forall i | 0 <= i < |b| ensures a[i].id == b[i].id {
        assert Ids(a)[i] == Ids(b)[i];
      }
    }
  }

  /** Reloading an unchanged store changes nothing, however far each rotation has advanced. */
  lemma UnchangedReload(p: Pool, st: Store)
    requires Matches(p, st)
    ensures Loaded(p, st) == p
  {
    var rows := st.rows.value;
    forall k | 0 <= k < |rows| && rows[k].enabled
      ensures st.keysOf(rows[k].id).Some?
    {
      assert rows[k] == Row(rows[k].id, true);
      assert rows[k].id in p;
    }
    BuiltIff(p, rows, st.keysOf, |rows|);
    BuiltHolds(p, rows, st.keysOf, |rows|);
    assert rows[..|rows|] == rows;
    var q := Loaded(p, st);
    forall id | id in p
      ensures id in q && q[id] == p[id]
    {
      assert q[id].keys == p[id].keys;
    }
    assert forall id :: id in q ==> id in p;
    assert q.Keys == p.Keys;
  }

  // ---- The pool as the program holds it.

  method SameIds(a: seq<int>, b: seq<int>) returns (same: bool)
    ensures same <==> a == b
  {
    if |a| != |b| {
      return false;
    }
    for i := 0 to |a|
      invariant a[..i] == b[..i]
    {
      if a[i] != b[i] {
        return false;
      }
    }
    return true;
  }

  class ChannelPool {
    var channels: Pool

    constructor ()
      ensures channels == map[]
    {
      channels := map[];
    }

    method LoadFromStore(st: Store) returns (ok: bool)
      modifies this
      ensures channels == Loaded(old(channels), st)
      ensures ok <==> st.rows.Some? && forall k :: 0 <= k < |st.rows.value| && st.rows.value[k].enabled ==>
        st.keysOf(st.rows.value[k].id).Some?
      ensures ok ==> Matches(channels, st)
      ensures ok ==> forall id :: id in channels ==>
        var kept := id in old(channels) && SameOrder(old(channels)[id].keys, channels[id].keys);
        channels[id].counter == if kept then old(channels)[id].counter else 0
      ensures !ok ==> channels == old(channels)
    {
      if st.rows.None? {
        return false;
      }
      var rows := st.rows.value;
      var next: Pool := map[];
      for i := 0 to |rows|
        invariant channels == old(channels)
        invariant Built(channels, rows, st.keysOf, i) == Some(next)
      {
        if rows[i].enabled {
          var id := rows[i].id;
          var keys := st.keysOf(id);
          if keys.None? {
            BuiltIff(channels, rows, st.keysOf, |rows|);
            return false;
          }
          var counter := 0;
          if id in channels {
            var same := SameIds(Ids(channels[id].keys), Ids(keys.value));
            if same {
              counter := channels[id].counter;
            }
          }
          next := next[id := Entry(keys.value, counter)];
        }
      }
      LoadMatches(channels, st);
      BuiltIff(channels, rows, st.keysOf, |rows|);
      CountersOf(channels, st, next);
      channels := next;
      return true;
    }

    method NextKey(channel: int) returns (r: Option<Key>)
      modifies this
      ensures r == Answer(old(channels), channel)
      ensures channels == Drawn(old(channels), channel)
      ensures channel in old(channels) && old(channels)[channel].keys != [] ==>
        var e := old(channels)[channel];
        channels == old(channels)[channel := e.(counter := (e.counter + 1) % 0x1_0000_0000_0000_0000)]
      ensures InTurn(old(channels), channel, r)
    {
      AnswerInTurn(channels, channel);
      if channel !in channels {
        return None;
      }
      var entry := channels[channel];
      var n := |entry.keys|;
      if n == 0 {
        return None;
      }
      channels := channels[channel := entry.(counter := (entry.counter + 1) % WRAP)];
      var start := entry.counter;
      for i := 0 to n
        invariant Pick(entry.keys, start) == PickFrom(entry.keys, start, i)
      {
        var k := entry.keys[(start + i) % WRAP % n];
        if k.active {
          return Some(k);
        }
      }
      return None;
    }
  }

  // ---- Whole runs.

  function Answer(p: Pool, channel: int): Option<Key> {
    if channel in p then Pick(p[channel].keys, p[channel].counter) else None
  }

  /** Each call draws one number of its channel's counter. */
  function Drawn(p: Pool, channel: int): Pool {
    if channel in p && p[channel].keys != []
    then p[channel := p[channel].(counter := (p[channel].counter + 1) % WRAP)]
    else p
  }

  /** Before the wrap, the answer is the first active key from the counter on, or there is no active key. */
  ghost predicate InTurn(p: Pool, channel: int, r: Option<Key>) {
    channel in p && p[channel].keys != [] && p[channel].counter + |p[channel].keys| <= 0x1_0000_0000_0000_0000 ==>
      if r.None? then !SomeActive(p[channel].keys)
      else exists k :: FirstInTurn(p[channel].keys, p[channel].counter, k, r.value)
  }

  lemma AnswerInTurn(p: Pool, channel: int)
    ensures InTurn(p, channel, Answer(p, channel))
  {
    if channel in p && p[channel].keys != [] && p[channel].counter + |p[channel].keys| <= WRAP {
      PickInTurn(p[channel].keys, p[channel].counter);
    }
  }

  datatype Op = Next(channel: int) | Reload

  function Run(p: Pool, st: Store, ops: seq<Op>): Pool {
    if ops == [] then p
    else
      var q := Run(p, st, ops[..|ops| - 1]);
      match ops[|ops| - 1]
      case Next(c) => Drawn(q, c)
      case Reload => Loaded(q, st)
  }

  /** The answers to the calls on one channel, in order. */
  function Served(p: Pool, st: Store, ops: seq<Op>, channel: int): seq<Option<Key>> {
    if ops == [] then []
    else
      var before := Served(p, st, ops[..|ops| - 1], channel);
      if ops[|ops| - 1] == Next(channel)
      then before + [Answer(Run(p, st, ops[..|ops| - 1]), channel)]
      else before
  }

  /** The keys and counter of one channel after any run of calls and unchanged reloads. */
  lemma {:induction false} RunAdvances(p: Pool, st: Store, ops: seq<Op>, channel: int)
    requires Matches(p, st)
    requires channel in p && p[channel].keys != [] && p[channel].counter < WRAP
    ensures Matches(Run(p, st, ops), st)
    ensures channel in Run(p, st, ops)
    ensures Run(p, st, ops)[channel]
         == Entry(p[channel].keys, (p[channel].counter + |Served(p, st, ops, channel)|) % WRAP)
  {
    if ops == [] {
    } else {
      var q := Run(p, st, ops[..|ops| - 1]);
      RunAdvances(p, st, ops[..|ops| - 1], channel);
      match ops[|ops| - 1]
      case Next(c) =>
        NextWrapped(p[channel].counter + |Served(p, st, ops[..|ops| - 1], channel)|);
      case Reload =>
        UnchangedReload(q, st);
    }
  }

  lemma NextWrapped(c: nat)
    ensures (c % WRAP + 1) % WRAP == (c + 1) % WRAP
  {
  }

  /** The k-th answer on a channel: the rotation started k further on, whatever happens in between. */
  lemma {:induction false} ServedIs(p: Pool, st: Store, ops: seq<Op>, channel: int, k: nat)
    requires Matches(p, st)
    requires channel in p && p[channel].keys != [] && p[channel].counter < WRAP
    requires k < |Served(p, st, ops, channel)|
    ensures Served(p, st, ops, channel)[k] == Pick(p[channel].keys, (p[channel].counter + k) % WRAP)
  {
    var before := ops[..|ops| - 1];
    if k < |Served(p, st, before, channel)| {
      ServedIs(p, st, before, channel, k);
    } else {
      RunAdvances(p, st, before, channel);
    }
  }

  /** Reloads inserted anywhere do not alter the answers. */
  function Calls(ops: seq<Op>): seq<Op> {
    if ops == [] then []
    else if ops[|ops| - 1].Reload? then Calls(ops[..|ops| - 1])
    else Calls(ops[..|ops| - 1]) + [ops[|ops| - 1]]
  }

  lemma {:induction false} ReloadsInvisible(p: Pool, st: Store, ops: seq<Op>, channel: int)
    requires Matches(p, st)
    ensures Matches(Run(p, st, ops), st)
    ensures Run(p, st, ops) == Run(p, st, Calls(ops))
    ensures Served(p, st, ops, channel) == Served(p, st, Calls(ops), channel)
  {
    if ops != [] {
      var before := ops[..|ops| - 1];
      ReloadsInvisible(p, st, before, channel);
      if ops[|ops| - 1].Reload? {
        UnchangedReload(Run(p, st, before), st);
      } else {
        assert Calls(ops)[..|Calls(before)|] == Calls(before);
      }
    }
  }

  lemma PickActive(keys: seq<Key>, start: nat, j: nat)
    requires j < |keys| && start < WRAP && start % |keys| == j && keys[j].active
    ensures Pick(keys, start) == Some(keys[j])
  {
  }

  /** Before the counter wraps, any n answers in a row of a channel of n keys include every active key,
      with calls on other channels and unchanged reloads in between. */
  lemma EveryActiveServed(p: Pool, st: Store, ops: seq<Op>, channel: int, j: nat)
    requires Matches(p, st) && channel in p && j < |p[channel].keys| && p[channel].keys[j].active
    requires |Served(p, st, ops, channel)| == |p[channel].keys|
    requires p[channel].counter + |p[channel].keys| <= WRAP
    ensures Some(p[channel].keys[j]) in Served(p, st, ops, channel)
  {
    var k := Arrives(p[channel].counter, j, |p[channel].keys|);
    TurnAt(p, st, ops, channel, k, j);
  }

  /** The k-th answer before the wrap is the key at that place of the rotation, if it is active. */
  lemma TurnAt(p: Pool, st: Store, ops: seq<Op>, channel: int, k: nat, j: nat)
    requires Matches(p, st) && channel in p && k < |Served(p, st, ops, channel)|
    requires j < |p[channel].keys| && p[channel].keys[j].active
    requires p[channel].counter + k < WRAP && (p[channel].counter + k) % |p[channel].keys| == j
    ensures Served(p, st, ops, channel)[k] == Some(p[channel].keys[j])
  {
    ServedIs(p, st, ops, channel, k);
    Unwrapped(p[channel].counter + k);
    PickActive(p[channel].keys, p[channel].counter + k, j);
  }

  lemma Unwrapped(c: nat)
    requires c < WRAP
    ensures c % WRAP == c
  {
  }

  /** If all are active, each comes exactly once. */
  lemma EachOnce(p: Pool, st: Store, ops: seq<Op>, channel: int)
    requires Matches(p, st) && channel in p && p[channel].keys != [] && Distinct(p[channel].keys)
    requires forall j :: 0 <= j < |p[channel].keys| ==> p[channel].keys[j].active
    requires |Served(p, st, ops, channel)| == |p[channel].keys|
    requires p[channel].counter + |p[channel].keys| <= WRAP
    ensures Distinct(Served(p, st, ops, channel))
    ensures forall j :: 0 <= j < |p[channel].keys| ==> Some(p[channel].keys[j]) in Served(p, st, ops, channel)
  {
    var c, keys := p[channel].counter, p[channel].keys;
    forall k | 0 <= k < |keys|
      ensures Served(p, st, ops, channel)[k] == Some(keys[(c + k) % |keys|])
    {
      TurnAt(p, st, ops, channel, k, (c + k) % |keys|);
    }
    OneTurn(Served(p, st, ops, channel), keys, c);
  }

  /** One turn of the rotation has no repetition and leaves nothing out. */
  lemma OneTurn(answers: seq<Option<Key>>, keys: seq<Key>, c: nat)
    requires keys != [] && Distinct(keys) && |answers| == |keys|
    requires forall k :: 0 <= k < |keys| ==> answers[k] == Some(keys[(c + k) % |keys|])
    ensures Distinct(answers)
    ensures forall j :: 0 <= j < |keys| ==> Some(keys[j]) in answers
  {
    forall k, m | 0 <= k < m < |keys|
      ensures answers[k] != answers[m]
    {
      NoRepeat(c, k, m, |keys|);
    }
    forall j | 0 <= j < |keys|
      ensures Some(keys[j]) in answers
    {
      var k := Arrives(c, j, |keys|);
      assert answers[k] == Some(keys[j]);
    }
  }
}
