/** The in-memory response cache: a map of entries and a recency list. */
module LruCache {
  import opened Options
  import opened Selections

  datatype Entry = Entry(key: string, body: string, hitCount: int, storedAt: int)

  datatype Item = Item(entry: Entry, expiresAt: Option<int>)

  /** lru lists the keys, most recently used first. */
  datatype Cache = Cache(items: map<string, Item>, lru: seq<string>, maxItems: nat)

  predicate Expired(item: Item, now: int) {
    item.expiresAt.Some? && now > item.expiresAt.value
  }

  function NotKey(key: string): string -> bool {
    (k: string) => k != key
  }

  function Without(lru: seq<string>, key: string): seq<string> {
    Select(NotKey(key), lru)
  }

  function Bumped(item: Item): Item {
    item.(entry := item.entry.(hitCount := item.entry.hitCount + 1))
  }

  function Dropped(c: Cache, key: string): Cache {
    c.(items := c.items - {key}, lru := Without(c.lru, key))
  }

  /** A hit moves the key to the front and counts; an expired entry is removed. */
  function AfterGet(c: Cache, key: string, now: int): Cache {
    if key !in c.items then c
    else if Expired(c.items[key], now) then Dropped(c, key)
    else c.(items := c.items[key := Bumped(c.items[key])], lru := [key] + Without(c.lru, key))
  }

  function Hit(c: Cache, key: string, now: int): Option<Entry> {
    if key in c.items && !Expired(c.items[key], now) then Some(Bumped(c.items[key]).entry) else None
  }

  function Kept(c: Cache, lru: seq<string>): seq<string>
    requires c.maxItems >= 1
  {
    if |lru| >= c.maxItems then lru[..c.maxItems - 1] else lru
  }

  /** The old entry goes, least recently used keys make room, the new one comes first. */
  function AfterSet(c: Cache, e: Entry, ttl: int, now: int): Cache
    requires c.maxItems >= 1
  {
    var kept := Kept(c, Without(c.lru, e.key));
    var item := Item(e.(storedAt := now), if ttl > 0 then Some(now + ttl) else None);
    Cache((map k | k in c.items && k in kept :: c.items[k])[e.key := item], [e.key] + kept, c.maxItems)
  }

  datatype Op = Get(key: string, now: int) | Set(entry: Entry, ttl: int, now: int) | Delete(key: string) | Purge

  function Apply(c: Cache, op: Op): Cache
    requires c.maxItems >= 1
  {
    match op
    case Get(key, now) => AfterGet(c, key, now)
    case Set(e, ttl, now) => AfterSet(c, e, ttl, now)
    case Delete(key) => if key in c.items then Dropped(c, key) else c
    case Purge => c.(items := map[], lru := [])
  }

  function Run(c: Cache, ops: seq<Op>): (r: Cache)
    requires c.maxItems >= 1
    ensures r.maxItems == c.maxItems
    decreases |ops|
  {
    if ops == [] then c else Run(Apply(c, ops[0]), ops[1..])
  }

  /** Map and list hold the same keys, each once, and no more than fit. */
  ghost predicate Valid(c: Cache) {
    && c.maxItems >= 1
    && Distinct(c.lru)
    && (forall k :: k in c.lru <==> k in c.items)
    && |c.lru| <= c.maxItems
    && (forall k :: k in c.items ==> c.items[k].entry.key == k)
  }

  class MemoryCache {
    var items: map<string, Item>
    var lru: seq<string>
    const maxItems: nat
    var hits: nat
    var misses: nat

    function View(): Cache
      reads this
    {
      Cache(items, lru, maxItems)
    }

    constructor (maxItems: int)
      ensures Valid(View()) && items == map[] && this.maxItems == (if maxItems <= 0 then 10000 else maxItems)
      ensures hits == misses == 0
    {
      items, lru, hits, misses := map[], [], 0, 0;
      this.maxItems := if maxItems <= 0 then 10000 else maxItems;
    }

    method Get(key: string, now: int) returns (e: Option<Entry>)
      requires Valid(View())
      modifies this
      ensures View() == AfterGet(old(View()), key, now) && Valid(View())
      ensures e == Hit(old(View()), key, now)
      ensures if e.Some? then lru != [] && lru[0] == key && key in items && items[key].entry == e.value
        else key !in lru && key !in items
      ensures hits == old(hits) + (if e.Some? then 1 else 0) && misses == old(misses) + (if e.None? then 1 else 0)
    {
      GetKeeps(View(), key, now);
      WithoutFacts(lru, key);
      if key !in items {
        misses := misses + 1;
        return None;
      }
      if Expired(items[key], now) {
        lru := Without(lru, key);
        items := items - {key};
        misses := misses + 1;
        return None;
      }
      lru := [key] + Without(lru, key);
      items := items[key := Bumped(items[key])];
      hits := hits + 1;
      e := Some(items[key].entry);
    }

    /** Evicts from the back until one more key fits. */
    method MakeRoom()
      requires maxItems >= 1 && Distinct(lru) && forall k :: k in lru <==> k in items
      modifies this`items, this`lru
      ensures lru == Kept(old(View()), old(lru))
      ensures forall k :: k in items <==> k in lru
      ensures forall k :: k in items ==> k in old(items) && items[k] == old(items)[k]
    {
      while |lru| >= maxItems
        invariant |lru| <= |old(lru)| && lru == old(lru)[..|lru|] && (|lru| == |old(lru)| || |lru| >= maxItems - 1)
        invariant forall k :: k in lru <==> k in items
        invariant forall k :: k in items ==> k in old(items) && items[k] == old(items)[k]
        decreases |lru|
      {
        var back := lru[|lru| - 1];
        DropLast(lru);
        items := items - {back};
        lru := lru[..|lru| - 1];
      }
    }

    method Set(e: Entry, ttl: int, now: int)
      requires Valid(View())
      modifies this`items, this`lru
      ensures View() == AfterSet(old(View()), e, ttl, now) && Valid(View())
    {
      ghost var c := View();
      SetKeeps(c, e, ttl, now);
      WithoutFacts(lru, e.key);
      lru := Without(lru, e.key);
      items := items - {e.key};
      MakeRoom();
      SetResult(c, e, ttl, now, items, lru);
      items := items[e.key := Item(e.(storedAt := now), if ttl > 0 then Some(now + ttl) else None)];
      lru := [e.key] + lru;
    }

    method Delete(key: string)
      requires Valid(View())
      modifies this`items, this`lru
      ensures View() == Apply(old(View()), Op.Delete(key)) && Valid(View())
      ensures key !in items && key !in lru && forall k :: k != key ==> (k in lru <==> k in old(lru))
      ensures forall k :: k != key ==> (k in items <==> k in old(items)) && (k in items ==> items[k] == old(items)[k])
    {
      if key in items {
        DropKeeps(View(), key);
        WithoutFacts(lru, key);
        lru := Without(lru, key);
        items := items - {key};
      }
    }

    method Purge()
      requires Valid(View())
      modifies this`items, this`lru
      ensures View() == Apply(old(View()), Op.Purge) && Valid(View()) && items == map[] && lru == []
    {
      items, lru := map[], [];
    }
  }

  lemma SetResult(c: Cache, e: Entry, ttl: int, now: int, items: map<string, Item>, lru: seq<string>)
    requires c.maxItems >= 1 && lru == Kept(c, Without(c.lru, e.key))
    requires forall k :: k in items <==> k in lru
    requires forall k :: k in items ==> k in c.items && items[k] == c.items[k]
    ensures Cache(items[e.key := Item(e.(storedAt := now), if ttl > 0 then Some(now + ttl) else None)],
                  [e.key] + lru, c.maxItems)
            == AfterSet(c, e, ttl, now)
  {
    assert items == map k | k in c.items && k in lru :: c.items[k];
  }

  lemma DropLast(s: seq<string>)
    requires Distinct(s) && s != []
    ensures forall k :: k in s[..|s| - 1] <==> k in s && k != s[|s| - 1]
  {
    assert s == s[..|s| - 1] + [s[|s| - 1]];
  }

  // ---- Removing one key from a list of distinct keys.

  lemma {:induction false} SelectDistinct(p: string -> bool, s: seq<string>)
    requires Distinct(s)
    ensures Distinct(Select(p, s))
  {
    if s != [] {
      var init, last := s[..|s| - 1], s[|s| - 1];
      SelectDistinct(p, init);
      SelectMembers(p, init);
      var t := Select(p, init);
      forall i | 0 <= i < |t| ensures t[i] != last {
        assert t[i] in init;
      }
    }
  }

  lemma WithoutFacts(lru: seq<string>, key: string)
    requires Distinct(lru)
    ensures Distinct(Without(lru, key)) && (forall k :: k in Without(lru, key) <==> k in lru && k != key)
    ensures |Without(lru, key)| == |lru| - (if key in lru then 1 else 0)
  {
    SelectDistinct(NotKey(key), lru);
    SelectMembers(NotKey(key), lru);
    WithoutLength(lru, key);
  }

  lemma {:induction false} WithoutLength(lru: seq<string>, key: string)
    requires Distinct(lru)
    ensures |Without(lru, key)| == |lru| - (if key in lru then 1 else 0)
  {
    if lru != [] {
      var init, last := lru[..|lru| - 1], lru[|lru| - 1];
      assert lru == init + [last] && last !in init;
      WithoutLength(init, key);
    }
  }

  lemma DropKeeps(c: Cache, key: string)
    requires Valid(c)
    ensures Valid(Dropped(c, key))
  {
    WithoutFacts(c.lru, key);
  }

  lemma GetKeeps(c: Cache, key: string, now: int)
    requires Valid(c)
    ensures Valid(AfterGet(c, key, now))
  {
    WithoutFacts(c.lru, key);
  }

  lemma SetKeeps(c: Cache, e: Entry, ttl: int, now: int)
    requires Valid(c)
    ensures Valid(AfterSet(c, e, ttl, now))
  {
    WithoutFacts(c.lru, e.key);
    var kept := Kept(c, Without(c.lru, e.key));
    assert forall k :: k in kept ==> k in Without(c.lru, e.key);
  }

  lemma ApplyKeeps(c: Cache, op: Op)
    requires Valid(c)
    ensures Valid(Apply(c, op))
  {
    match op
    case Get(key, now) => GetKeeps(c, key, now);
    case Set(e, ttl, now) => SetKeeps(c, e, ttl, now);
    case Delete(key) => DropKeeps(c, key);
    case Purge =>
  }

  /** On every trace the map and the list agree and the capacity is respected. */
  lemma {:induction false} RunKeeps(c: Cache, ops: seq<Op>)
    requires Valid(c)
    ensures Valid(Run(c, ops))
    decreases |ops|
  {
    if ops != [] {
      ApplyKeeps(c, ops[0]);
      RunKeeps(Apply(c, ops[0]), ops[1..]);
    }
  }

  // ---- A larger cache holds everything a smaller one holds.

  function Among(a: seq<string>): string -> bool {
    (k: string) => k in a
  }

  /** a is what remains of b when the keys not in a are left out. */
  ghost predicate Sublist(a: seq<string>, b: seq<string>) {
    Distinct(b) && a == Select(Among(a), b)
  }

  lemma SublistWithout(a: seq<string>, b: seq<string>, key: string)
    requires Sublist(a, b)
    ensures Sublist(Without(a, key), Without(b, key))
  {
    SelectDistinct(NotKey(key), b);
    SelectMembers(NotKey(key), a);
    SelectMembers(NotKey(key), b);
    SelectCommutes(NotKey(key), Among(a), b);
    SelectAgree(Among(a), Among(Without(a, key)), Without(b, key));
  }

  lemma SublistWithoutLarge(a: seq<string>, b: seq<string>, key: string)
    requires Sublist(a, b) && key !in a
    ensures Sublist(a, Without(b, key)) && Without(a, key) == a
  {
    SelectDistinct(NotKey(key), b);
    SelectWithin(Among(a), NotKey(key), b);
    SelectAll(NotKey(key), a);
  }

  lemma SublistPush(a: seq<string>, b: seq<string>, key: string)
    requires Sublist(a, b) && key !in b && key !in a
    ensures Sublist([key] + a, [key] + b) && Sublist(a, [key] + b)
  {
    var s := [key] + b;
    assert s[1..] == b;
    SelectCons(Among([key] + a), s);
    SelectAgree(Among(a), Among([key] + a), b);
    SelectCons(Among(a), s);
    assert [] + Select(Among(a), b) == Select(Among(a), b);
  }

  lemma SublistMembers(a: seq<string>, b: seq<string>)
    requires Sublist(a, b)
    ensures forall k :: k in a ==> k in b
    ensures Distinct(a) && |a| <= |b|
  {
    SelectMembers(Among(a), b);
    SelectDistinct(Among(a), b);
  }

  /** Dropping the last key of the smaller list, and of both lists. */
  lemma SublistInit(a: seq<string>, b: seq<string>)
    requires Sublist(a, b) && a != []
    ensures Sublist(a[..|a| - 1], b)
    ensures Sublist(a[..|a| - 1], b[..|b| - 1])
  {
    SublistMembers(a, b);
    DropLast(a);
    var init, last := a[..|a| - 1], a[|a| - 1];
    assert a == init + [last];
    assert init == Without(a, last) by {
      SelectSnoc(NotKey(last), init, last);
      SelectAll(NotKey(last), init);
      assert init + [] == init;
    }
    SelectCommutes(NotKey(last), Among(a), b);
    SelectTwo(a, init, last, b);
    SublistShorter(init, a, b);
  }

  lemma {:induction false} SelectTwo(a: seq<string>, init: seq<string>, last: string, b: seq<string>)
    requires forall k :: k in init <==> k in a && k != last
    ensures Select(NotKey(last), Select(Among(a), b)) == Select(Among(init), b)
  {
    if b != [] {
      var bi, bl := b[..|b| - 1], b[|b| - 1];
      SelectTwo(a, init, last, bi);
      SelectSnoc(NotKey(last), Select(Among(a), bi), bl);
      assert Select(Among(a), bi) + [] == Select(Among(a), bi);
    }
  }

  lemma SublistShorter(init: seq<string>, a: seq<string>, b: seq<string>)
    requires Sublist(a, b) && a != [] && init == a[..|a| - 1] && Distinct(a) && b != []
      && init == Select(Among(init), b)
    ensures Sublist(init, b[..|b| - 1])
  {
    var bi, bl := b[..|b| - 1], b[|b| - 1];
    DropLast(a);
    if bl in a {
      assert Select(Among(a), b) == Select(Among(a), bi) + [bl];
      assert a[|a| - 1] == bl;
    }
    assert bl !in init;
    assert Select(Among(init), b) == Select(Among(init), bi) + [];
  }

  /** small's keys are a sublist of large's with the same entries, and the lists differ in length
      by no more than the capacities do. */
  ghost predicate Included(small: Cache, large: Cache) {
    && small.maxItems <= large.maxItems
    && Sublist(small.lru, large.lru)
    && (forall k :: k in small.items ==> k in large.items && small.items[k] == large.items[k])
    && |large.lru| - |small.lru| <= large.maxItems - small.maxItems
  }

  lemma DropIncluded(small: Cache, large: Cache, key: string)
    requires Valid(small) && Valid(large) && Included(small, large)
    ensures Included(if key in small.items then Dropped(small, key) else small, Dropped(large, key))
  {
    if key in small.items {
      DropBoth(small, large, key);
    } else {
      DropLarge(small, large, key);
    }
  }

  lemma DropBoth(small: Cache, large: Cache, key: string)
    requires Valid(small) && Valid(large) && Included(small, large) && key in small.items
    ensures Included(Dropped(small, key), Dropped(large, key))
  {
    WithoutFacts(small.lru, key);
    WithoutFacts(large.lru, key);
    SublistWithout(small.lru, large.lru, key);
    assert key in small.lru && key in large.lru;
  }

  lemma DropLarge(small: Cache, large: Cache, key: string)
    requires Valid(small) && Valid(large) && Included(small, large) && key !in small.items
    ensures Included(small, Dropped(large, key))
  {
    WithoutFacts(large.lru, key);
    assert key !in small.lru;
    SublistWithoutLarge(small.lru, large.lru, key);
  }

  lemma GetIncluded(small: Cache, large: Cache, key: string, now: int)
    requires Valid(small) && Valid(large) && Included(small, large)
    ensures Included(AfterGet(small, key, now), AfterGet(large, key, now))
    ensures Hit(small, key, now).Some? ==> Hit(large, key, now) == Hit(small, key, now)
  {
    if key in large.items {
      if Expired(large.items[key], now) {
        DropIncluded(small, large, key);
      } else {
        WithoutFacts(small.lru, key);
        WithoutFacts(large.lru, key);
        SublistWithout(small.lru, large.lru, key);
        SublistPush(Without(small.lru, key), Without(large.lru, key), key);
        if key !in small.items {
          SublistWithoutLarge(small.lru, large.lru, key);
        }
      }
    }
  }

  lemma KeptIncluded(a: seq<string>, b: seq<string>, small: Cache, large: Cache)
    requires Sublist(a, b) && 1 <= small.maxItems <= large.maxItems && |a| <= small.maxItems && |b| <= large.maxItems
    requires |b| - |a| <= large.maxItems - small.maxItems
    ensures Sublist(Kept(small, a), Kept(large, b))
    ensures |Kept(large, b)| - |Kept(small, a)| <= large.maxItems - small.maxItems
  {
    if |a| == small.maxItems {
      SublistInit(a, b);
    } else {
      assert Kept(small, a) == a && Kept(large, b) == b;
    }
  }

  lemma SetListsIncluded(small: Cache, large: Cache, key: string)
    requires Valid(small) && Valid(large) && Included(small, large)
    ensures var a, b := Kept(small, Without(small.lru, key)), Kept(large, Without(large.lru, key));
            && Sublist([key] + a, [key] + b) && (forall k :: k in a ==> k in b)
            && |b| - |a| <= large.maxItems - small.maxItems
  {
    WithoutFacts(small.lru, key);
    WithoutFacts(large.lru, key);
    SublistMembers(small.lru, large.lru);
    SublistWithout(small.lru, large.lru, key);
    var a, b := Without(small.lru, key), Without(large.lru, key);
    KeptIncluded(a, b, small, large);
    SublistPush(Kept(small, a), Kept(large, b), key);
    SublistMembers(Kept(small, a), Kept(large, b));
  }

  lemma SetIncluded(small: Cache, large: Cache, e: Entry, ttl: int, now: int)
    requires Valid(small) && Valid(large) && Included(small, large)
    ensures Included(AfterSet(small, e, ttl, now), AfterSet(large, e, ttl, now))
  {
    SetListsIncluded(small, large, e.key);
  }

  lemma ApplyIncluded(small: Cache, large: Cache, op: Op)
    requires Valid(small) && Valid(large) && Included(small, large)
    ensures Included(Apply(small, op), Apply(large, op))
  {
    match op
    case Get(key, now) => GetIncluded(small, large, key, now);
    case Set(e, ttl, now) => SetIncluded(small, large, e, ttl, now);
    case Delete(key) => DropIncluded(small, large, key);
    case Purge =>
  }

  /** On any common trace, growing the capacity loses no entry and no hit. */
  lemma {:induction false} LargerCacheIncludes(small: Cache, large: Cache, ops: seq<Op>, key: string, now: int)
    requires Valid(small) && Valid(large) && Included(small, large)
    ensures Included(Run(small, ops), Run(large, ops))
    ensures Hit(Run(small, ops), key, now).Some? ==> Hit(Run(large, ops), key, now) == Hit(Run(small, ops), key, now)
    decreases |ops|
  {
    if ops == [] {
      GetIncluded(small, large, key, now);
    } else {
      ApplyKeeps(small, ops[0]);
      ApplyKeeps(large, ops[0]);
      ApplyIncluded(small, large, ops[0]);
      LargerCacheIncludes(Apply(small, ops[0]), Apply(large, ops[0]), ops[1..], key, now);
    }
  }

  // ---- How long a key survives.

  /** Only keys of the given set lie in front of key. */
  ghost predicate BehindOnly(lru: seq<string>, key: string, ahead: set<string>) {
    exists pre, post :: Split(lru, key, ahead, pre, post)
  }

  ghost predicate Split(lru: seq<string>, key: string, ahead: set<string>, pre: seq<string>, post: seq<string>) {
    lru == pre + [key] + post && forall k :: k in pre ==> k in ahead
  }

  /** The keys that an operation sets or hits. */
  function Touches(c: Cache, op: Op): set<string> {
    match op
    case Get(key, now) => if Hit(c, key, now).Some? then {key} else {}
    case Set(e, _, _) => {e.key}
    case Delete(_) => {}
    case Purge => {}
  }

  function TouchedBy(c: Cache, ops: seq<Op>): set<string>
    requires c.maxItems >= 1
    decreases |ops|
  {
    if ops == [] then {} else Touches(c, ops[0]) + TouchedBy(Apply(c, ops[0]), ops[1..])
  }

  /** key is not deleted, not purged, and not looked up after it expired. */
  predicate Spared(c: Cache, key: string, ops: seq<Op>)
    requires c.maxItems >= 1
    decreases |ops|
  {
    ops == [] ||
    (ops[0] != Delete(key) && ops[0] != Purge && (ops[0].Get? && ops[0].key == key ==> Hit(c, key, ops[0].now).Some?)
     && Spared(Apply(c, ops[0]), key, ops[1..]))
  }

  lemma {:induction false} DistinctBound(s: seq<string>, t: set<string>)
    requires Distinct(s) && forall k :: k in s ==> k in t
    ensures |s| <= |t|
  {
    if s != [] {
      var init, last := s[..|s| - 1], s[|s| - 1];
      assert s == init + [last];
      forall k | k in init ensures k in t - {last} {
        assert k in s;
      }
      DistinctBound(init, t - {last});
      assert last in s;
    }
  }

  lemma WithoutBehind(lru: seq<string>, key: string, ahead: set<string>, other: string)
    requires BehindOnly(lru, key, ahead) && other != key
    ensures BehindOnly(Without(lru, other), key, ahead - {other})
  {
    var pre, post :| Split(lru, key, ahead, pre, post);
    SelectConcat(NotKey(other), pre + [key], post);
    SelectConcat(NotKey(other), pre, [key]);
    SelectOne(NotKey(other), key);
    SelectMembers(NotKey(other), pre);
    assert Split(Without(lru, other), key, ahead - {other}, Without(pre, other), Without(post, other));
  }

  lemma PushBehind(lru: seq<string>, key: string, ahead: set<string>, other: string)
    requires BehindOnly(lru, key, ahead)
    ensures BehindOnly([other] + lru, key, ahead + {other})
  {
    var pre, post :| Split(lru, key, ahead, pre, post);
    assert [other] + lru == ([other] + pre) + [key] + post;
    assert Split([other] + lru, key, ahead + {other}, [other] + pre, post);
  }

  lemma FrontBehind(lru: seq<string>, key: string, ahead: set<string>)
    ensures BehindOnly([key] + lru, key, ahead)
  {
    assert [key] + lru == [] + [key] + lru;
    assert Split([key] + lru, key, ahead, [], lru);
  }

  lemma KeptBehind(c: Cache, lru: seq<string>, key: string, ahead: set<string>)
    requires c.maxItems >= 1 && Distinct(lru) && BehindOnly(lru, key, ahead) && |ahead| + 1 < c.maxItems
    ensures BehindOnly(Kept(c, lru), key, ahead)
  {
    var pre, post :| Split(lru, key, ahead, pre, post);
    forall i, j | 0 <= i < j < |pre| ensures pre[i] != pre[j] {
      assert lru[i] == pre[i] && lru[j] == pre[j];
    }
    DistinctBound(pre, ahead);
    if |lru| >= c.maxItems {
      var n := c.maxItems - 1 - |pre| - 1;
      assert lru[..c.maxItems - 1] == pre + [key] + post[..n];
      assert Split(Kept(c, lru), key, ahead, pre, post[..n]);
    }
  }

  lemma WiderAhead(lru: seq<string>, key: string, a: set<string>, b: set<string>)
    requires BehindOnly(lru, key, a) && a <= b
    ensures BehindOnly(lru, key, b)
  {
    var pre, post :| Split(lru, key, a, pre, post);
    assert Split(lru, key, b, pre, post);
  }

  lemma SetBehind(c: Cache, key: string, ahead: set<string>, op: Op)
    requires Valid(c) && BehindOnly(c.lru, key, ahead) && op.Set? && op.entry.key != key
    requires |ahead + {op.entry.key}| < c.maxItems
    ensures BehindOnly(Apply(c, op).lru, key, ahead + {op.entry.key})
  {
    var other := op.entry.key;
    var lru := Without(c.lru, other);
    WithoutFacts(c.lru, other);
    WithoutBehind(c.lru, key, ahead, other);
    assert |ahead - {other}| + 1 == |(ahead - {other}) + {other}| && (ahead - {other}) + {other} == ahead + {other};
    KeptBehind(c, lru, key, ahead - {other});
    PushBehind(Kept(c, lru), key, ahead - {other}, other);
  }

  lemma ApplyBehind(c: Cache, key: string, ahead: set<string>, op: Op)
    requires Valid(c) && BehindOnly(c.lru, key, ahead) && key !in ahead
    requires op != Delete(key) && op != Purge && (op.Get? && op.key == key ==> Hit(c, key, op.now).Some?)
    requires |ahead + (Touches(c, op) - {key})| < c.maxItems
    ensures BehindOnly(Apply(c, op).lru, key, ahead + (Touches(c, op) - {key}))
  {
    var wide := ahead + (Touches(c, op) - {key});
    match op
    case Get(k, now) =>
      GetBehind(c, key, ahead, k, now, wide);
    case Set(e, _, _) =>
      if e.key == key {
        FrontBehind(Kept(c, Without(c.lru, key)), key, wide);
      } else {
        assert wide == ahead + {e.key};
        SetBehind(c, key, ahead, op);
      }
    case Delete(k) =>
      assert wide == ahead;
      if k in c.items {
        WithoutBehind(c.lru, key, ahead, k);
        WiderAhead(Without(c.lru, k), key, ahead - {k}, ahead);
      }
  }

  lemma GetBehind(c: Cache, key: string, ahead: set<string>, k: string, now: int, wide: set<string>)
    requires BehindOnly(c.lru, key, ahead) && (k == key ==> Hit(c, key, now).Some?)
    requires ahead <= wide && (k != key && Hit(c, k, now).Some? ==> k in wide)
    ensures BehindOnly(AfterGet(c, k, now).lru, key, wide)
  {
    if k !in c.items {
      WiderAhead(c.lru, key, ahead, wide);
    } else if k == key {
      FrontBehind(Without(c.lru, key), key, wide);
    } else {
      WithoutBehind(c.lru, key, ahead, k);
      if Hit(c, k, now).Some? {
        PushBehind(Without(c.lru, k), key, ahead - {k}, k);
        WiderAhead([k] + Without(c.lru, k), key, ahead - {k} + {k}, wide);
      } else {
        WiderAhead(Without(c.lru, k), key, ahead - {k}, wide);
      }
    }
  }

  /** A key is still there while fewer than maxItems other keys were set or hit since it was at the
      front (ahead: those touched already). */
  lemma {:induction false} Survives(c: Cache, key: string, ahead: set<string>, ops: seq<Op>)
    requires Valid(c) && BehindOnly(c.lru, key, ahead) && key !in ahead && Spared(c, key, ops)
    requires |ahead + (TouchedBy(c, ops) - {key})| < c.maxItems
    ensures key in Run(c, ops).items
    decreases |ops|
  {
    if ops == [] {
      BehindIsThere(c.lru, key, ahead);
    } else {
      var next := Apply(c, ops[0]);
      var wide := ahead + (Touches(c, ops[0]) - {key});
      var later := TouchedBy(next, ops[1..]);
      AllTouched(ahead, Touches(c, ops[0]), later, key);
      ApplyKeeps(c, ops[0]);
      ApplyBehind(c, key, ahead, ops[0]);
      Survives(next, key, wide, ops[1..]);
    }
  }

  lemma AllTouched(ahead: set<string>, now: set<string>, later: set<string>, key: string)
    ensures ahead + (now + later - {key}) == ahead + (now - {key}) + (later - {key})
    ensures |ahead + (now - {key})| <= |ahead + (now + later - {key})|
  {
    Subset(ahead + (now - {key}), ahead + (now + later - {key}));
  }

  lemma BehindIsThere(lru: seq<string>, key: string, ahead: set<string>)
    requires BehindOnly(lru, key, ahead)
    ensures key in lru
  {
    var pre, post :| Split(lru, key, ahead, pre, post);
    assert lru[|pre|] == key;
  }

  lemma Subset(a: set<string>, b: set<string>)
    requires a <= b
    ensures |a| <= |b|
  {
    assert b == a + (b - a);
  }

  /** Set or hit last, a key outlives any trace that spares it and touches fewer than maxItems others. */
  lemma SurvivesAfterUse(c: Cache, op: Op, key: string, ops: seq<Op>)
    requires Valid(c)
    requires (op.Set? && op.entry.key == key) || (op.Get? && op.key == key && Hit(c, key, op.now).Some?)
    requires Spared(Apply(c, op), key, ops)
    requires |TouchedBy(Apply(c, op), ops) - {key}| < c.maxItems
    ensures key in Run(Apply(c, op), ops).items
  {
    ApplyKeeps(c, op);
    var d := Apply(c, op);
    assert BehindOnly(d.lru, key, {}) by {
      if op.Set? {
        FrontBehind(Kept(c, Without(c.lru, key)), key, {});
      } else {
        FrontBehind(Without(c.lru, key), key, {});
      }
    }
    assert {} + (TouchedBy(d, ops) - {key}) == TouchedBy(d, ops) - {key};
    Survives(d, key, {}, ops);
  }

  // ---- What a hit returns.

  /** The key that an operation names to get or set it. */
  function Named(op: Op): set<string> {
    match op
    case Get(key, _) => {key}
    case Set(e, _, _) => {e.key}
    case _ => {}
  }

  function NamedIn(ops: seq<Op>): set<string> {
    if ops == [] then {} else Named(ops[0]) + NamedIn(ops[1..])
  }

  function GetsOf(ops: seq<Op>, key: string): nat {
    if ops == [] then 0 else (if ops[0].Get? && ops[0].key == key then 1 else 0) + GetsOf(ops[1..], key)
  }

  /** The operation neither replaces nor removes the key, nor looks it up behind the deadline. */
  predicate Leaves(op: Op, key: string, deadline: Option<int>) {
    match op
    case Get(k, now) => k == key && deadline.Some? ==> now <= deadline.value
    case Set(e, _, _) => e.key != key
    case Delete(k) => k != key
    case Purge => false
  }

  function Counted(item: Item, n: nat): Item {
    item.(entry := item.entry.(hitCount := item.entry.hitCount + n))
  }

  /** Every operation leaves the key, which few enough others are ahead of. */
  ghost predicate AllLeave(ops: seq<Op>, key: string, deadline: Option<int>, ahead: set<string>, maxItems: nat) {
    |ahead + (NamedIn(ops) - {key})| < maxItems && forall i :: 0 <= i < |ops| ==> Leaves(ops[i], key, deadline)
  }

  lemma RestLeaves(ops: seq<Op>, key: string, deadline: Option<int>, ahead: set<string>, maxItems: nat)
    requires ops != [] && AllLeave(ops, key, deadline, ahead, maxItems)
    ensures Leaves(ops[0], key, deadline) && |ahead + (Named(ops[0]) - {key})| < maxItems
    ensures AllLeave(ops[1..], key, deadline, ahead + (Named(ops[0]) - {key}), maxItems)
  {
    AllTouched(ahead, Named(ops[0]), NamedIn(ops[1..]), key);
  }

  /** The key's item is there, behind no more than the given keys. */
  ghost predicate Present(c: Cache, key: string, ahead: set<string>, item: Item) {
    Valid(c) && BehindOnly(c.lru, key, ahead) && key !in ahead && key in c.items && c.items[key] == item
  }

  lemma LeavesIt(c: Cache, key: string, ahead: set<string>, op: Op, item: Item)
    requires Present(c, key, ahead, item)
    requires Leaves(op, key, item.expiresAt) && |ahead + (Named(op) - {key})| < c.maxItems
    ensures Present(Apply(c, op), key, ahead + (Named(op) - {key}),
                    Counted(item, if op.Get? && op.key == key then 1 else 0))
  {
    var d := Apply(c, op);
    var near, wide := ahead + (Touches(c, op) - {key}), ahead + (Named(op) - {key});
    Subset(near, wide);
    ApplyKeeps(c, op);
    ApplyBehind(c, key, ahead, op);
    BehindIsThere(d.lru, key, near);
    WiderAhead(d.lru, key, near, wide);
  }

  lemma FirstLeaves(c: Cache, key: string, ahead: set<string>, ops: seq<Op>, item: Item)
    requires ops != [] && Present(c, key, ahead, item) && AllLeave(ops, key, item.expiresAt, ahead, c.maxItems)
    ensures Present(Apply(c, ops[0]), key, ahead + (Named(ops[0]) - {key}),
                    Counted(item, if ops[0].Get? && ops[0].key == key then 1 else 0))
  {
    RestLeaves(ops, key, item.expiresAt, ahead, c.maxItems);
    LeavesIt(c, key, ahead, ops[0], item);
  }

  lemma OthersLeave(c: Cache, key: string, ahead: set<string>, ops: seq<Op>, item: Item, item': Item)
    requires ops != [] && c.maxItems >= 1 && AllLeave(ops, key, item.expiresAt, ahead, c.maxItems)
    requires item'.expiresAt == item.expiresAt
    ensures AllLeave(ops[1..], key, item'.expiresAt, ahead + (Named(ops[0]) - {key}), Apply(c, ops[0]).maxItems)
  {
    RestLeaves(ops, key, item.expiresAt, ahead, c.maxItems);
  }

  lemma {:induction false} LeftAlone(c: Cache, key: string, ahead: set<string>, ops: seq<Op>, item: Item)
    requires Present(c, key, ahead, item) && AllLeave(ops, key, item.expiresAt, ahead, c.maxItems)
    ensures key in Run(c, ops).items && Run(c, ops).items[key] == Counted(item, GetsOf(ops, key))
    decreases |ops|
  {
    if ops != [] {
      var item' := Counted(item, if ops[0].Get? && ops[0].key == key then 1 else 0);
      FirstLeaves(c, key, ahead, ops, item);
      OthersLeave(c, key, ahead, ops, item, item');
      LeftAlone(Apply(c, ops[0]), key, ahead + (Named(ops[0]) - {key}), ops[1..], item');
    }
  }

  /** Fewer than maxItems other keys are named, and every operation leaves the key. */
  ghost predicate FewLeave(ops: seq<Op>, key: string, deadline: Option<int>, maxItems: nat) {
    |NamedIn(ops) - {key}| < maxItems && forall i :: 0 <= i < |ops| ==> Leaves(ops[i], key, deadline)
  }

  /** A lookup returns the entry as it was stored, now with n + 1 hits, and nothing once the time to live is over;
      without a time to live the entry never expires. */
  ghost predicate Returns(d: Cache, e: Entry, ttl: int, stored: int, n: nat, now: int) {
    Hit(d, e.key, now) ==
      if ttl > 0 && now > stored + ttl then None else Some(e.(storedAt := stored, hitCount := e.hitCount + n + 1))
  }

  /** While the key is left alone and fewer than maxItems other keys are named, a lookup returns what was stored. */
  lemma StoredIsServed(c: Cache, e: Entry, ttl: int, stored: int, ops: seq<Op>, now: int)
    requires Valid(c) && FewLeave(ops, e.key, if ttl > 0 then Some(stored + ttl) else None, c.maxItems)
    ensures Returns(Run(AfterSet(c, e, ttl, stored), ops), e, ttl, stored, GetsOf(ops, e.key), now)
  {
    var item := Item(e.(storedAt := stored), if ttl > 0 then Some(stored + ttl) else None);
    LeftSince(c, e, ttl, stored, ops, item);
    AsStored(Run(AfterSet(c, e, ttl, stored), ops), e, ttl, stored, item, GetsOf(ops, e.key), now);
  }

  lemma LeftSince(c: Cache, e: Entry, ttl: int, stored: int, ops: seq<Op>, item: Item)
    requires Valid(c) && item == Item(e.(storedAt := stored), if ttl > 0 then Some(stored + ttl) else None)
    requires FewLeave(ops, e.key, if ttl > 0 then Some(stored + ttl) else None, c.maxItems)
    ensures var d := Run(AfterSet(c, e, ttl, stored), ops);
      e.key in d.items && d.items[e.key] == Counted(item, GetsOf(ops, e.key))
  {
    assert {} + (NamedIn(ops) - {e.key}) == NamedIn(ops) - {e.key};
    JustSet(c, e, ttl, stored, ops, item);
    LeftAlone(AfterSet(c, e, ttl, stored), e.key, {}, ops, item);
  }

  lemma AsStored(d: Cache, e: Entry, ttl: int, stored: int, item: Item, n: nat, now: int)
    requires item == Item(e.(storedAt := stored), if ttl > 0 then Some(stored + ttl) else None)
    requires e.key in d.items && d.items[e.key] == Counted(item, n)
    ensures Returns(d, e, ttl, stored, n, now)
  {
  }

  lemma JustSet(c: Cache, e: Entry, ttl: int, stored: int, ops: seq<Op>, item: Item)
    requires Valid(c) && item == Item(e.(storedAt := stored), if ttl > 0 then Some(stored + ttl) else None)
    requires AllLeave(ops, e.key, if ttl > 0 then Some(stored + ttl) else None, {}, c.maxItems)
    ensures Present(AfterSet(c, e, ttl, stored), e.key, {}, item)
    ensures AllLeave(ops, e.key, item.expiresAt, {}, AfterSet(c, e, ttl, stored).maxItems)
  {
    SetKeeps(c, e, ttl, stored);
    FrontBehind(Kept(c, Without(c.lru, e.key)), e.key, {});
  }

  /** The bound is tight: setting maxItems other keys evicts everything older. */
  lemma {:induction false} SetsFill(c: Cache, entries: seq<Entry>, now: int)
    requires Valid(c) && |entries| <= c.maxItems
    requires forall i, j :: 0 <= i < j < |entries| ==> entries[i].key != entries[j].key
    ensures var d := Run(c, Sets(entries, now)); Valid(d) && InFront(d, entries)
  {
    if entries != [] {
      var init, e := entries[..|entries| - 1], entries[|entries| - 1];
      SetsFill(c, init, now);
      var d := Run(c, Sets(init, now));
      RunKeeps(c, Sets(init, now));
      RunSnoc(c, Sets(init, now), Set(e, 0, now));
      SetKeeps(d, e, 0, now);
      SetInFront(d, entries, now);
    }
  }

  /** The entries' keys lead the recency list, latest first. */
  ghost predicate InFront(d: Cache, entries: seq<Entry>) {
    |d.lru| >= |entries| && forall i :: 0 <= i < |entries| ==> d.lru[i] == entries[|entries| - 1 - i].key
  }

  lemma SetInFront(d: Cache, entries: seq<Entry>, now: int)
    requires Valid(d) && 0 < |entries| <= d.maxItems && InFront(d, entries[..|entries| - 1])
    requires forall i, j :: 0 <= i < j < |entries| ==> entries[i].key != entries[j].key
    ensures InFront(AfterSet(d, entries[|entries| - 1], 0, now), entries)
  {
    var n, e := |entries| - 1, entries[|entries| - 1];
    PrefixWithout(d.lru, n, e.key);
    var f := AfterSet(d, e, 0, now);
    forall i | 0 <= i < |entries|
      ensures f.lru[i] == entries[n - i].key
    {
      if i > 0 {
        assert f.lru[i] == d.lru[i - 1];
      }
    }
  }

  lemma PrefixWithout(lru: seq<string>, n: nat, key: string)
    requires n <= |lru| && forall i :: 0 <= i < n ==> lru[i] != key
    ensures |Without(lru, key)| >= n && forall i :: 0 <= i < n ==> Without(lru, key)[i] == lru[i]
  {
    assert lru == lru[..n] + lru[n..];
    SelectConcat(NotKey(key), lru[..n], lru[n..]);
    SelectAll(NotKey(key), lru[..n]);
  }

  function Sets(entries: seq<Entry>, now: int): seq<Op> {
    if entries == [] then [] else Sets(entries[..|entries| - 1], now) + [Set(entries[|entries| - 1], 0, now)]
  }

  lemma {:induction false} RunSnoc(c: Cache, ops: seq<Op>, op: Op)
    requires c.maxItems >= 1
    ensures Run(c, ops + [op]) == Apply(Run(c, ops), op)
    decreases |ops|
  {
    if ops != [] {
      assert (ops + [op])[1..] == ops[1..] + [op];
      RunSnoc(Apply(c, ops[0]), ops[1..], op);
    } else {
      assert (ops + [op])[1..] == [];
    }
  }

  /** After maxItems sets of distinct other keys, key is gone. */
  lemma EvictedAfterMaxItems(c: Cache, key: string, entries: seq<Entry>, now: int)
    requires Valid(c) && |entries| == c.maxItems
    requires forall i, j :: 0 <= i < j < |entries| ==> entries[i].key != entries[j].key
    requires forall i :: 0 <= i < |entries| ==> entries[i].key != key
    ensures key !in Run(c, Sets(entries, now)).items
  {
    SetsFill(c, entries, now);
    var d := Run(c, Sets(entries, now));
    assert |d.lru| == |entries|;
    forall k | k in d.lru ensures k != key {
      var i :| 0 <= i < |d.lru| && d.lru[i] == k;
    }
  }
}
