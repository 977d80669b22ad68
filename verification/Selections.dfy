/** Order-preserving selection of the members of a sequence, and two facts about joining sequences. */
module Selections {
  lemma Reassociate<T>(a: seq<T>, b: seq<T>, c: seq<T>)
    ensures (a + b) + c == a + (b + c)
  {
  }

  lemma NothingBehind<T>(s: seq<T>)
    ensures s + [] == s
  {
  }

  function Select<T>(p: T -> bool, s: seq<T>): seq<T> {
    if s == [] then []
    else Select(p, s[..|s| - 1]) + (if p(s[|s| - 1]) then [s[|s| - 1]] else [])
  }

  lemma SelectSnoc<T>(p: T -> bool, s: seq<T>, x: T)
    ensures Select(p, s + [x]) == Select(p, s) + (if p(x) then [x] else [])
  {
    assert (s + [x])[..|s|] == s;
  }

  lemma SelectOne<T>(p: T -> bool, x: T)
    ensures Select(p, [x]) == if p(x) then [x] else []
  {
    SelectSnoc(p, [], x);
    assert [] + [x] == [x];
  }

  lemma {:induction false} SelectMembers<T>(p: T -> bool, s: seq<T>)
    ensures forall x :: x in Select(p, s) <==> x in s && p(x)
    ensures |Select(p, s)| <= |s|
  {
    if s != [] {
      assert s == s[..|s| - 1] + [s[|s| - 1]];
      SelectMembers(p, s[..|s| - 1]);
    }
  }

  lemma {:induction false} SelectConcat<T>(p: T -> bool, a: seq<T>, b: seq<T>)
    ensures Select(p, a + b) == Select(p, a) + Select(p, b)
  {
    if b == [] {
      assert a + b == a;
    } else {
      var init, last := b[..|b| - 1], b[|b| - 1];
      assert a + b == (a + init) + [last];
      SelectConcat(p, a, init);
      SelectSnoc(p, a + init, last);
    }
  }

  lemma SelectCons<T>(p: T -> bool, s: seq<T>)
    requires s != []
    ensures Select(p, s) == (if p(s[0]) then [s[0]] else []) + Select(p, s[1..])
  {
    assert s == [s[0]] + s[1..];
    SelectConcat(p, [s[0]], s[1..]);
    SelectOne(p, s[0]);
  }

  lemma {:induction false} SelectCommutes<T>(p: T -> bool, q: T -> bool, s: seq<T>)
    ensures Select(p, Select(q, s)) == Select(q, Select(p, s))
  {
    if s != [] {
      var init, last := s[..|s| - 1], s[|s| - 1];
      SelectCommutes(p, q, init);
      SelectSnoc(p, Select(q, init), last);
      SelectSnoc(q, Select(p, init), last);
      assert Select(q, init) + [] == Select(q, init) && Select(p, init) + [] == Select(p, init);
    }
  }

  lemma {:induction false} SelectAll<T>(p: T -> bool, s: seq<T>)
    requires forall x :: x in s ==> p(x)
    ensures Select(p, s) == s
  {
    if s != [] {
      assert s == s[..|s| - 1] + [s[|s| - 1]];
      SelectAll(p, s[..|s| - 1]);
    }
  }

  lemma {:induction false} SelectNone<T>(p: T -> bool, s: seq<T>)
    requires forall x :: x in s ==> !p(x)
    ensures Select(p, s) == []
  {
    if s != [] {
      assert s == s[..|s| - 1] + [s[|s| - 1]];
      SelectNone(p, s[..|s| - 1]);
    }
  }

  lemma {:induction false} SelectAgree<T>(p: T -> bool, q: T -> bool, s: seq<T>)
    requires forall x :: x in s ==> p(x) == q(x)
    ensures Select(p, s) == Select(q, s)
  {
    if s != [] {
      var init, last := s[..|s| - 1], s[|s| - 1];
      assert s == init + [last];
      SelectAgree(p, q, init);
    }
  }

  /** A selection that keeps whatever p picks can be taken first. */
  lemma {:induction false} SelectWithin<T>(p: T -> bool, q: T -> bool, s: seq<T>)
    requires forall x :: x in s && p(x) ==> q(x)
    ensures Select(p, Select(q, s)) == Select(p, s)
  {
    if s != [] {
      var init, last := s[..|s| - 1], s[|s| - 1];
      assert s == init + [last];
      SelectWithin(p, q, init);
      SelectSnoc(p, Select(q, init), last);
      assert Select(q, init) + [] == Select(q, init);
    }
  }

  ghost function Members<T>(s: seq<T>): set<T> {
    set x | x in s
  }

  ghost predicate Distinct<T>(s: seq<T>) {
    forall i, j :: 0 <= i < j < |s| ==> s[i] != s[j]
  }

  lemma {:induction false} DistinctCounts<T>(s: seq<T>, x: T)
    requires Distinct(s)
    ensures multiset(s)[x] == if x in s then 1 else 0
  {
    if s != [] {
      var init, last := s[..|s| - 1], s[|s| - 1];
      assert s == init + [last];
      DistinctCounts(init, x);
    }
  }

  lemma TwiceIn<T>(s: seq<T>, i: nat, j: nat)
    requires i < j < |s| && s[i] == s[j]
    ensures multiset(s)[s[i]] >= 2
  {
    assert s == s[..j] + ([s[j]] + s[j + 1..]);
    assert s[..j][i] == s[i];
  }

  lemma PermutedKeys<T(!new)>(a: seq<T>, b: seq<T>)
    requires Distinct(a) && multiset(a) == multiset(b)
    ensures Distinct(b) && forall k :: k in b <==> k in a
  {
    forall k ensures k in b <==> k in a {
      assert k in b <==> k in multiset(b);
      assert k in a <==> k in multiset(a);
    }
    forall i, j | 0 <= i < j < |b| ensures b[i] != b[j] {
      DistinctCounts(a, b[i]);
      if b[i] == b[j] {
        TwiceIn(b, i, j);
      }
    }
  }

  ghost predicate ValuesOf<K, V>(f: K -> V, keys: seq<K>, values: seq<V>) {
    |values| == |keys| && forall i :: 0 <= i < |keys| ==> values[i] == f(keys[i])
  }

  /** Values of keys, rearranged, are the values of the keys rearranged alike. */
  lemma {:induction false} Rearranged<K, V>(f: K -> V, keys: seq<K>, values: seq<V>, all: seq<V>)
    returns (order: seq<K>)
    requires ValuesOf(f, keys, values) && multiset(all) == multiset(values)
    ensures ValuesOf(f, order, all) && multiset(order) == multiset(keys)
    decreases |all|
  {
    if all == [] {
      assert |values| == |multiset(values)| == 0;
      order := [];
    } else {
      var n := |all| - 1;
      var i := FindIn(values, all, n);
      OmitValues(f, keys, values, i);
      LastOmitted(all, values, i);
      var rest := Rearranged(f, Omit(keys, i), Omit(values, i), all[..n]);
      order := rest + [keys[i]];
      PutBack(rest, keys, i);
      ValuesSnoc(f, rest, keys[i], all);
    }
  }

  lemma PutBack<T>(rest: seq<T>, s: seq<T>, i: nat)
    requires i < |s| && multiset(rest) == multiset(Omit(s, i))
    ensures multiset(rest + [s[i]]) == multiset(s)
  {
  }

  lemma ValuesSnoc<K, V>(f: K -> V, rest: seq<K>, k: K, all: seq<V>)
    requires all != [] && ValuesOf(f, rest, all[..|all| - 1]) && all[|all| - 1] == f(k)
    ensures ValuesOf(f, rest + [k], all)
  {
  }

  lemma FindIn<T>(s: seq<T>, t: seq<T>, n: nat) returns (i: nat)
    requires multiset(t) == multiset(s) && n < |t|
    ensures i < |s| && s[i] == t[n]
  {
    assert t[n] in multiset(s);
    i :| 0 <= i < |s| && s[i] == t[n];
  }

  lemma OmitValues<K, V>(f: K -> V, keys: seq<K>, values: seq<V>, i: nat)
    requires ValuesOf(f, keys, values) && i < |keys|
    ensures ValuesOf(f, Omit(keys, i), Omit(values, i))
  {
  }

  lemma LastOmitted<T>(all: seq<T>, s: seq<T>, i: nat)
    requires multiset(all) == multiset(s) && all != [] && i < |s| && s[i] == all[|all| - 1]
    ensures multiset(all[..|all| - 1]) == multiset(Omit(s, i))
  {
    assert all == all[..|all| - 1] + [all[|all| - 1]];
  }

  /** All but the i-th. */
  ghost function Omit<T>(s: seq<T>, i: nat): (r: seq<T>)
    requires i < |s|
    ensures |r| == |s| - 1 && forall m :: 0 <= m < |r| ==> r[m] == if m < i then s[m] else s[m + 1]
    ensures multiset(r) == multiset(s) - multiset{s[i]}
  {
    assert s == s[..i] + ([s[i]] + s[i + 1..]);
    s[..i] + s[i + 1..]
  }

  /** Selecting twice is selecting what passes both. */
  lemma {:induction false} SelectTwice<T(!new)>(p: T -> bool, q: T -> bool, both: T -> bool, s: seq<T>)
    requires forall x :: both(x) <==> p(x) && q(x)
    ensures Select(q, Select(p, s)) == Select(both, s)
  {
    if s != [] {
      var init, last := s[..|s| - 1], s[|s| - 1];
      SelectTwice(p, q, both, init);
      SelectSnoc(q, Select(p, init), last);
      assert Select(p, init) + [] == Select(p, init);
    }
  }

  lemma MembersNext<T>(s: seq<T>, i: nat)
    requires i < |s| && Distinct(s)
    ensures s[i] !in Members(s[..i]) && Members(s[..i + 1]) == Members(s[..i]) + {s[i]}
  {
    assert s[..i + 1] == s[..i] + [s[i]];
  }
}
