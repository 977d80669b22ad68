/** What a newest-first listing of an append-only sequence of rows is. */
module QueryOrder {
  import opened LogRows
  import opened Selections

  ghost function Reverse(s: seq<Row>): seq<Row> {
    if s == [] then [] else [s[|s| - 1]] + Reverse(s[..|s| - 1])
  }

  /** A newer row goes before every row that is not from a later second. */
  function InsertNewest(listing: seq<Row>, r: Row): seq<Row> {
    if listing == [] || listing[0].created <= r.created then [r] + listing
    else [listing[0]] + InsertNewest(listing[1..], r)
  }

  /** Created second descending, then insertion order descending. */
  function NewestFirst(rows: seq<Row>): seq<Row> {
    if rows == [] then [] else InsertNewest(NewestFirst(rows[..|rows| - 1]), rows[|rows| - 1])
  }

  ghost predicate Descending(s: seq<Row>) {
    forall i, j :: 0 <= i < j < |s| ==> s[i].created >= s[j].created
  }

  /** listing orders rows by second, descending, and rows of one second last-inserted first. */
  ghost predicate Lists(listing: seq<Row>, rows: seq<Row>) {
    && Descending(listing)
    && multiset(listing) == multiset(rows)
    && forall c :: Select(InSecond(c), listing) == Reverse(Select(InSecond(c), rows))
  }

  lemma {:induction false} InsertMembers(listing: seq<Row>, r: Row)
    ensures multiset(InsertNewest(listing, r)) == multiset(listing) + multiset{r}
  {
    if !(listing == [] || listing[0].created <= r.created) {
      InsertMembers(listing[1..], r);
      assert listing == [listing[0]] + listing[1..];
    }
  }

  lemma {:induction false} InsertKeepsDescending(listing: seq<Row>, r: Row)
    requires Descending(listing)
    ensures Descending(InsertNewest(listing, r))
  {
    if !(listing == [] || listing[0].created <= r.created) {
      InsertKeepsDescending(listing[1..], r);
      InsertMembers(listing[1..], r);
      var t := InsertNewest(listing[1..], r);
      forall i | 0 <= i < |t| ensures t[i].created <= listing[0].created {
        assert t[i] in multiset(t);
      }
    }
  }

  lemma {:induction false} InsertSelected(listing: seq<Row>, r: Row, c: int)
    ensures Select(InSecond(c), InsertNewest(listing, r)) ==
            (if r.created == c then [r] else []) + Select(InSecond(c), listing)
  {
    var t := InsertNewest(listing, r);
    SelectCons(InSecond(c), t);
    if listing == [] || listing[0].created <= r.created {
      assert t[1..] == listing;
    } else {
      assert t[1..] == InsertNewest(listing[1..], r);
      InsertSelected(listing[1..], r, c);
      SelectCons(InSecond(c), listing);
      var later := Select(InSecond(c), listing[1..]);
      assert [] + later == later && [] + ([r] + later) == [r] + later;
    }
  }

  /** The insertion definition meets the declarative one. */
  lemma {:induction false} NewestFirstLists(rows: seq<Row>)
    ensures Lists(NewestFirst(rows), rows)
  {
    if rows != [] {
      var init, last := rows[..|rows| - 1], rows[|rows| - 1];
      assert rows == init + [last];
      NewestFirstLists(init);
      InsertKeepsDescending(NewestFirst(init), last);
      InsertMembers(NewestFirst(init), last);
      forall c ensures Select(InSecond(c), NewestFirst(rows)) == Reverse(Select(InSecond(c), rows)) {
        InsertSelected(NewestFirst(init), last, c);
        SelectSnoc(InSecond(c), init, last);
        var sel := Select(InSecond(c), init);
        assert (sel + [last])[..|sel|] == sel && sel + [] == sel;
        assert Select(InSecond(c), NewestFirst(init)) == Reverse(sel);
        assert [] + Reverse(sel) == Reverse(sel);
      }
    }
  }

  /** A descending listing is determined by its rows of each second. */
  lemma {:induction false} ListingDetermined(a: seq<Row>, b: seq<Row>)
    requires Descending(a) && Descending(b)
    requires forall c :: Select(InSecond(c), a) == Select(InSecond(c), b)
    ensures a == b
  {
    if a == [] {
      if b != [] {
        HeadsAgree(b, a);
      }
    } else {
      HeadsAgree(a, b);
      forall c ensures Select(InSecond(c), a[1..]) == Select(InSecond(c), b[1..]) {
        SelectCons(InSecond(c), a);
        SelectCons(InSecond(c), b);
        var head := if a[0].created == c then [a[0]] else [];
        assert head + Select(InSecond(c), a[1..]) == head + Select(InSecond(c), b[1..]);
        SameTail(head, Select(InSecond(c), a[1..]), Select(InSecond(c), b[1..]));
      }
      ListingDetermined(a[1..], b[1..]);
    }
  }

  lemma SameTail(h: seq<Row>, s: seq<Row>, t: seq<Row>)
    requires h + s == h + t
    ensures s == t
  {
    assert s == (h + s)[|h|..] && t == (h + t)[|h|..];
  }

  lemma HeadsAgree(a: seq<Row>, b: seq<Row>)
    requires Descending(a) && Descending(b) && a != []
    requires forall c :: Select(InSecond(c), a) == Select(InSecond(c), b)
    ensures b != [] && a[0] == b[0]
  {
    var c := a[0].created;
    SelectMembers(InSecond(c), a);
    SelectMembers(InSecond(c), b);
    assert a[0] in Select(InSecond(c), b);
    SelectMembers(InSecond(b[0].created), a);
    SelectMembers(InSecond(b[0].created), b);
    assert b[0] in Select(InSecond(b[0].created), a);
    assert b[0].created == c;
    SelectCons(InSecond(c), a);
    SelectCons(InSecond(c), b);
    assert Select(InSecond(c), a)[0] == Select(InSecond(c), b)[0];
  }

  /** Two sequences with the same rows of each second, in the same order, list alike,
      however their rows of different seconds are interleaved. */
  lemma SameSecondsListAlike(a: seq<Row>, b: seq<Row>)
    requires forall c :: Select(InSecond(c), a) == Select(InSecond(c), b)
    ensures NewestFirst(a) == NewestFirst(b)
    ensures multiset(a) == multiset(b)
  {
    NewestFirstLists(a);
    NewestFirstLists(b);
    forall c ensures Select(InSecond(c), NewestFirst(a)) == Select(InSecond(c), NewestFirst(b)) {
      assert Select(InSecond(c), a) == Select(InSecond(c), b);
    }
    ListingDetermined(NewestFirst(a), NewestFirst(b));
  }
}
