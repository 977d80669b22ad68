/** The per-address sliding-window limiter of registration and top-up. */
module RateWindow {
  import opened Selections

  const MAX_ENTRIES := 10000

  /** One call of the limiter: who asked, when, and the answer. */
  datatype Call = Call(ip: string, now: int, ok: bool)

  /** The times later than the cutoff. */
  function After(times: seq<int>, cutoff: int): seq<int> {
    if times == [] then []
    else
      var last := times[|times| - 1];
      if last > cutoff then After(times[..|times| - 1], cutoff) + [last] else After(times[..|times| - 1], cutoff)
  }

  // ---- The reference: an exact window over all calls and their answers, nothing ever forgotten.

  /** Accepted calls of the address later than the cutoff. */
  function Recent(ip: string, cutoff: int): Call -> bool {
    (c: Call) => c.ip == ip && c.ok && c.now > cutoff
  }

  /** Every call was accepted exactly when fewer than limit accepted calls of its address lay in the window. */
  ghost predicate Answered(h: seq<Call>, limit: int, win: int) {
    forall k :: 0 <= k < |h| ==> AnsweredAt(h, k, limit, win)
  }

  ghost predicate AnsweredAt(h: seq<Call>, k: nat, limit: int, win: int)
    requires k < |h|
  {
    h[k].ok <==> |Select(Recent(h[k].ip, h[k].now - win), h[..k])| < limit
  }

  /** Over every run, with any number of addresses: however the calls of other addresses fall between, no
      stretch of calls shorter than the window holds more than limit that were accepted of one address. */
  lemma {:induction false} AcceptancesSpaced(h: seq<Call>, ip: string, limit: int, win: int, i: nat, j: nat)
    requires Clocked(h) && Answered(h, limit, win) && i <= j < |h|
    requires 0 <= limit < |Select((c: Call) => c.ip == ip && c.ok, h[i..j + 1])|
    ensures h[j].now - h[i].now >= win
  {
    var own := (c: Call) => c.ip == ip && c.ok;
    assert h[i..j + 1] == h[i..j] + [h[j]];
    SelectSnoc(own, h[i..j], h[j]);
    assert AnsweredAt(h, j, limit, win);
    if !own(h[j]) {
      assert Select(own, h[i..j + 1]) == Select(own, h[i..j]);
      AcceptancesSpaced(h, ip, limit, win, i, j - 1);
    } else if h[j].now - h[i].now < win {
      StretchCounts(h, i, j, own, Recent(ip, h[j].now - win));
    }
  }

  lemma StretchCounts(h: seq<Call>, i: nat, j: nat, own: Call -> bool, recent: Call -> bool)
    requires i <= j <= |h| && forall k :: i <= k < j ==> own(h[k]) == recent(h[k])
    ensures |Select(own, h[i..j])| <= |Select(recent, h[..j])|
  {
    assert h[..j] == h[..i] + h[i..j];
    SelectConcat(recent, h[..i], h[i..j]);
    SelectAgree(own, recent, h[i..j]);
  }

  /** When the calls of an address were accepted. */
  function Times(h: seq<Call>, ip: string): seq<int> {
    if h == [] then []
    else
      var before, c := Times(h[..|h| - 1], ip), h[|h| - 1];
      if c.ip == ip && c.ok then before + [c.now] else before
  }

  lemma {:induction false} WindowCount(h: seq<Call>, ip: string, cutoff: int)
    ensures |After(Times(h, ip), cutoff)| == |Select(Recent(ip, cutoff), h)|
  {
    if h != [] {
      var init, c := h[..|h| - 1], h[|h| - 1];
      WindowCount(init, ip, cutoff);
      if c.ip == ip && c.ok {
        AfterSnoc(Times(init, ip), c.now, cutoff);
      }
    }
  }

  predicate Sorted(times: seq<int>) {
    times == [] ||
    var n := |times| - 1;
    NoneAfter(times[..n], times[n]) && Sorted(times[..n])
  }

  /** The clock never runs backwards. */
  predicate Clocked(h: seq<Call>) {
    forall i, j :: 0 <= i < j < |h| ==> h[i].now <= h[j].now
  }

  function Clock(h: seq<Call>): int {
    if h == [] then 0 else h[|h| - 1].now
  }

  predicate NoneAfter(times: seq<int>, t: int) {
    forall i :: 0 <= i < |times| ==> times[i] <= t
  }

  lemma {:induction false} AfterSub(times: seq<int>, cutoff: int, t: int)
    requires Sorted(times) && NoneAfter(times, t)
    ensures Sorted(After(times, cutoff)) && NoneAfter(After(times, cutoff), t)
  {
    if times != [] {
      var n := |times| - 1;
      AfterSub(times[..n], cutoff, times[n]);
    }
  }

  lemma {:induction false} AfterLater(times: seq<int>, c: int, d: int)
    requires c <= d
    ensures After(After(times, c), d) == After(times, d)
  {
    if times != [] {
      var n := |times| - 1;
      AfterLater(times[..n], c, d);
      if times[n] > c {
        AfterSnoc(After(times[..n], c), times[n], d);
      }
    }
  }

  lemma AfterSnoc(times: seq<int>, t: int, c: int)
    ensures After(times + [t], c) == if t > c then After(times, c) + [t] else After(times, c)
  {
    assert (times + [t])[..|times|] == times;
  }

  lemma {:induction false} AfterNone(times: seq<int>, c: int)
    requires NoneAfter(times, c)
    ensures After(times, c) == []
  {
    if times != [] {
      AfterNone(times[..|times| - 1], c);
    }
  }

  // ---- The limiter itself, which filters and evicts.

  /** What the limiter still holds for an address agrees with the full history on every cutoff to come. */
  ghost predicate Tracks(held: seq<int>, accepted: seq<int>, clock: int, win: int) {
    Sorted(held) && NoneAfter(held, clock) && After(held, clock - win) == After(accepted, clock - win)
  }

  function Held(seen: map<string, seq<int>>, ip: string): seq<int> {
    if ip in seen then seen[ip] else []
  }

  /** Every address's accepted times, by address. */
  ghost function Account(h: seq<Call>): string -> seq<int> {
    (ip: string) => Times(h, ip)
  }

  ghost predicate AllTracked(seen: map<string, seq<int>>, account: string -> seq<int>, clock: int, win: int) {
    forall ip :: Tracks(Held(seen, ip), account(ip), clock, win)
  }

  lemma TracksLater(held: seq<int>, accepted: seq<int>, clock: int, now: int, win: int)
    requires Tracks(held, accepted, clock, win) && clock <= now
    ensures Tracks(held, accepted, now, win)
  {
    SameLater(held, accepted, clock - win, now - win);
    NoneLater(held, clock, now);
  }

  lemma SameLater(a: seq<int>, b: seq<int>, c: int, d: int)
    requires c <= d && After(a, c) == After(b, c)
    ensures After(a, d) == After(b, d)
  {
    AfterLater(a, c, d);
    AfterLater(b, c, d);
  }

  lemma NoneLater(times: seq<int>, t: int, u: int)
    requires NoneAfter(times, t) && t <= u
    ensures NoneAfter(times, u)
  {
  }

  lemma AllLater(seen: map<string, seq<int>>, account: string -> seq<int>, clock: int, now: int, win: int)
    requires AllTracked(seen, account, clock, win) && clock <= now
    ensures AllTracked(seen, account, now, win)
  {
    forall ip
      ensures Tracks(Held(seen, ip), account(ip), now, win)
    {
      TracksLater(Held(seen, ip), account(ip), clock, now, win);
    }
  }

  lemma FilteredTracks(held: seq<int>, accepted: seq<int>, now: int, win: int)
    requires Tracks(held, accepted, now, win)
    ensures Tracks(After(held, now - win), accepted, now, win)
    ensures |After(held, now - win)| == |After(accepted, now - win)|
  {
    AfterSub(held, now - win, now);
    AfterLater(held, now - win, now - win);
  }

  lemma CountedTracks(kept: seq<int>, accepted: seq<int>, now: int, win: int)
    requires Tracks(kept, accepted, now, win)
    ensures Tracks(kept + [now], accepted + [now], now, win)
  {
    OrderedSnoc(kept, now);
    AfterSnoc(kept, now, now - win);
    AfterSnoc(accepted, now, now - win);
  }

  lemma OrderedSnoc(times: seq<int>, t: int)
    requires Sorted(times) && NoneAfter(times, t)
    ensures Sorted(times + [t]) && NoneAfter(times + [t], t)
  {
    assert (times + [t])[..|times|] == times;
  }

  lemma EvictedTracks(held: seq<int>, accepted: seq<int>, now: int, win: int)
    requires Tracks(held, accepted, now, win)
    requires held == [] || held[|held| - 1] < now - win
    ensures Tracks([], accepted, now, win)
  {
    AfterNone(held, now - win);
  }

  /** How one call changes the account. */
  ghost predicate Charges(account: string -> seq<int>, account': string -> seq<int>, c: Call) {
    && (forall ip :: ip != c.ip ==> account'(ip) == account(ip))
    && account'(c.ip) == account(c.ip) + (if c.ok then [c.now] else [])
  }

  lemma SnocCharges(h: seq<Call>, c: Call)
    ensures Clock(h + [c]) == c.now
    ensures Charges(Account(h), Account(h + [c]), c)
  {
    assert (h + [c])[..|h|] == h;
    assert Times(h, c.ip) + [] == Times(h, c.ip);
  }

  lemma SnocAnswered(h: seq<Call>, c: Call, limit: int, win: int)
    requires Clocked(h) && Answered(h, limit, win) && (h != [] ==> Clock(h) <= c.now)
    requires c.ok <==> |Select(Recent(c.ip, c.now - win), h)| < limit
    ensures Clocked(h + [c]) && Answered(h + [c], limit, win)
  {
    var t := h + [c];
    assert t[..|h|] == h;
    forall k | 0 <= k < |t| ensures AnsweredAt(t, k, limit, win) {
      if k < |h| {
        assert t[..k] == h[..k] && AnsweredAt(h, k, limit, win);
      }
    }
  }

  lemma OwnTracked(held: seq<int>, accepted: seq<int>, now: int, win: int, kept: seq<int>)
    requires Tracks(held, accepted, now, win) && kept == After(held, now - win)
    ensures |kept| == |After(accepted, now - win)|
    ensures Tracks(kept, accepted, now, win) && Tracks(kept + [now], accepted + [now], now, win)
  {
    FilteredTracks(held, accepted, now, win);
    CountedTracks(kept, accepted, now, win);
  }

  /** One call filtered and counted, before any eviction. */
  lemma Counted(seen: map<string, seq<int>>, account: string -> seq<int>, account': string -> seq<int>, c: Call,
                win: int, kept: seq<int>, held: seq<int>)
    requires AllTracked(seen, account, c.now, win) && Charges(account, account', c)
    requires kept == After(Held(seen, c.ip), c.now - win) && held == if c.ok then kept + [c.now] else kept
    ensures AllTracked(seen[c.ip := held], account', c.now, win)
  {
    OwnTracked(Held(seen, c.ip), account(c.ip), c.now, win, kept);
    forall ip
      ensures Tracks(Held(seen[c.ip := held], ip), account'(ip), c.now, win)
    {
      if ip != c.ip {
        assert Tracks(Held(seen, ip), account(ip), c.now, win);
      } else if !c.ok {
        assert account(ip) + [] == account(ip);
      }
    }
  }

  /** What the limiter keeps in the window is what the history has in it. */
  lemma KeptCount(seen: map<string, seq<int>>, h: seq<Call>, ip: string, now: int, win: int, recent: Call -> bool)
    requires AllTracked(seen, Account(h), now, win)
    requires forall c :: recent(c) <==> c.ip == ip && c.ok && c.now > now - win
    ensures |After(Held(seen, ip), now - win)| == |Select(recent, h)|
  {
    assert Tracks(Held(seen, ip), Account(h)(ip), now, win);
    WindowCount(h, ip, now - win);
    SelectAgree(recent, Recent(ip, now - win), h);
  }

  lemma AtTime(seen: map<string, seq<int>>, h: seq<Call>, now: int, win: int)
    requires AllTracked(seen, Account(h), Clock(h), win)
    requires if h == [] then seen == map[] else Clock(h) <= now
    ensures AllTracked(seen, Account(h), now, win)
  {
    if h != [] {
      AllLater(seen, Account(h), Clock(h), now, win);
    }
  }

  lemma Recorded(seen: map<string, seq<int>>, h: seq<Call>, c: Call, limit: int, win: int, kept: seq<int>,
                 held: seq<int>)
    requires Clocked(h) && Answered(h, limit, win) && (h != [] ==> Clock(h) <= c.now)
    requires AllTracked(seen, Account(h), c.now, win) && kept == After(Held(seen, c.ip), c.now - win)
    requires held == (if c.ok then kept + [c.now] else kept) && (c.ok <==> |kept| < limit)
    ensures Clocked(h + [c]) && Answered(h + [c], limit, win) && Clock(h + [c]) == c.now
    ensures AllTracked(seen[c.ip := held], Account(h + [c]), c.now, win)
  {
    AnswerKept(seen, h, c, limit, win, kept);
    SnocCharges(h, c);
    Counted(seen, Account(h), Account(h + [c]), c, win, kept, held);
  }

  lemma AnswerKept(seen: map<string, seq<int>>, h: seq<Call>, c: Call, limit: int, win: int, kept: seq<int>)
    requires Clocked(h) && Answered(h, limit, win) && (h != [] ==> Clock(h) <= c.now)
    requires AllTracked(seen, Account(h), c.now, win) && kept == After(Held(seen, c.ip), c.now - win)
    requires c.ok <==> |kept| < limit
    ensures Clocked(h + [c]) && Answered(h + [c], limit, win)
  {
    KeptCount(seen, h, c.ip, c.now, win, Recent(c.ip, c.now - win));
    SnocAnswered(h, c, limit, win);
  }

  class Limiter {
    var seen: map<string, seq<int>>
    const limit: int
    const win: int
    /** All calls so far, with the answers given. */
    ghost var history: seq<Call>

    ghost predicate Valid()
      reads this
    {
      Clocked(history) && Answered(history, limit, win) && (history == [] ==> seen == map[])
      && AllTracked(seen, Account(history), Clock(history), win)
    }

    constructor (limit: int, win: int)
      ensures Valid() && history == [] && this.limit == limit && this.win == win
    {
      this.limit, this.win, seen, history := limit, win, map[], [];
    }

    /** Accepts exactly what the exact window accepts, whatever was filtered or evicted before. */
    method Allow(ip: string, now: int) returns (ok: bool)
      requires Valid() && (history != [] ==> Clock(history) <= now)
      modifies this
      ensures Valid() && history == old(history) + [Call(ip, now, ok)]
      ensures ok <==> |Select((c: Call) => c.ip == ip && c.ok && c.now > now - win, old(history))| < limit
    {
      AtTime(seen, history, now, win);
      KeptCount(seen, history, ip, now, win, (c: Call) => c.ip == ip && c.ok && c.now > now - win);
      var kept := Filter(Held(seen, ip), now - win);
      ok := |kept| < limit;
      Record(ip, now, ok, kept);
    }

    method Record(ip: string, now: int, ok: bool, kept: seq<int>)
      requires Clocked(history) && Answered(history, limit, win) && (history != [] ==> Clock(history) <= now)
      requires AllTracked(seen, Account(history), now, win)
      requires kept == After(Held(seen, ip), now - win) && (ok <==> |kept| < limit)
      modifies this
      ensures Valid() && history == old(history) + [Call(ip, now, ok)]
    {
      var held := if ok then kept + [now] else kept;
      Recorded(seen, history, Call(ip, now, ok), limit, win, kept, held);
      seen := seen[ip := held];
      history := history + [Call(ip, now, ok)];
      if ok && |seen| > MAX_ENTRIES {
        seen := Evict(seen, now, win, Account(history));
      }
    }

    /** Any limit + 1 calls of an address that were answered true span at least the window. */
    lemma AnswersSpaced(ip: string, i: nat, j: nat)
      requires Valid() && i <= j < |history|
      requires 0 <= limit < |Select((c: Call) => c.ip == ip && c.ok, history[i..j + 1])|
      ensures history[j].now - history[i].now >= win
    {
      AcceptancesSpaced(history, ip, limit, win, i, j);
    }
  }

  method Filter(ts: seq<int>, cutoff: int) returns (kept: seq<int>)
    ensures kept == After(ts, cutoff)
  {
    kept := [];
    for i := 0 to |ts|
      invariant kept == After(ts[..i], cutoff)
    {
      assert ts[..i + 1][..i] == ts[..i];
      if ts[i] > cutoff {
        kept := kept + [ts[i]];
      }
    }
    assert ts[..|ts|] == ts;
  }

  /** Drops the addresses without times, or with the last one before the cutoff; an address whose last time is the
      cutoff itself stays, although nothing of it counts any more.  Everyone else is untouched. */
  method Evict(seen: map<string, seq<int>>, now: int, win: int, ghost account: string -> seq<int>)
    returns (left: map<string, seq<int>>)
    requires AllTracked(seen, account, now, win)
    ensures AllTracked(left, account, now, win)
    ensures forall ip :: ip in left <==> ip in seen && seen[ip] != [] && seen[ip][|seen[ip]| - 1] >= now - win
    ensures forall ip :: ip in left ==> left[ip] == seen[ip]
  {
    left := seen;
    var todo := seen.Keys;
    while todo != {}
      invariant todo <= left.Keys <= seen.Keys
      invariant AllTracked(left, account, now, win)
      invariant forall ip :: ip in left ==> left[ip] == seen[ip]
      invariant forall ip :: ip in left && ip !in todo ==> seen[ip] != [] && seen[ip][|seen[ip]| - 1] >= now - win
      invariant forall ip :: ip in seen && seen[ip] != [] && seen[ip][|seen[ip]| - 1] >= now - win ==> ip in left
    {
      var k :| k in todo;
      var v := left[k];
      if v == [] || v[|v| - 1] < now - win {
        EvictOne(left, k, account, now, win);
        left := left - {k};
      }
      todo := todo - {k};
    }
  }

  lemma EvictOne(seen: map<string, seq<int>>, k: string, account: string -> seq<int>, now: int, win: int)
    requires AllTracked(seen, account, now, win) && k in seen
    requires seen[k] == [] || seen[k][|seen[k]| - 1] < now - win
    ensures AllTracked(seen - {k}, account, now, win)
  {
    forall ip
      ensures Tracks(Held(seen - {k}, ip), account(ip), now, win)
    {
      assert Tracks(Held(seen, ip), account(ip), now, win);
      if ip == k {
        EvictedTracks(seen[k], account(ip), now, win);
      }
    }
  }
}
