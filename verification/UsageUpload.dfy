/** Usage records travel from edge clients to the server over a lossy network and are counted
    effectively once. */
module UsageUpload {
  import opened Decimal
  import opened Selections
  import opened DayKeys

  /** One completed request; seqNo is the client's counter, from which the request id is built. */
  datatype Record = Record(seqNo: nat, payload: int)

  const UPLOAD_BATCH: nat := 200
  const PRUNE_AT: nat := 100000

  // ---- The client's staging buffer.

  /** At capacity the oldest record gives way. */
  function Added(pending: seq<Record>, max: nat, r: Record): seq<Record> {
    (if |pending| >= max && pending != [] then pending[1..] else pending) + [r]
  }

  function BatchSize(pending: seq<Record>, n: nat): nat {
    if n > |pending| then |pending| else n
  }

  class UsageBuffer {
    var pending: seq<Record>
    const max: nat

    constructor (max: int)
      ensures pending == [] && this.max == (if max <= 0 then 5000 else max) && this.max >= 1
    {
      pending := [];
      this.max := if max <= 0 then 5000 else max;
    }

    method Add(r: Record)
      requires max >= 1
      modifies this
      ensures pending == Added(old(pending), max, r)
      ensures pending == (if |old(pending)| >= max then old(pending)[1..] else old(pending)) + [r]
    {
      if |pending| >= max {
        pending := pending[1..];
      }
      pending := pending + [r];
    }

    method Take(n: nat) returns (batch: seq<Record>)
      modifies this
      ensures batch + pending == old(pending) && |batch| == if n <= |old(pending)| then n else |old(pending)|
    {
      var k := BatchSize(pending, n);
      batch := pending[..k];
      pending := pending[k..];
    }

    /** A failed batch goes back to the front: requeueing undoes taking. */
    method Requeue(batch: seq<Record>)
      modifies this
      ensures pending == batch + old(pending)
    {
      pending := batch + pending;
    }
  }

  // ---- The server's memory of what it has ingested.

  type Seen = map<string, int>

  predicate IsDuplicate(seen: Seen, evictAfter: int, key: string, now: int) {
    key in seen && now - seen[key] < evictAfter
  }

  /** The entry is stamped with the time either way; a first sighting may prune old entries. */
  function Remember(seen: Seen, evictAfter: int, key: string, now: int): Seen {
    var next := seen[key := now];
    if !IsDuplicate(seen, evictAfter, key, now) && |next| > PRUNE_AT
    then map k | k in next && now - next[k] <= evictAfter :: next[k]
    else next
  }

  /** The key is stamped with the time, nothing else changes, except that a first sighting beyond 100000 keys
      sweeps out exactly the expired ones. */
  ghost predicate Remembered(before: Seen, after: Seen, evictAfter: int, key: string, now: int, dup: bool) {
    var all := before[key := now];
    if dup || |all| <= 100000 then after == all
    else forall k :: (k in after <==> k in all && now - all[k] <= evictAfter) && (k in after ==> after[k] == all[k])
  }

  lemma RememberedSo(seen: Seen, evictAfter: int, key: string, now: int)
    ensures Remembered(seen, Remember(seen, evictAfter, key, now), evictAfter, key, now,
                       IsDuplicate(seen, evictAfter, key, now))
  {
  }

  /** A record as it arrives; id and source decide whether it is considered at all. */
  datatype WireRecord = WireRecord(id: string, source: string)

  datatype UploadResult = Refused(status: int) | Ingested(accepted: nat, duplicates: nat)

  predicate ValidSource(source: string) {
    source == "proxy" || source == "cache" || source == "local"
  }

  predicate Considered(r: WireRecord) {
    r.id != "" && ValidSource(r.source)
  }

  /** The records that an upload counts, as accepted or duplicate. */
  ghost function IdAndSource(): WireRecord -> bool {
    (r: WireRecord) => r.id != "" && r.source in {"proxy", "cache", "local"}
  }

  /** Memory, and the keys newly counted, after a batch whose records are seen at the given times. */
  function IngestAll(seen: Seen, evictAfter: int, client: string, records: seq<WireRecord>, times: seq<int>)
    : (r: (Seen, seq<string>))
    requires |records| == |times|
  {
    if records == [] then (seen, [])
    else
      var last := |records| - 1;
      var (before, counted) := IngestAll(seen, evictAfter, client, records[..last], times[..last]);
      var key := client + "/" + records[last].id;
      if !Considered(records[last]) then (before, counted)
      else (Remember(before, evictAfter, key, times[last]),
            if IsDuplicate(before, evictAfter, key, times[last]) then counted else counted + [key])
  }

  class Ingestor {
    var seen: Seen
    const evictAfter: int

    constructor (evictAfter: int)
      ensures seen == map[] && this.evictAfter == evictAfter
    {
      seen := map[];
      this.evictAfter := evictAfter;
    }

    method AlreadySeen(client: string, requestID: string, now: int) returns (dup: bool)
      modifies this
      ensures dup == IsDuplicate(old(seen), evictAfter, client + "/" + requestID, now)
      ensures seen == Remember(old(seen), evictAfter, client + "/" + requestID, now)
      ensures dup <==> client + "/" + requestID in old(seen) && now - old(seen)[client + "/" + requestID] < evictAfter
      ensures Remembered(old(seen), seen, evictAfter, client + "/" + requestID, now, dup)
    {
      RememberedSo(seen, evictAfter, client + "/" + requestID, now);
      var key := client + "/" + requestID;
      if key in seen && now - seen[key] < evictAfter {
        seen := seen[key := now];
        return true;
      }
      seen := seen[key := now];
      if |seen| > PRUNE_AT {
        var todo, kept := seen.Keys, seen;
        while todo != {}
          invariant todo <= seen.Keys
          invariant forall k :: k in kept <==> k in seen && (k in todo || now - seen[k] <= evictAfter)
          invariant forall k :: k in kept ==> kept[k] == seen[k]
          decreases todo
        {
          var k :| k in todo;
          if now - seen[k] > evictAfter {
            kept := kept - {k};
          }
          todo := todo - {k};
        }
        seen := kept;
      }
      dup := false;
    }

    /** One authenticated upload: records are attributed to the client's configured name. */
    method HandleUsage(client: string, records: seq<WireRecord>, times: seq<int>) returns (result: UploadResult)
      requires |records| == |times|
      modifies this
      ensures records == [] ==> result == Refused(400) && seen == old(seen)
      ensures |records| > 2000 ==> result == Refused(413) && seen == old(seen)
      ensures 0 < |records| <= 2000 ==>
        && result.Ingested?
        && seen == IngestAll(old(seen), evictAfter, client, records, times).0
        && result.accepted == |IngestAll(old(seen), evictAfter, client, records, times).1|
        && result.accepted + result.duplicates == |Select(IdAndSource(), records)|
    {
      if records == [] {
        return Refused(400);
      }
      if |records| > 2000 {
        return Refused(413);
      }
      var accepted, duplicates := 0, 0;
      for i := 0 to |records|
        invariant seen == IngestAll(old(seen), evictAfter, client, records[..i], times[..i]).0
        invariant accepted == |IngestAll(old(seen), evictAfter, client, records[..i], times[..i]).1|
        invariant accepted + duplicates == |Select(Considered, records[..i])|
      {
        assert records[..i + 1][..i] == records[..i] && times[..i + 1][..i] == times[..i];
        if Considered(records[i]) {
          var dup := AlreadySeen(client, records[i].id, times[i]);
          if dup {
            duplicates := duplicates + 1;
          } else {
            accepted := accepted + 1;
          }
        }
      }
      assert records[..|records|] == records && times[..|times|] == times;
      SelectAgree(Considered, IdAndSource(), records);
      result := Ingested(accepted, duplicates);
    }
  }

  // ---- The whole system: clients with one uploader each, a lossy network, one server.

  /** created lists the records in the order in which they entered the buffer; sent holds those
      that some upload carried, confirmed those of an answered upload, dropped those that gave way. */
  datatype Client = Client(
    nextSeq: nat, stamped: set<nat>, pending: seq<Record>, inflight: seq<Record>,
    created: seq<Record>, sent: set<nat>, confirmed: set<nat>, dropped: set<nat>)

  /** last keeps, for every record ever processed, the time of the latest sighting. */
  datatype Server = Server(clock: int, seen: Seen, last: Seen, accepted: seq<string>)

  datatype World = World(clients: map<nat, Client>, server: Server)

  /** keyOf is the deduplication key of a client's n-th record. */
  datatype Config = Config(max: nat, evictAfter: int, keyOf: (nat, nat) -> string)

  /** Different records of these clients have different keys. */
  ghost predicate KeysApart(cfg: Config, clients: set<nat>) {
    forall c, n, d, m {:trigger cfg.keyOf(c, n), cfg.keyOf(d, m)} ::
      c in clients && d in clients && cfg.keyOf(c, n) == cfg.keyOf(d, m) ==> c == d && n == m
  }

  datatype Step =
    | StampRecord(c: nat)                      // the request counter is advanced
    | Buffer(c: nat, rec: Record)              // the stamped record enters the buffer
    | StartUpload(c: nat)                      // a batch is taken and posted
    | Serve(c: nat, n: nat, now: int)          // the server processes one record of some post, however late
    | Confirm(c: nat)                          // the reply arrives
    | Fail(c: nat)                             // request or reply lost, or an error status: requeue

  function SeqNos(s: seq<Record>): set<nat> {
    set r | r in s :: r.seqNo
  }

  function NewClient(): Client {
    Client(0, {}, [], [], [], {}, {}, {})
  }

  ghost predicate Enabled(cfg: Config, w: World, step: Step) {
    step.c in w.clients &&
    var cl := w.clients[step.c];
    match step
    case StampRecord(_) => true
    case Buffer(_, rec) => rec.seqNo in cl.stamped
    case StartUpload(_) => cl.inflight == [] && cl.pending != []
    case Serve(_, n, now) => n in cl.sent && w.server.clock <= now
    case Confirm(_) => cl.inflight != [] && forall r :: r in cl.inflight ==> cfg.keyOf(step.c, r.seqNo) in w.server.last
    case Fail(_) => cl.inflight != []
  }

  function Displaced(cl: Client, max: nat): set<nat> {
    if |cl.pending| >= max && cl.pending != [] then {cl.pending[0].seqNo} else {}
  }

  function ClientNext(cfg: Config, cl: Client, step: Step): Client {
    match step
    case StampRecord(_) => cl.(nextSeq := cl.nextSeq + 1, stamped := cl.stamped + {cl.nextSeq + 1})
    case Buffer(_, rec) =>
      cl.(stamped := cl.stamped - {rec.seqNo}, created := cl.created + [rec],
          pending := Added(cl.pending, cfg.max, rec), dropped := cl.dropped + Displaced(cl, cfg.max))
    case StartUpload(_) =>
      var k := BatchSize(cl.pending, UPLOAD_BATCH);
      cl.(inflight := cl.pending[..k], pending := cl.pending[k..], sent := cl.sent + SeqNos(cl.pending[..k]))
    case Serve(_, _, _) => cl
    case Confirm(_) => cl.(inflight := [], confirmed := cl.confirmed + SeqNos(cl.inflight))
    case Fail(_) => cl.(inflight := [], pending := cl.inflight + cl.pending)
  }

  function ServerNext(cfg: Config, sv: Server, key: string, now: int): Server {
    Server(now, Remember(sv.seen, cfg.evictAfter, key, now), sv.last[key := now],
           if IsDuplicate(sv.seen, cfg.evictAfter, key, now) then sv.accepted else sv.accepted + [key])
  }

  ghost function Next(cfg: Config, w: World, step: Step): World
    requires Enabled(cfg, w, step)
  {
    World(w.clients[step.c := ClientNext(cfg, w.clients[step.c], step)],
          if step.Serve? then ServerNext(cfg, w.server, cfg.keyOf(step.c, step.n), step.now) else w.server)
  }

  /** A record comes back to the server, if at all, before its entry there has expired. */
  predicate Timely(cfg: Config, w: World, step: Step) {
    step.Serve? ==>
      var key := cfg.keyOf(step.c, step.n);
      key in w.server.last ==> step.now - w.server.last[key] < cfg.evictAfter
  }

  ghost predicate IsRun(cfg: Config, w: World, steps: seq<Step>, timely: bool)
    decreases |steps|
  {
    steps == [] ||
    (Enabled(cfg, w, steps[0]) && (timely ==> Timely(cfg, w, steps[0]))
     && IsRun(cfg, Next(cfg, w, steps[0]), steps[1..], timely))
  }

  ghost function After(cfg: Config, w: World, steps: seq<Step>, timely: bool): World
    requires IsRun(cfg, w, steps, timely)
    decreases |steps|
  {
    if steps == [] then w else After(cfg, Next(cfg, w, steps[0]), steps[1..], timely)
  }

  ghost predicate Initial(w: World) {
    (forall c :: c in w.clients ==> w.clients[c] == NewClient()) &&
    w.server.seen == map[] && w.server.last == map[] && w.server.accepted == []
  }

  // ---- What every client step keeps.

  function StillHeld(gone: set<nat>): Record -> bool {
    (r: Record) => r.seqNo !in gone
  }

  ghost predicate Fresh(s: seq<Record>) {
    forall i, j :: 0 <= i < j < |s| ==> s[i].seqNo != s[j].seqNo
  }

  /** The client holds, in creation order, exactly the created records that were neither confirmed
      nor dropped. */
  ghost predicate Holding(cl: Client) {
    cl.inflight + cl.pending == Select(StillHeld(cl.confirmed + cl.dropped), cl.created)
  }

  ghost predicate Counted(cl: Client) {
    && Fresh(cl.created)
    && (forall r :: r in cl.created ==> r.seqNo <= cl.nextSeq && r.seqNo !in cl.stamped)
    && (forall n :: n in cl.stamped ==> n <= cl.nextSeq)
    && cl.sent <= SeqNos(cl.created)
    && SeqNos(cl.inflight) <= cl.sent
    && cl.confirmed <= cl.sent
    && cl.dropped <= SeqNos(cl.created)
  }

  /** The buffer exceeds its capacity by at most one requeued batch. */
  ghost predicate BufferBounded(cfg: Config, cl: Client) {
    && |cl.inflight| <= UPLOAD_BATCH
    && |cl.pending| <= cfg.max + (if cl.inflight == [] then UPLOAD_BATCH else 0)
  }

  ghost predicate ClientInv(cfg: Config, cl: Client) {
    Holding(cl) && Counted(cl) && BufferBounded(cfg, cl)
  }

  lemma {:induction false} SelectFresh(p: Record -> bool, s: seq<Record>)
    requires Fresh(s)
    ensures Fresh(Select(p, s))
  {
    if s != [] {
      var init, last := s[..|s| - 1], s[|s| - 1];
      SelectFresh(p, init);
      SelectMembers(p, init);
      var t := Select(p, init);
      forall i | 0 <= i < |t| ensures t[i].seqNo != last.seqNo {
        assert t[i] in init;
      }
    }
  }

  lemma Elsewhere(s: seq<Record>, part: seq<Record>, x: seq<Record>)
    requires Fresh(s) && (part + x <= s || x + part <= s || (exists a :: a + x + part == s))
    ensures forall r :: r in part ==> r.seqNo !in SeqNos(x)
  {
    forall i, j | 0 <= i < |part| && 0 <= j < |x| ensures part[i].seqNo != x[j].seqNo {
      if part + x <= s {
        assert s[i] == (part + x)[i] == part[i] && s[|part| + j] == (part + x)[|part| + j] == x[j];
      } else if x + part <= s {
        assert s[j] == (x + part)[j] == x[j] && s[|x| + i] == (x + part)[|x| + i] == part[i];
      } else {
        var a :| a + x + part == s;
        assert s[|a| + j] == x[j] && s[|a| + |x| + i] == part[i];
      }
    }
  }

  /** Among records with distinct numbers, letting a segment go leaves what surrounds it. */
  lemma ReleaseSegment(a: seq<Record>, x: seq<Record>, b: seq<Record>, created: seq<Record>, gone: set<nat>)
    requires Fresh(created) && a + x + b == Select(StillHeld(gone), created)
    ensures a + b == Select(StillHeld(gone + SeqNos(x)), created)
  {
    var s := a + x + b;
    SelectFresh(StillHeld(gone), created);
    assert a + x <= s;
    Elsewhere(s, a, x);
    Elsewhere(s, b, x);
    SelectTwice(StillHeld(gone), StillHeld(SeqNos(x)), StillHeld(gone + SeqNos(x)), created);
    KeepOthers(a, x, b);
  }

  lemma KeepOthers(a: seq<Record>, x: seq<Record>, b: seq<Record>)
    requires forall r :: r in a ==> r.seqNo !in SeqNos(x)
    requires forall r :: r in b ==> r.seqNo !in SeqNos(x)
    ensures Select(StillHeld(SeqNos(x)), a + x + b) == a + b
  {
    var p := StillHeld(SeqNos(x));
    SelectConcat(p, a + x, b);
    SelectConcat(p, a, x);
    SelectNone(p, x);
    SelectAll(p, a);
    SelectAll(p, b);
    assert a + [] == a;
  }

  lemma BufferKeeps(cfg: Config, cl: Client, step: Step)
    requires ClientInv(cfg, cl) && cfg.max >= 1 && step.Buffer? && step.rec.seqNo in cl.stamped
    ensures ClientInv(cfg, ClientNext(cfg, cl, step))
  {
    var next := ClientNext(cfg, cl, step);
    var gone := cl.confirmed + cl.dropped;
    HeldAreCreated(cl);
    BufferCounted(cfg, cl, step);
    var kept := if |cl.pending| >= cfg.max then cl.pending[1..] else cl.pending;
    DisplaceOldest(cfg, cl, kept);
    assert cl.confirmed + next.dropped == gone + Displaced(cl, cfg.max);
    NewIsHeld(cl, step.rec.seqNo);
    HoldNew(cl.inflight, kept, gone + Displaced(cl, cfg.max), cl.created, step.rec);
  }

  lemma DisplaceOldest(cfg: Config, cl: Client, kept: seq<Record>)
    requires ClientInv(cfg, cl) && cfg.max >= 1
    requires kept == if |cl.pending| >= cfg.max then cl.pending[1..] else cl.pending
    ensures cl.inflight + kept == Select(StillHeld(cl.confirmed + cl.dropped + Displaced(cl, cfg.max)), cl.created)
  {
    var gone := cl.confirmed + cl.dropped;
    if |cl.pending| >= cfg.max {
      var x := cl.pending[..1];
      assert cl.inflight + x + kept == cl.inflight + cl.pending;
      assert SeqNos(x) == Displaced(cl, cfg.max);
      ReleaseSegment(cl.inflight, x, kept, cl.created, gone);
    } else {
      assert gone + {} == gone;
    }
  }

  lemma HeldAreCreated(cl: Client)
    requires Holding(cl)
    ensures forall r :: r in cl.pending || r in cl.inflight ==> r in cl.created && r.seqNo in SeqNos(cl.created)
    ensures forall r :: r in cl.pending || r in cl.inflight ==> r.seqNo !in cl.confirmed && r.seqNo !in cl.dropped
  {
    SelectMembers(StillHeld(cl.confirmed + cl.dropped), cl.created);
    forall r | r in cl.pending || r in cl.inflight
      ensures r in cl.created && r.seqNo in SeqNos(cl.created) && r.seqNo !in cl.confirmed && r.seqNo !in cl.dropped
    {
      assert r in cl.inflight + cl.pending;
    }
  }

  lemma BufferCounted(cfg: Config, cl: Client, step: Step)
    requires Counted(cl) && step.Buffer? && step.rec.seqNo in cl.stamped
    requires forall r :: r in cl.pending ==> r in cl.created
    ensures Counted(ClientNext(cfg, cl, step))
  {
    var next := ClientNext(cfg, cl, step);
    forall i | 0 <= i < |cl.created| ensures cl.created[i].seqNo != step.rec.seqNo {
      assert cl.created[i] in cl.created;
    }
    forall n | n in SeqNos(cl.created) ensures n in SeqNos(next.created) {
      var r :| r in cl.created && r.seqNo == n;
      assert r in next.created;
    }
  }

  /** A record that is only now being buffered was neither confirmed nor dropped before. */
  lemma NewIsHeld(cl: Client, n: nat)
    requires Counted(cl) && n in cl.stamped
    ensures n !in cl.confirmed
    ensures n !in SeqNos(cl.created)
  {
  }

  lemma HoldNew(inflight: seq<Record>, kept: seq<Record>, gone: set<nat>, created: seq<Record>, rec: Record)
    requires inflight + kept == Select(StillHeld(gone), created) && rec.seqNo !in gone
    ensures inflight + (kept + [rec]) == Select(StillHeld(gone), created + [rec])
  {
    Reassociate(inflight, kept, [rec]);
    SelectNext(StillHeld(gone), created, rec);
  }

  lemma SelectNext(p: Record -> bool, created: seq<Record>, rec: Record)
    requires p(rec)
    ensures Select(p, created + [rec]) == Select(p, created) + [rec]
  {
    SelectSnoc(p, created, rec);
  }

  lemma SendKeeps(cfg: Config, cl: Client, step: Step)
    requires ClientInv(cfg, cl) && cl.inflight == [] && step.StartUpload?
    ensures ClientInv(cfg, ClientNext(cfg, cl, step))
  {
    HeldAreCreated(cl);
    var k := BatchSize(cl.pending, UPLOAD_BATCH);
    assert cl.pending[..k] + cl.pending[k..] == [] + cl.pending;
    forall n | n in SeqNos(cl.pending[..k]) ensures n in SeqNos(cl.created) {
      var r :| r in cl.pending[..k] && r.seqNo == n;
      assert r in cl.pending;
    }
  }

  lemma ConfirmKeeps(cfg: Config, cl: Client, step: Step)
    requires ClientInv(cfg, cl) && step.Confirm?
    ensures ClientInv(cfg, ClientNext(cfg, cl, step))
  {
    var gone := cl.confirmed + cl.dropped;
    assert [] + cl.inflight + cl.pending == cl.inflight + cl.pending;
    ReleaseSegment([], cl.inflight, cl.pending, cl.created, gone);
    assert cl.confirmed + SeqNos(cl.inflight) + cl.dropped == gone + SeqNos(cl.inflight);
  }

  lemma FailKeeps(cfg: Config, cl: Client, step: Step)
    requires ClientInv(cfg, cl) && cl.inflight != [] && step.Fail?
    ensures ClientInv(cfg, ClientNext(cfg, cl, step))
  {
    assert [] + (cl.inflight + cl.pending) == cl.inflight + cl.pending;
  }

  lemma StampKeeps(cfg: Config, cl: Client, step: Step)
    requires ClientInv(cfg, cl) && step.StampRecord?
    ensures ClientInv(cfg, ClientNext(cfg, cl, step))
  {
  }

  lemma ClientKeeps(cfg: Config, w: World, step: Step)
    requires cfg.max >= 1 && Enabled(cfg, w, step) && ClientInv(cfg, w.clients[step.c])
    ensures ClientInv(cfg, ClientNext(cfg, w.clients[step.c], step))
  {
    var cl := w.clients[step.c];
    match step
    case StampRecord(_) => StampKeeps(cfg, cl, step);
    case Buffer(_, _) => BufferKeeps(cfg, cl, step);
    case StartUpload(_) => SendKeeps(cfg, cl, step);
    case Serve(_, _, _) =>
    case Confirm(_) => ConfirmKeeps(cfg, cl, step);
    case Fail(_) => FailKeeps(cfg, cl, step);
  }

  // ---- What the server keeps.

  /** The dedup entries are the latest sightings, minus some that have expired. */
  ghost predicate Remembering(cfg: Config, sv: Server) {
    && (forall k :: k in sv.seen ==> k in sv.last && sv.seen[k] == sv.last[k])
    && (forall k :: k in sv.last && k !in sv.seen ==> sv.clock - sv.last[k] > cfg.evictAfter)
    && (forall k :: k in sv.accepted <==> k in sv.last)
  }

  lemma ServeKeeps(cfg: Config, sv: Server, key: string, now: int)
    requires Remembering(cfg, sv) && sv.clock <= now
    ensures Remembering(cfg, ServerNext(cfg, sv, key, now))
  {
  }

  /** Exactly when a record is counted: at its first sighting, and again whenever the previous
      sighting lies evictAfter or more back. */
  lemma CountedIff(cfg: Config, sv: Server, key: string, now: int)
    requires Remembering(cfg, sv) && sv.clock <= now
    ensures ServerNext(cfg, sv, key, now).accepted == sv.accepted + [key] <==>
            key !in sv.last || now - sv.last[key] >= cfg.evictAfter
    ensures ServerNext(cfg, sv, key, now).accepted in {sv.accepted, sv.accepted + [key]}
  {
    assert |sv.accepted + [key]| != |sv.accepted|;
  }

  /** Every counted key belongs to a record that its client created and sent; what a client
      regards as confirmed has been counted. */
  ghost predicate Attributed(cfg: Config, w: World) {
    && (forall k :: k in w.server.last ==> exists c, n :: SentAs(cfg, w, c, n, k))
    && (forall c, n :: c in w.clients && n in w.clients[c].confirmed ==> cfg.keyOf(c, n) in w.server.last)
  }

  ghost predicate SentAs(cfg: Config, w: World, c: nat, n: nat, k: string) {
    c in w.clients && n in w.clients[c].sent && k == cfg.keyOf(c, n)
  }

  ghost predicate Inv(cfg: Config, w: World) {
    && (forall c :: c in w.clients ==> ClientInv(cfg, w.clients[c]))
    && Remembering(cfg, w.server)
    && Attributed(cfg, w)
  }

  lemma AttributionKeeps(cfg: Config, w: World, step: Step)
    requires Attributed(cfg, w) && Enabled(cfg, w, step)
    ensures Attributed(cfg, Next(cfg, w, step))
  {
    var v := Next(cfg, w, step);
    forall k | k in v.server.last ensures exists c, n :: SentAs(cfg, v, c, n, k) {
      if k in w.server.last {
        var c, n :| SentAs(cfg, w, c, n, k);
        assert SentAs(cfg, v, c, n, k);
      } else {
        assert SentAs(cfg, v, step.c, step.n, k);
      }
    }
  }

  lemma StepKeeps(cfg: Config, w: World, step: Step)
    requires cfg.max >= 1 && Inv(cfg, w) && Enabled(cfg, w, step)
    ensures Inv(cfg, Next(cfg, w, step))
  {
    ClientKeeps(cfg, w, step);
    AttributionKeeps(cfg, w, step);
    if step.Serve? {
      ServeKeeps(cfg, w.server, cfg.keyOf(step.c, step.n), step.now);
    }
  }

  lemma StepOnce(cfg: Config, w: World, step: Step)
    requires Inv(cfg, w) && Enabled(cfg, w, step) && Timely(cfg, w, step) && Distinct(w.server.accepted)
    ensures Distinct(Next(cfg, w, step).server.accepted)
  {
    if step.Serve? {
      CountedIff(cfg, w.server, cfg.keyOf(step.c, step.n), step.now);
    }
  }

  lemma {:induction false} RunKeeps(cfg: Config, w: World, steps: seq<Step>, timely: bool)
    requires cfg.max >= 1 && Inv(cfg, w) && IsRun(cfg, w, steps, timely)
    ensures Inv(cfg, After(cfg, w, steps, timely)) && After(cfg, w, steps, timely).clients.Keys == w.clients.Keys
    decreases |steps|
  {
    if steps != [] {
      StepKeeps(cfg, w, steps[0]);
      RunKeeps(cfg, Next(cfg, w, steps[0]), steps[1..], timely);
    }
  }

  lemma {:induction false} RunOnce(cfg: Config, w: World, steps: seq<Step>)
    requires cfg.max >= 1 && Inv(cfg, w) && IsRun(cfg, w, steps, true) && Distinct(w.server.accepted)
    ensures Distinct(After(cfg, w, steps, true).server.accepted)
    decreases |steps|
  {
    if steps != [] {
      StepKeeps(cfg, w, steps[0]);
      StepOnce(cfg, w, steps[0]);
      RunOnce(cfg, Next(cfg, w, steps[0]), steps[1..]);
    }
  }

  lemma InitialInv(cfg: Config, w: World)
    requires Initial(w)
    ensures Inv(cfg, w)
  {
    assert ClientInv(cfg, NewClient());
  }

  /** Where a created record is: with the server, in the buffer, in an upload, or displaced. */
  ghost predicate Accounted(cfg: Config, w: World, c: nat, r: Record)
    requires c in w.clients
  {
    var cl := w.clients[c];
    r in cl.pending || r in cl.inflight || r.seqNo in cl.dropped || cfg.keyOf(c, r.seqNo) in w.server.accepted
  }

  /** No record is lost, the buffer keeps creation order, a key that is counted stands for a record
      that was sent; and if every repeat arrived within the eviction window, none was counted twice. */
  ghost predicate Once(cfg: Config, w: World, timely: bool) {
    && (timely ==> Distinct(w.server.accepted))
    && (forall c, r :: c in w.clients && r in w.clients[c].created ==> Accounted(cfg, w, c, r))
    && (forall c :: c in w.clients ==> Holding(w.clients[c]) && BufferBounded(cfg, w.clients[c]))
    && (forall k :: k in w.server.accepted ==> exists c, n :: SentAs(cfg, w, c, n, k))
    && (forall c, n :: c in w.clients && cfg.keyOf(c, n) in w.server.accepted ==> n in w.clients[c].sent)
  }

  /** Under every interleaving of losses, retries and late or repeated deliveries. */
  lemma EffectivelyOnce(cfg: Config, w0: World, steps: seq<Step>, timely: bool)
    requires cfg.max >= 1 && Initial(w0) && KeysApart(cfg, w0.clients.Keys) && IsRun(cfg, w0, steps, timely)
    ensures Once(cfg, After(cfg, w0, steps, timely), timely)
  {
    InitialInv(cfg, w0);
    RunKeeps(cfg, w0, steps, timely);
    if timely {
      RunOnce(cfg, w0, steps);
    }
    var w := After(cfg, w0, steps, timely);
    forall c, r | c in w.clients && r in w.clients[c].created ensures Accounted(cfg, w, c, r) {
      AllAccounted(cfg, w, c, r);
    }
    forall c, n | c in w.clients && cfg.keyOf(c, n) in w.server.accepted ensures n in w.clients[c].sent {
      var d, m :| SentAs(cfg, w, d, m, cfg.keyOf(c, n));
    }
  }

  lemma AllAccounted(cfg: Config, w: World, c: nat, r: Record)
    requires Inv(cfg, w) && c in w.clients && r in w.clients[c].created
    ensures Accounted(cfg, w, c, r)
  {
    var cl := w.clients[c];
    assert ClientInv(cfg, cl);
    SelectMembers(StillHeld(cl.confirmed + cl.dropped), cl.created);
    if r.seqNo !in cl.confirmed && r.seqNo !in cl.dropped {
      assert r in cl.inflight + cl.pending;
    }
  }

  // ---- Nothing is dropped without need, and an upload that gets through confirms its records.

  /** Every record finds room in the buffer. */
  ghost predicate RoomForAll(cfg: Config, w: World, steps: seq<Step>, timely: bool)
    requires IsRun(cfg, w, steps, timely)
    decreases |steps|
  {
    steps == [] ||
    ((steps[0].Buffer? ==> |w.clients[steps[0].c].pending| < cfg.max)
     && RoomForAll(cfg, Next(cfg, w, steps[0]), steps[1..], timely))
  }

  lemma {:induction false} NothingDropped(cfg: Config, w: World, steps: seq<Step>, timely: bool, c: nat)
    requires IsRun(cfg, w, steps, timely) && RoomForAll(cfg, w, steps, timely) && c in w.clients
    ensures var v := After(cfg, w, steps, timely); c in v.clients && v.clients[c].dropped == w.clients[c].dropped
    decreases |steps|
  {
    if steps != [] {
      assert w.clients[c].dropped + {} == w.clients[c].dropped;
      NothingDropped(cfg, Next(cfg, w, steps[0]), steps[1..], timely, c);
    }
  }

  /** So as long as no buffer is full, every created record is pending, in an upload, or counted. */
  lemma NoneLost(cfg: Config, w0: World, steps: seq<Step>, timely: bool, c: nat, r: Record)
    requires cfg.max >= 1 && Initial(w0) && KeysApart(cfg, w0.clients.Keys) && IsRun(cfg, w0, steps, timely)
    requires RoomForAll(cfg, w0, steps, timely) && c in w0.clients
    ensures var w := After(cfg, w0, steps, timely);
      c in w.clients && (r in w.clients[c].created ==>
        r in w.clients[c].pending || r in w.clients[c].inflight || cfg.keyOf(c, r.seqNo) in w.server.accepted)
  {
    NothingDropped(cfg, w0, steps, timely, c);
    EffectivelyOnce(cfg, w0, steps, timely);
    var w := After(cfg, w0, steps, timely);
    assert r in w.clients[c].created ==> Accounted(cfg, w, c, r);
  }

  lemma {:induction false} ServesRun(cfg: Config, w: World, c: nat, batch: seq<Record>, now: int)
    returns (steps: seq<Step>)
    requires Sent(w, c, batch) && w.server.clock <= now
    ensures |steps| == |batch| && IsRun(cfg, w, steps, false)
    ensures var v := After(cfg, w, steps, false);
      v.clients == w.clients && v.server.clock <= now && AllSeen(cfg, v, c, batch)
  {
    if batch == [] {
      steps := [];
    } else {
      var k := |batch| - 1;
      var before := ServesRun(cfg, w, c, batch[..k], now);
      steps := before + [Serve(c, batch[k].seqNo, now)];
      RunSnoc(cfg, w, before, Serve(c, batch[k].seqNo, now));
      var u := After(cfg, w, before, false);
      assert w.clients[c := w.clients[c]] == w.clients;
      forall i | 0 <= i < |batch| ensures cfg.keyOf(c, batch[i].seqNo) in After(cfg, w, steps, false).server.last {
        assert i < k ==> cfg.keyOf(c, batch[..k][i].seqNo) in u.server.last;
      }
    }
  }

  ghost predicate AllSeen(cfg: Config, w: World, c: nat, batch: seq<Record>) {
    forall i :: 0 <= i < |batch| ==> cfg.keyOf(c, batch[i].seqNo) in w.server.last
  }

  /** Taking a batch and confirming it. */
  lemma ConfirmedClient(cfg: Config, cl: Client, c: nat, n: nat)
    requires cl.inflight == [] && n == if |cl.pending| <= 200 then |cl.pending| else 200
    ensures ClientNext(cfg, cl, StartUpload(c)).inflight == cl.pending[..n]
    ensures ClientNext(cfg, ClientNext(cfg, cl, StartUpload(c)), Confirm(c)) ==
      cl.(pending := cl.pending[n..], sent := cl.sent + SeqNos(cl.pending[..n]),
          confirmed := cl.confirmed + SeqNos(cl.pending[..n]))
  {
  }

  lemma ConfirmRuns(cfg: Config, u: World, c: nat, now: int) returns (steps: seq<Step>)
    requires cfg.max >= 1 && Inv(cfg, u) && c in u.clients && u.server.clock <= now && u.clients[c].inflight != []
    ensures |steps| == |u.clients[c].inflight| + 1 && IsRun(cfg, u, steps, false)
    ensures var v, batch := After(cfg, u, steps, false), u.clients[c].inflight;
      v.clients == u.clients[c := ClientNext(cfg, u.clients[c], Confirm(c))]
      && forall i :: 0 <= i < |batch| ==> cfg.keyOf(c, batch[i].seqNo) in v.server.accepted
  {
    var batch := u.clients[c].inflight;
    assert ClientInv(cfg, u.clients[c]);
    SentBatch(u, c);
    var serves := ServesRun(cfg, u, c, batch, now);
    var x := After(cfg, u, serves, false);
    RunKeeps(cfg, u, serves, false);
    RunSnoc(cfg, u, serves, Confirm(c));
    steps := serves + [Confirm(c)];
  }

  lemma SentBatch(u: World, c: nat)
    requires c in u.clients && SeqNos(u.clients[c].inflight) <= u.clients[c].sent
    ensures Sent(u, c, u.clients[c].inflight)
  {
    var batch := u.clients[c].inflight;
    forall i | 0 <= i < |batch| ensures batch[i].seqNo in u.clients[c].sent {
      assert batch[i] in batch;
    }
  }

  /** One upload of which nothing is lost: the oldest 200 pending records, or all if there are no more, are
      confirmed and counted, and the others stay in order. */
  lemma UploadConfirms(cfg: Config, w: World, c: nat, now: int) returns (steps: seq<Step>)
    requires cfg.max >= 1 && Inv(cfg, w) && c in w.clients && w.server.clock <= now
    requires w.clients[c].inflight == [] && w.clients[c].pending != []
    ensures var cl := w.clients[c];
      var n := if |cl.pending| <= 200 then |cl.pending| else 200;
      && |steps| == n + 2 && IsRun(cfg, w, steps, false)
      && var v := After(cfg, w, steps, false);
         && c in v.clients
         && v.clients[c] == cl.(pending := cl.pending[n..], sent := cl.sent + SeqNos(cl.pending[..n]),
                                confirmed := cl.confirmed + SeqNos(cl.pending[..n]))
         && forall i :: 0 <= i < n ==> cfg.keyOf(c, cl.pending[i].seqNo) in v.server.accepted
  {
    var cl := w.clients[c];
    var n := if |cl.pending| <= 200 then |cl.pending| else 200;
    ConfirmedClient(cfg, cl, c, n);
    StepKeeps(cfg, w, StartUpload(c));
    var u := Next(cfg, w, StartUpload(c));
    var rest := ConfirmRuns(cfg, u, c, now);
    steps := [StartUpload(c)] + rest;
    Prepend(cfg, w, StartUpload(c), rest);
    InBatch(cfg, cl, n, u.clients[c].inflight, c, After(cfg, w, steps, false).server);
  }

  lemma InBatch(cfg: Config, cl: Client, n: nat, batch: seq<Record>, c: nat, sv: Server)
    requires n <= |cl.pending| && batch == cl.pending[..n]
    requires forall i :: 0 <= i < |batch| ==> cfg.keyOf(c, batch[i].seqNo) in sv.accepted
    ensures forall i :: 0 <= i < n ==> cfg.keyOf(c, cl.pending[i].seqNo) in sv.accepted
  {
    forall i | 0 <= i < n ensures cfg.keyOf(c, cl.pending[i].seqNo) in sv.accepted {
      assert batch[i] == cl.pending[i];
    }
  }

  lemma Prepend(cfg: Config, w: World, step: Step, rest: seq<Step>)
    requires Enabled(cfg, w, step) && IsRun(cfg, Next(cfg, w, step), rest, false)
    ensures IsRun(cfg, w, [step] + rest, false)
    ensures After(cfg, w, [step] + rest, false) == After(cfg, Next(cfg, w, step), rest, false)
  {
    assert ([step] + rest)[1..] == rest;
  }

  /** A new request can always be recorded, whatever is in the buffer or under way. */
  lemma RecordEnters(cfg: Config, w: World, c: nat, payload: int)
    requires c in w.clients
    ensures var rec := Record(w.clients[c].nextSeq + 1, payload);
      var steps := [StampRecord(c), Buffer(c, rec)];
      && IsRun(cfg, w, steps, false)
      && var v := After(cfg, w, steps, false);
         c in v.clients && v.clients[c].created == w.clients[c].created + [rec] && v.clients[c].pending != []
         && v.clients[c].pending[|v.clients[c].pending| - 1] == rec
  {
    var rec := Record(w.clients[c].nextSeq + 1, payload);
    var u := Next(cfg, w, StampRecord(c));
    Prepend(cfg, u, Buffer(c, rec), []);
    Prepend(cfg, w, StampRecord(c), [Buffer(c, rec)]);
    assert [Buffer(c, rec)] + [] == [Buffer(c, rec)];
    assert [StampRecord(c)] + [Buffer(c, rec)] == [StampRecord(c), Buffer(c, rec)];
  }

  /** An upload that fails leaves the buffer as it was. */
  lemma FailRequeues(cfg: Config, w: World, c: nat)
    requires c in w.clients && w.clients[c].inflight == [] && w.clients[c].pending != []
    ensures var steps := [StartUpload(c), Fail(c)];
      && IsRun(cfg, w, steps, false)
      && var v := After(cfg, w, steps, false);
         c in v.clients && v.clients[c].pending == w.clients[c].pending && v.clients[c].inflight == []
  {
    var u := Next(cfg, w, StartUpload(c));
    Prepend(cfg, u, Fail(c), []);
    Prepend(cfg, w, StartUpload(c), [Fail(c)]);
    assert [Fail(c)] + [] == [Fail(c)];
    assert [StartUpload(c)] + [Fail(c)] == [StartUpload(c), Fail(c)];
  }

  // ---- The keys.

  /** client + "/" + requestID, with requestID = ClientName-nonce-seq. */
  function DedupKey(name: string, prefix: string, n: nat): string {
    name + "/" + (prefix + "-" + Itoa(n))
  }

  /** A key determines the number, and name and prefix up to where the one ends and the other begins. */
  lemma KeyDetermines(a: string, x: string, n: nat, b: string, y: string, m: nat)
    ensures DedupKey(a, x, n) == DedupKey(b, y, m) <==> a + "/" + x == b + "/" + y && n == m
  {
    var k, l := DedupKey(a, x, n), DedupKey(b, y, m);
    var p, q := a + "/" + x, b + "/" + y;
    assert k == p + "-" + Itoa(n) && l == q + "-" + Itoa(m);
    DigitsAfterHyphen(p, Itoa(n));
    DigitsAfterHyphen(q, Itoa(m));
    assert p == k[..|p|] && q == l[..|q|] && Itoa(n) == k[|p| + 1..] && Itoa(m) == l[|q| + 1..];
    if k == l {
      ItoaInjective(n, m);
    }
  }

  /** One name, followed by a slash, begins the other. */
  predicate Nested(a: string, b: string) {
    a + "/" <= b || b + "/" <= a
  }

  ghost predicate Collision(a: string, x: string, n: nat, b: string, y: string, m: nat) {
    DedupKey(a, x, n) == DedupKey(b, y, m)
  }

  lemma SplitName(a: string, x: string, b: string, y: string)
    requires a + "/" + x == b + "/" + y && |a| <= |b|
    ensures if |a| == |b| then a == b && x == y else a + "/" <= b
  {
    var s, t := a + "/" + x, b + "/" + y;
    assert s[..|a| + 1] == a + "/" && t[..|b|] == b;
    if |a| == |b| {
      assert a == s[..|a|] && x == s[|a| + 1..] && y == t[|b| + 1..];
    } else {
      assert t[..|b|][..|a| + 1] == t[..|a| + 1];
    }
  }

  /** With a name inside the other, ids that make up for the difference collide. */
  lemma NestedCollides(a: string, b: string, q: string, n: nat) returns (x: string)
    requires a + "/" <= b
    ensures Collision(a, x, n, b, q, n)
  {
    var rest := b[|a| + 1..];
    x := rest + "/" + q;
    assert a + "/" + rest == b;
    assert a + "/" + x == (a + "/" + rest) + "/" + q;
    KeyDetermines(a, x, n, b, q, n);
  }

  /** Two names can give two records one key exactly when one, followed by a slash, begins the other. */
  lemma NamesCollideIff(a: string, b: string)
    requires a != b
    ensures (exists x, n, y, m :: Collision(a, x, n, b, y, m)) <==> Nested(a, b)
  {
    if Nested(a, b) {
      if a + "/" <= b {
        var x := NestedCollides(a, b, "", 0);
      } else {
        var x := NestedCollides(b, a, "", 0);
        assert Collision(a, "", 0, b, x, 0);
      }
    }
    forall x, n, y, m | Collision(a, x, n, b, y, m) ensures Nested(a, b) {
      KeyDetermines(a, x, n, b, y, m);
      if |a| <= |b| {
        SplitName(a, x, b, y);
      } else {
        SplitName(b, y, a, x);
      }
    }
  }

  /** Under one name, whatever it contains, a key determines the record. */
  lemma SameNameInjective(a: string, x: string, n: nat, y: string, m: nat)
    ensures Collision(a, x, n, a, y, m) <==> x == y && n == m
  {
    KeyDetermines(a, x, n, a, y, m);
    if a + "/" + x == a + "/" + y {
      SplitName(a, x, a, y);
    }
  }

  /** For instance. */
  lemma SlashCollides()
    ensures Collision("a", "b/c", 1, "a/b", "c", 1)
  {
  }

  // ---- A fleet of named clients.

  /** name is what the server has configured for a client's token, prefix what its ids begin with. */
  ghost function Fleet(max: nat, evictAfter: int, name: nat -> string, prefix: nat -> string): Config {
    Config(max, evictAfter, (c: nat, n: nat) => DedupKey(name(c), prefix(c), n))
  }

  ghost predicate NamesApart(name: nat -> string, clients: set<nat>) {
    forall c, d :: c in clients && d in clients && c != d ==> name(c) != name(d) && !Nested(name(c), name(d))
  }

  lemma ApartKeys(max: nat, evictAfter: int, name: nat -> string, prefix: nat -> string, clients: set<nat>)
    requires NamesApart(name, clients)
    ensures KeysApart(Fleet(max, evictAfter, name, prefix), clients)
  {
    var cfg := Fleet(max, evictAfter, name, prefix);
    forall c, n, d, m | c in clients && d in clients && cfg.keyOf(c, n) == cfg.keyOf(d, m) ensures c == d && n == m {
      assert Collision(name(c), prefix(c), n, name(d), prefix(d), m);
      if c != d {
        NamesCollideIff(name(c), name(d));
      } else {
        SameNameInjective(name(c), prefix(c), n, prefix(d), m);
      }
    }
  }

  lemma CloseNamesClash(max: nat, evictAfter: int, name: nat -> string, clients: set<nat>, c: nat, d: nat)
    requires c in clients && d in clients && c != d && (name(c) == name(d) || name(c) + "/" <= name(d))
    ensures exists prefix: nat -> string :: !KeysApart(Fleet(max, evictAfter, name, prefix), clients)
  {
    var x := "";
    if name(c) != name(d) {
      x := NestedCollides(name(c), name(d), "", 0);
    }
    var prefix := (k: nat) => if k == c then x else "";
    var cfg := Fleet(max, evictAfter, name, prefix);
    assert cfg.keyOf(c, 0) == cfg.keyOf(d, 0);
    assert !KeysApart(cfg, clients);
  }

  /** Whatever ids the clients make up, their keys stay apart: exactly when no two names are equal or
      nested. */
  lemma FleetApartIff(max: nat, evictAfter: int, name: nat -> string, clients: set<nat>)
    ensures (forall prefix: nat -> string :: KeysApart(Fleet(max, evictAfter, name, prefix), clients))
       <==> NamesApart(name, clients)
  {
    if NamesApart(name, clients) {
      forall prefix: nat -> string ensures KeysApart(Fleet(max, evictAfter, name, prefix), clients) {
        ApartKeys(max, evictAfter, name, prefix, clients);
      }
    } else {
      var c, d :| c in clients && d in clients && c != d && (name(c) == name(d) || Nested(name(c), name(d)));
      if name(c) == name(d) || name(c) + "/" <= name(d) {
        CloseNamesClash(max, evictAfter, name, clients, c, d);
      } else {
        CloseNamesClash(max, evictAfter, name, clients, d, c);
      }
    }
  }

  /** What comes before the number in a client's keys. */
  function Stem(name: string, prefix: string): string {
    name + "/" + prefix
  }

  ghost predicate StemsApart(name: nat -> string, prefix: nat -> string, clients: set<nat>) {
    forall c, d :: c in clients && d in clients && c != d ==> Stem(name(c), prefix(c)) != Stem(name(d), prefix(d))
  }

  /** With the ids that the clients do use, their keys stay apart: exactly when no two clients share what
      comes before the number. */
  lemma StemsApartIff(max: nat, evictAfter: int, name: nat -> string, prefix: nat -> string, clients: set<nat>)
    ensures KeysApart(Fleet(max, evictAfter, name, prefix), clients) <==> StemsApart(name, prefix, clients)
  {
    var cfg := Fleet(max, evictAfter, name, prefix);
    if StemsApart(name, prefix, clients) {
      forall c, n, d, m | c in clients && d in clients && cfg.keyOf(c, n) == cfg.keyOf(d, m) ensures c == d && n == m {
        KeyDetermines(name(c), prefix(c), n, name(d), prefix(d), m);
      }
    } else {
      var c, d :| c in clients && d in clients && c != d && Stem(name(c), prefix(c)) == Stem(name(d), prefix(d));
      KeyDetermines(name(c), prefix(c), 0, name(d), prefix(d), 0);
      assert cfg.keyOf(c, 0) == cfg.keyOf(d, 0);
    }
  }

  /** A client that comes back under its old name needs a new nonce in its ids, and nothing else, provided that
      different names are not nested. */
  lemma RestartsApart(name: nat -> string, prefix: nat -> string, clients: set<nat>)
    requires forall c, d :: c in clients && d in clients && name(c) != name(d) ==> !Nested(name(c), name(d))
    ensures StemsApart(name, prefix, clients) <==>
      forall c, d :: c in clients && d in clients && c != d && name(c) == name(d) ==> prefix(c) != prefix(d)
  {
    forall c, d | c in clients && d in clients
      ensures Stem(name(c), prefix(c)) == Stem(name(d), prefix(d)) <==> name(c) == name(d) && prefix(c) == prefix(d)
    {
      if name(c) == name(d) {
        SameNameInjective(name(c), prefix(c), 0, prefix(d), 0);
        KeyDetermines(name(c), prefix(c), 0, name(d), prefix(d), 0);
      } else if Stem(name(c), prefix(c)) == Stem(name(d), prefix(d)) {
        KeyDetermines(name(c), prefix(c), 0, name(d), prefix(d), 0);
        assert Collision(name(c), prefix(c), 0, name(d), prefix(d), 0);
        NamesCollideIff(name(c), name(d));
      }
    }
  }

  /** Clients that share no stem are counted effectively once; a restart is a client with a new nonce. */
  lemma NamedClientsOnce(max: nat, evictAfter: int, name: nat -> string, prefix: nat -> string, w0: World,
                         steps: seq<Step>, timely: bool)
    requires var cfg := Fleet(max, evictAfter, name, prefix);
      max >= 1 && Initial(w0) && StemsApart(name, prefix, w0.clients.Keys) && IsRun(cfg, w0, steps, timely)
    ensures var cfg := Fleet(max, evictAfter, name, prefix);
      Once(cfg, After(cfg, w0, steps, timely), timely)
  {
    StemsApartIff(max, evictAfter, name, prefix, w0.clients.Keys);
    EffectivelyOnce(Fleet(max, evictAfter, name, prefix), w0, steps, timely);
  }

  // ---- An upload is a run of the protocol.

  datatype Sighting = Sighting(key: string, time: int)

  /** What the server looks up while it works through a batch. */
  function Sightings(client: string, records: seq<WireRecord>, times: seq<int>): seq<Sighting>
    requires |records| == |times|
  {
    if records == [] then []
    else
      var last := |records| - 1;
      Sightings(client, records[..last], times[..last]) +
      (if Considered(records[last]) then [Sighting(client + "/" + records[last].id, times[last])] else [])
  }

  function SightAll(cfg: Config, sv: Server, sightings: seq<Sighting>): Server {
    if sightings == [] then sv
    else
      var last := sightings[|sightings| - 1];
      ServerNext(cfg, SightAll(cfg, sv, sightings[..|sightings| - 1]), last.key, last.time)
  }

  /** Ingesting a batch is sighting its records one by one: the same memory, and the records counted are
      those newly accepted. */
  lemma {:induction false} IngestIsSighting(cfg: Config, sv: Server, client: string, records: seq<WireRecord>,
                                            times: seq<int>)
    requires |records| == |times|
    ensures var v := SightAll(cfg, sv, Sightings(client, records, times));
      var (seen, counted) := IngestAll(sv.seen, cfg.evictAfter, client, records, times);
      v.seen == seen && v.accepted == sv.accepted + counted
  {
    if records != [] {
      var last := |records| - 1;
      IngestIsSighting(cfg, sv, client, records[..last], times[..last]);
      var before := Sightings(client, records[..last], times[..last]);
      var all := Sightings(client, records, times);
      if Considered(records[last]) {
        assert all[..|all| - 1] == before;
      } else {
        assert all == before;
      }
    }
  }

  /** A client's records as they travel, each with its source. */
  function Wires(prefix: string, batch: seq<Record>, sources: seq<string>): (ws: seq<WireRecord>)
    requires |sources| == |batch|
    ensures |ws| == |batch|
  {
    seq(|batch|, i requires 0 <= i < |batch| => WireRecord(prefix + "-" + Itoa(batch[i].seqNo), sources[i]))
  }

  function ServeSteps(c: nat, batch: seq<Record>, times: seq<int>): (steps: seq<Step>)
    requires |batch| == |times|
    ensures |steps| == |batch|
  {
    seq(|batch|, i requires 0 <= i < |batch| => Serve(c, batch[i].seqNo, times[i]))
  }

  ghost predicate Rising(clock: int, times: seq<int>) {
    (forall i :: 0 <= i < |times| ==> clock <= times[i]) && forall i, j :: 0 <= i < j < |times| ==> times[i] <= times[j]
  }

  lemma {:induction false} RunSnoc(cfg: Config, w: World, steps: seq<Step>, step: Step)
    requires IsRun(cfg, w, steps, false) && Enabled(cfg, After(cfg, w, steps, false), step)
    ensures IsRun(cfg, w, steps + [step], false)
    ensures After(cfg, w, steps + [step], false) == Next(cfg, After(cfg, w, steps, false), step)
    decreases |steps|
  {
    var all := steps + [step];
    if steps == [] {
      assert all[1..] == [];
    } else {
      assert all[1..] == steps[1..] + [step];
      RunSnoc(cfg, Next(cfg, w, steps[0]), steps[1..], step);
    }
  }

  /** The batch as the client's records travel. */
  ghost predicate Carries(cfg: Config, c: nat, batch: seq<Record>, client: string, wires: seq<WireRecord>) {
    |wires| == |batch| &&
    forall i :: 0 <= i < |batch| ==> Considered(wires[i]) && client + "/" + wires[i].id == cfg.keyOf(c, batch[i].seqNo)
  }

  ghost predicate Sent(w: World, c: nat, batch: seq<Record>) {
    c in w.clients && forall i :: 0 <= i < |batch| ==> batch[i].seqNo in w.clients[c].sent
  }

  ghost predicate Serves(cfg: Config, w: World, steps: seq<Step>, sv: Server) {
    IsRun(cfg, w, steps, false) && After(cfg, w, steps, false) == World(w.clients, sv)
  }

  lemma ServeNext(cfg: Config, w: World, steps: seq<Step>, sv: Server, c: nat, n: nat, now: int)
    requires Serves(cfg, w, steps, sv) && c in w.clients && n in w.clients[c].sent && sv.clock <= now
    ensures Serves(cfg, w, steps + [Serve(c, n, now)], ServerNext(cfg, sv, cfg.keyOf(c, n), now))
  {
    RunSnoc(cfg, w, steps, Serve(c, n, now));
    assert w.clients[c := w.clients[c]] == w.clients;
  }

  lemma {:induction false} SightingsRun(cfg: Config, w: World, c: nat, batch: seq<Record>, client: string,
                                        wires: seq<WireRecord>, times: seq<int>)
    requires Sent(w, c, batch) && Carries(cfg, c, batch, client, wires)
    requires |batch| == |times| && Rising(w.server.clock, times)
    ensures var sv := SightAll(cfg, w.server, Sightings(client, wires, times));
      && Serves(cfg, w, ServeSteps(c, batch, times), sv)
      && sv.clock == if times == [] then w.server.clock else times[|times| - 1]
  {
    if batch != [] {
      var k := |batch| - 1;
      SightingsRun(cfg, w, c, batch[..k], client, wires[..k], times[..k]);
      var sv := SightAll(cfg, w.server, Sightings(client, wires[..k], times[..k]));
      StepsSnoc(c, batch, times, k);
      ServeNext(cfg, w, ServeSteps(c, batch[..k], times[..k]), sv, c, batch[k].seqNo, times[k]);
      LastSighting(cfg, w.server, client, wires, times, k);
    }
  }

  lemma StepsSnoc(c: nat, batch: seq<Record>, times: seq<int>, k: nat)
    requires |batch| == |times| == k + 1
    ensures ServeSteps(c, batch, times) == ServeSteps(c, batch[..k], times[..k]) + [Serve(c, batch[k].seqNo, times[k])]
  {
  }

  /** What the server does with an upload of sent records, at times that do not run backwards, is a run
      of Serve steps: it ends in the memory of the ingest, with the keys that it counted. */
  lemma UploadIsRun(max: nat, evictAfter: int, name: nat -> string, prefix: nat -> string, w: World,
                    c: nat, batch: seq<Record>, sources: seq<string>, times: seq<int>)
    requires Sent(w, c, batch) && |batch| == |times| && Rising(w.server.clock, times)
    requires |sources| == |batch| && forall i :: 0 <= i < |batch| ==> ValidSource(sources[i])
    ensures var cfg := Fleet(max, evictAfter, name, prefix);
      var steps := ServeSteps(c, batch, times);
      var (seen, counted) := IngestAll(w.server.seen, evictAfter, name(c), Wires(prefix(c), batch, sources), times);
      && IsRun(cfg, w, steps, false)
      && After(cfg, w, steps, false).clients == w.clients
      && After(cfg, w, steps, false).server.seen == seen
      && After(cfg, w, steps, false).server.accepted == w.server.accepted + counted
  {
    var cfg := Fleet(max, evictAfter, name, prefix);
    var wires := Wires(prefix(c), batch, sources);
    forall i | 0 <= i < |batch|
      ensures Considered(wires[i]) && name(c) + "/" + wires[i].id == cfg.keyOf(c, batch[i].seqNo)
    {
      assert wires[i] == WireRecord(prefix(c) + "-" + Itoa(batch[i].seqNo), sources[i]);
    }
    SightingsRun(cfg, w, c, batch, name(c), wires, times);
    IngestIsSighting(cfg, w.server, name(c), wires, times);
  }

  lemma LastSighting(cfg: Config, sv: Server, client: string, wires: seq<WireRecord>, times: seq<int>, k: nat)
    requires |wires| == |times| == k + 1 && Considered(wires[k])
    ensures SightAll(cfg, sv, Sightings(client, wires, times))
         == ServerNext(cfg, SightAll(cfg, sv, Sightings(client, wires[..k], times[..k])),
                       client + "/" + wires[k].id, times[k])
  {
    var before := Sightings(client, wires[..k], times[..k]);
    var all := Sightings(client, wires, times);
    assert all == before + [Sighting(client + "/" + wires[k].id, times[k])];
    assert all[..|all| - 1] == before;
  }
}
