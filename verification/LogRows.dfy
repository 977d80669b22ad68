/** Log rows, query filters, and order-preserving selections of rows. */
module LogRows {
  import opened Decimal
  import opened Selections

  /** model.Log with its creation time in whole seconds. */
  datatype Row = Row(
    id: int, tokenID: int, channelID: int, keyID: int, model: string,
    promptTokens: int, completionTokens: int, cachedTokens: int, reasoningTokens: int,
    cacheHit: bool, realCost: real, billedCost: real, durationMs: int, statusCode: int,
    routerPath: string, requestIP: string, endpoint: string, units: int, created: int)

  datatype QueryFilter = QueryFilter(
    tokenID: int, tokenIDs: seq<int>, channelID: int, keyID: int, model: string,
    endpoint: string, statusCode: int, cacheHit: bool, createdFrom: int, createdTo: int,
    limit: int, offset: int)

  predicate MatchFilter(f: QueryFilter, e: Row) {
    if f.tokenID > 0 && e.tokenID != f.tokenID then false
    else if |f.tokenIDs| > 0 && !(exists i :: 0 <= i < |f.tokenIDs| && f.tokenIDs[i] == e.tokenID) then false
    else if f.channelID > 0 && e.channelID != f.channelID then false
    else if f.keyID > 0 && e.keyID != f.keyID then false
    else if f.model != "" && e.model != f.model then false
    else if f.endpoint != "" && e.endpoint != f.endpoint then false
    else if f.statusCode > 0 && e.statusCode != f.statusCode then false
    else if f.cacheHit && !e.cacheHit then false
    else if f.createdFrom > 0 && e.created < f.createdFrom then false
    else if f.createdTo > 0 && e.created > f.createdTo then false
    else true
  }

  predicate FilterIsEmpty(f: QueryFilter) {
    f.tokenID == 0 && |f.tokenIDs| == 0 && f.channelID == 0 && f.keyID == 0 && f.model == "" &&
    f.endpoint == "" && f.statusCode == 0 && !f.cacheHit && f.createdFrom == 0 && f.createdTo == 0
  }

  predicate ValidField(field: string) {
    field == "model" || field == "channel_id" || field == "token_id"
  }

  /** The three fields that rows can be grouped by. */
  lemma ValidFields(field: string)
    ensures ValidField(field) <==> field in {"model", "channel_id", "token_id"}
  {
  }

  function FieldKey(field: string, e: Row): string {
    if field == "model" then e.model
    else if field == "channel_id" then FormatInt(e.channelID)
    else if field == "token_id" then FormatInt(e.tokenID)
    else ""
  }

  /** Go's integer division, which truncates toward zero. */
  function TruncDiv(a: int, b: int): int
    requires b > 0
  {
    if a >= 0 then a / b else -((-a) / b)
  }

  /** The start of the time bucket of the given width that a row falls into. */
  function Bucketing(width: int): Row -> int
    requires width > 0
  {
    (r: Row) => TruncDiv(r.created, width) * width
  }

  /** The seconds of a bucket that starts at b: the width of them from b on, or up to b before 1970. */
  function InSpan(width: int, b: int): Row -> bool {
    (r: Row) => if r.created >= 0 then b <= r.created < b + width else b - width < r.created <= b
  }

  /** Buckets start at the multiples of the width and span it. */
  lemma BucketIff(width: int, r: Row, b: int)
    requires width > 0
    ensures Bucketing(width)(r) == b <==> b % width == 0 && InSpan(width, b)(r)
  {
    var q := TruncDiv(r.created, width);
    var k := b / width;
    assert k * width + b % width == b;
    Remainder(r.created, width);
    MultipleOf(q, width);
    if b % width == 0 && InSpan(width, b)(r) {
      assert (k - q) * width == b - q * width;
      SameMultiple(k - q, width);
    }
  }

  lemma Remainder(c: int, width: int)
    requires width > 0
    ensures var start := TruncDiv(c, width) * width;
      if c >= 0 then start <= c < start + width else start - width < c <= start
  {
    var n := if c >= 0 then c else -c;
    assert n / width * width + n % width == n;
    assert -(n / width) * width == -(n / width * width);
  }

  lemma MultipleOf(q: int, width: int)
    requires width > 0
    ensures q * width % width == 0
  {
    var x := q * width;
    var d := x / width - q;
    assert d * width == x / width * width - x;
    assert x == x / width * width + x % width;
    SameMultiple(d, width);
  }

  lemma SameMultiple(d: int, width: int)
    requires width > 0 && -width < d * width < width
    ensures d == 0
  {
    AtLeastOnce(d, width);
  }

  lemma AtLeastOnce(d: int, width: int)
    requires width > 0
    ensures d >= 1 ==> d * width >= width
    ensures d <= -1 ==> d * width <= -width
  {
  }

  // The ways in which the log store picks rows.

  function InSecond(c: int): Row -> bool {
    (r: Row) => r.created == c
  }

  function OnDate(dateOf: int -> string, d: string): Row -> bool {
    (r: Row) => dateOf(r.created) == d
  }

  function OnDates(dateOf: int -> string, ds: set<string>): Row -> bool {
    (r: Row) => dateOf(r.created) in ds
  }

  function Passing(f: QueryFilter): Row -> bool {
    (r: Row) => MatchFilter(f, r)
  }

  function Labelled(field: string, name: string): Row -> bool {
    (r: Row) => FieldKey(field, r) == name
  }

  /** The rows that a field groups under a label. */
  function HasLabel(field: string, k: string): Row -> bool {
    (r: Row) =>
      || (field == "model" && r.model == k)
      || (field == "channel_id" && FormatInt(r.channelID) == k)
      || (field == "token_id" && FormatInt(r.tokenID) == k)
  }

  function InBucket(bucketOf: Row -> int, bucket: int): Row -> bool {
    (r: Row) => bucketOf(r) == bucket
  }

  /** A filter that only pages is empty. */
  lemma PagingIsNoFilter(limit: int, offset: int)
    ensures FilterIsEmpty(QueryFilter(0, [], 0, 0, "", "", 0, false, 0, 0, limit, offset))
  {
  }

  lemma EmptyFilterSelectsAll(f: QueryFilter, rows: seq<Row>)
    requires FilterIsEmpty(f)
    ensures Select(Passing(f), rows) == rows
  {
    forall r | r in rows ensures Passing(f)(r) {}
    SelectAll(Passing(f), rows);
  }
}
