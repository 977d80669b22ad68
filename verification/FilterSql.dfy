/** Compiling query filters to SQL: the text, the bound arguments, and what they mean. */
module FilterSql {
  import opened LogRows
  import opened Selections
  import opened BindMarkers

  datatype Arg = IntArg(n: int) | StrArg(s: string)

  // ---- Query text as fragments: each bind marker carries the argument meant for it.

  datatype Frag = Text(s: string) | Bind(arg: Arg)

  function FragText(f: Frag): string {
    if f.Text? then f.s else "?"
  }

  function FragArgs(f: Frag): seq<Arg> {
    if f.Bind? then [f.arg] else []
  }

  function Query(frags: seq<Frag>): string {
    if frags == [] then "" else Query(frags[..|frags| - 1]) + FragText(frags[|frags| - 1])
  }

  function Args(frags: seq<Frag>): seq<Arg> {
    if frags == [] then []
    else
      var init, last := frags[..|frags| - 1], frags[|frags| - 1];
      Args(init) + FragArgs(last)
  }

  /** The Postgres text: the marker that carries the k-th argument reads $k. */
  function Numbered(frags: seq<Frag>): string {
    if frags == [] then ""
    else
      var init, last := frags[..|frags| - 1], frags[|frags| - 1];
      Numbered(init) + (if last.Bind? then Marker(|Args(init)| + 1) else last.s)
  }

  ghost predicate PlainFrags(frags: seq<Frag>) {
    forall i :: 0 <= i < |frags| && frags[i].Text? ==> Plain(frags[i].s)
  }

  /** Rewriting the text of a query gives every argument its own number. */
  lemma {:induction false} RewriteNumbers(frags: seq<Frag>)
    requires PlainFrags(frags)
    ensures Rewritten(Query(frags)) == Numbered(frags)
    ensures var q := Query(frags); Markers(q, |q|) == |Args(frags)| && Quotes(q, |q|) == 0
  {
    if frags != [] {
      var init, last := frags[..|frags| - 1], frags[|frags| - 1];
      RewriteNumbers(init);
      if last.Text? {
        PlainAppends(Query(init), last.s);
      } else {
        Snoc(Query(init), '?');
      }
    }
  }

  lemma {:induction false} FragsConcat(a: seq<Frag>, b: seq<Frag>)
    ensures Query(a + b) == Query(a) + Query(b) && Args(a + b) == Args(a) + Args(b)
  {
    if b == [] {
      assert a + b == a;
    } else {
      var init, last := b[..|b| - 1], b[|b| - 1];
      assert a + b == (a + init) + [last] && b == init + [last];
      FragsConcat(a, init);
      FragsSnoc(a + init, last);
      FragsSnoc(init, last);
      Reassociate(Query(a), Query(init), FragText(last));
      Reassociate(Args(a), Args(init), FragArgs(last));
    }
  }

  lemma FragsSnoc(frags: seq<Frag>, last: Frag)
    ensures Query(frags + [last]) == Query(frags) + FragText(last)
    ensures Args(frags + [last]) == Args(frags) + FragArgs(last)
  {
    assert (frags + [last])[..|frags|] == frags;
  }

  // ---- Conditions.

  datatype Column = TokenID | ChannelID | KeyID | Model | Endpoint | StatusCode | CreatedAt

  function ColumnName(c: Column): string {
    match c
    case TokenID => "token_id"
    case ChannelID => "channel_id"
    case KeyID => "key_id"
    case Model => "model"
    case Endpoint => "endpoint"
    case StatusCode => "status_code"
    case CreatedAt => "created_at"
  }

  function Value(c: Column, e: Row): Arg {
    match c
    case TokenID => IntArg(e.tokenID)
    case ChannelID => IntArg(e.channelID)
    case KeyID => IntArg(e.keyID)
    case Model => StrArg(e.model)
    case Endpoint => StrArg(e.endpoint)
    case StatusCode => IntArg(e.statusCode)
    case CreatedAt => IntArg(e.created)
  }

  datatype Cond =
    | Equals(col: Column, arg: Arg)
    | OneOf(col: Column, ids: seq<int>)
    | IsCacheHit
    | NotBefore(t: int)
    | NotAfter(t: int)
    | InDays(starts: seq<int>)

  /** What the condition says of a row. */
  predicate Eval(c: Cond, e: Row) {
    match c
    case Equals(col, arg) => Value(col, e) == arg
    case OneOf(col, ids) => exists i :: 0 <= i < |ids| && Value(col, e) == IntArg(ids[i])
    case IsCacheHit => e.cacheHit
    case NotBefore(t) => e.created >= t
    case NotAfter(t) => e.created <= t
    case InDays(starts) => exists i :: 0 <= i < |starts| && starts[i] <= e.created < starts[i] + 86400
  }

  predicate EvalAll(cs: seq<Cond>, e: Row) {
    forall i :: 0 <= i < |cs| ==> Eval(cs[i], e)
  }

  function ListFrags(ids: seq<int>): seq<Frag> {
    if ids == [] then []
    else ListFrags(ids[..|ids| - 1]) + (if |ids| > 1 then [Text(",")] else []) + [Bind(IntArg(ids[|ids| - 1]))]
  }

  function DayFrags(start: int): seq<Frag> {
    [Text("(created_at >= "), Bind(IntArg(start)), Text(" AND created_at < "), Bind(IntArg(start + 86400)), Text(")")]
  }

  function DaysFrags(starts: seq<int>): seq<Frag> {
    if starts == [] then []
    else
      DaysFrags(starts[..|starts| - 1]) + (if |starts| > 1 then [Text(" OR ")] else []) + DayFrags(starts[|starts| - 1])
  }

  function CondFrags(c: Cond): seq<Frag> {
    match c
    case Equals(col, arg) => [Text(ColumnName(col) + " = "), Bind(arg)]
    case OneOf(col, ids) => [Text(ColumnName(col) + " IN (")] + ListFrags(ids) + [Text(")")]
    case IsCacheHit => [Text("cache_hit = 1")]
    case NotBefore(t) => [Text("created_at >= "), Bind(IntArg(t))]
    case NotAfter(t) => [Text("created_at <= "), Bind(IntArg(t))]
    case InDays(starts) => [Text("(")] + DaysFrags(starts) + [Text(")")]
  }

  /** The conditions joined by AND. */
  function WhereFrags(cs: seq<Cond>): seq<Frag> {
    if cs == [] then []
    else WhereFrags(cs[..|cs| - 1]) + (if |cs| > 1 then [Text(" AND ")] else []) + CondFrags(cs[|cs| - 1])
  }

  /** A condition, and whether the filter asks for it. */
  datatype Wanted = Wanted(on: bool, cond: Cond)

  /** The conditions asked for among the first k. */
  function Keep(ws: seq<Wanted>, k: nat): seq<Cond>
    requires k <= |ws|
  {
    if k == 0 then [] else Keep(ws, k - 1) + (if ws[k - 1].on then [ws[k - 1].cond] else [])
  }

  /** The ten fields of a filter, in the order in which conditions are emitted. */
  function WantedBy(f: QueryFilter): seq<Wanted> {
    [ Wanted(f.tokenID > 0, Equals(TokenID, IntArg(f.tokenID))),
      Wanted(|f.tokenIDs| > 0, OneOf(TokenID, f.tokenIDs)),
      Wanted(f.channelID > 0, Equals(ChannelID, IntArg(f.channelID))),
      Wanted(f.keyID > 0, Equals(KeyID, IntArg(f.keyID))),
      Wanted(f.model != "", Equals(Model, StrArg(f.model))),
      Wanted(f.endpoint != "", Equals(Endpoint, StrArg(f.endpoint))),
      Wanted(f.statusCode > 0, Equals(StatusCode, IntArg(f.statusCode))),
      Wanted(f.cacheHit, IsCacheHit),
      Wanted(f.createdFrom > 0, NotBefore(f.createdFrom)),
      Wanted(f.createdTo > 0, NotAfter(f.createdTo)) ]
  }

  function Conds(f: QueryFilter): seq<Cond> {
    var ws := WantedBy(f);
    Keep(ws, |ws|)
  }

  ghost predicate Meets(w: Wanted, e: Row) {
    w.on ==> Eval(w.cond, e)
  }

  ghost predicate MeetsAll(ws: seq<Wanted>, k: nat, e: Row)
    requires k <= |ws|
  {
    forall i :: 0 <= i < k ==> Meets(ws[i], e)
  }

  lemma {:induction false} KeepMeets(ws: seq<Wanted>, k: nat, e: Row)
    requires k <= |ws|
    ensures EvalAll(Keep(ws, k), e) <==> MeetsAll(ws, k, e)
  {
    if k > 0 {
      KeepMeets(ws, k - 1, e);
      EvalSnoc(Keep(ws, k - 1), ws[k - 1].cond, e);
      assert Keep(ws, k - 1) + [] == Keep(ws, k - 1);
      assert MeetsAll(ws, k, e) <==> MeetsAll(ws, k - 1, e) && Meets(ws[k - 1], e);
    }
  }

  lemma EvalSnoc(cs: seq<Cond>, c: Cond, e: Row)
    ensures EvalAll(cs + [c], e) <==> EvalAll(cs, e) && Eval(c, e)
  {
    var s := cs + [c];
    assert forall i :: 0 <= i < |cs| ==> s[i] == cs[i];
    assert s[|cs|] == c;
  }

  /** The compiled conjunction selects exactly the rows that the in-memory filter passes. */
  lemma CondsMeanMatch(f: QueryFilter, e: Row)
    ensures EvalAll(Conds(f), e) <==> MatchFilter(f, e)
  {
    var ws := WantedBy(f);
    KeepMeets(ws, |ws|, e);
    if MeetsAll(ws, |ws|, e) {
      assert Meets(ws[0], e) && Meets(ws[1], e) && Meets(ws[2], e) && Meets(ws[3], e) && Meets(ws[4], e);
      assert Meets(ws[5], e) && Meets(ws[6], e) && Meets(ws[7], e) && Meets(ws[8], e) && Meets(ws[9], e);
    }
  }

  // ---- buildWhere.

  /** strings.Join. */
  function Join(parts: seq<string>, sep: string): string {
    if parts == [] then ""
    else Join(parts[..|parts| - 1], sep) + (if |parts| > 1 then sep else "") + parts[|parts| - 1]
  }

  /** strings.TrimSuffix(strings.Repeat("?,", n), ","), for n at least 1. */
  function Placeholders(n: nat): string {
    if n == 0 then "" else if n == 1 then "?" else Placeholders(n - 1) + ",?"
  }

  /** The texts and arguments gathered so far are those of the conditions, in order. */
  ghost predicate Built(cs: seq<Cond>, conds: seq<string>, args: seq<Arg>) {
    |conds| == |cs| && Join(conds, " AND ") == Query(WhereFrags(cs)) && args == Args(WhereFrags(cs))
  }

  lemma BuiltSnoc(cs: seq<Cond>, conds: seq<string>, args: seq<Arg>, c: Cond)
    requires Built(cs, conds, args)
    ensures Built(cs + [c], conds + [Query(CondFrags(c))], args + Args(CondFrags(c)))
  {
    var sep := if |cs| > 0 then [Text(" AND ")] else [];
    assert (cs + [c])[..|cs|] == cs && (conds + [Query(CondFrags(c))])[..|conds|] == conds;
    FragsConcat(WhereFrags(cs) + sep, CondFrags(c));
    FragsConcat(WhereFrags(cs), sep);
    if |cs| > 0 {
      OneText(" AND ");
    }
    assert Args(WhereFrags(cs)) + [] == Args(WhereFrags(cs));
  }

  lemma OneText(s: string)
    ensures Query([Text(s)]) == s && Args([Text(s)]) == []
  {
    assert [Text(s)][..0] == [];
    assert "" + s == s;
  }

  /** Text around a part binds nothing. */
  lemma Enclosed(open: string, part: seq<Frag>, close: string)
    ensures Query([Text(open)] + part + [Text(close)]) == open + Query(part) + close
    ensures Args([Text(open)] + part + [Text(close)]) == Args(part)
  {
    var a, b := [Text(open)], [Text(close)];
    OneText(open);
    OneText(close);
    ThreeParts(a, part, b);
    assert [] + Args(part) + [] == Args(part);
  }

  lemma ThreeParts(a: seq<Frag>, b: seq<Frag>, c: seq<Frag>)
    ensures Query(a + b + c) == Query(a) + Query(b) + Query(c)
    ensures Args(a + b + c) == Args(a) + Args(b) + Args(c)
  {
    FragsConcat(a + b, c);
    FragsConcat(a, b);
  }

  lemma OneBind(s: string, arg: Arg)
    ensures Query([Text(s), Bind(arg)]) == s + "?" && Args([Text(s), Bind(arg)]) == [arg]
  {
    OneText(s);
    assert [Text(s), Bind(arg)][..1] == [Text(s)];
  }

  function IntArgs(ids: seq<int>): seq<Arg> {
    if ids == [] then [] else IntArgs(ids[..|ids| - 1]) + [IntArg(ids[|ids| - 1])]
  }

  lemma JustBind(arg: Arg)
    ensures Query([Bind(arg)]) == "?" && Args([Bind(arg)]) == [arg]
  {
    assert [Bind(arg)][..0] == [];
  }

  /** Appending a separator and a marker. */
  lemma CommaBind(frags: seq<Frag>, arg: Arg)
    ensures Query(frags + [Text(",")] + [Bind(arg)]) == Query(frags) + ",?"
    ensures Args(frags + [Text(",")] + [Bind(arg)]) == Args(frags) + [arg]
  {
    FragsSnoc(frags, Text(","));
    FragsSnoc(frags + [Text(",")], Bind(arg));
    Reassociate(Query(frags), ",", "?");
    assert "," + "?" == ",?";
    assert Args(frags) + [] == Args(frags);
  }

  lemma {:induction false} ListText(ids: seq<int>)
    ensures Query(ListFrags(ids)) == Placeholders(|ids|) && Args(ListFrags(ids)) == IntArgs(ids)
  {
    if |ids| == 1 {
      JustBind(IntArg(ids[0]));
      assert ids[..0] == [];
      assert ListFrags(ids) == [Bind(IntArg(ids[0]))];
    } else if |ids| > 1 {
      ListText(ids[..|ids| - 1]);
      CommaBind(ListFrags(ids[..|ids| - 1]), IntArg(ids[|ids| - 1]));
    }
  }

  lemma InText(col: Column, ids: seq<int>)
    ensures Query(CondFrags(OneOf(col, ids))) == ColumnName(col) + " IN (" + Placeholders(|ids|) + ")"
    ensures Args(CondFrags(OneOf(col, ids))) == IntArgs(ids)
  {
    var open := ColumnName(col) + " IN (";
    Enclosed(open, ListFrags(ids), ")");
    ListText(ids);
  }

  // ---- The texts and arguments, field by field.

  function When<T>(on: bool, x: T): seq<T> {
    if on then [x] else []
  }

  /** What the conditions say of a row. */
  lemma CondsMean(e: Row, n: int, s: string, ids: seq<int>)
    ensures Eval(Equals(TokenID, IntArg(n)), e) <==> e.tokenID == n
    ensures Eval(OneOf(TokenID, ids), e) <==> e.tokenID in ids
    ensures Eval(Equals(ChannelID, IntArg(n)), e) <==> e.channelID == n
    ensures Eval(Equals(KeyID, IntArg(n)), e) <==> e.keyID == n
    ensures Eval(Equals(Model, StrArg(s)), e) <==> e.model == s
    ensures Eval(Equals(Endpoint, StrArg(s)), e) <==> e.endpoint == s
    ensures Eval(Equals(StatusCode, IntArg(n)), e) <==> e.statusCode == n
    ensures Eval(IsCacheHit, e) <==> e.cacheHit
    ensures Eval(NotBefore(n), e) <==> n <= e.created
    ensures Eval(NotAfter(n), e) <==> e.created <= n
  {
  }

  /** The condition that a column equals its argument. */
  function EqualsText(col: Column): string {
    match col
    case TokenID => "token_id = ?"
    case ChannelID => "channel_id = ?"
    case KeyID => "key_id = ?"
    case Model => "model = ?"
    case Endpoint => "endpoint = ?"
    case StatusCode => "status_code = ?"
    case CreatedAt => "created_at = ?"
  }

  lemma EqualsTextIs(col: Column, arg: Arg)
    ensures Query(CondFrags(Equals(col, arg))) == EqualsText(col) && Args(CondFrags(Equals(col, arg))) == [arg]
  {
    OneBind(ColumnName(col) + " = ", arg);
    assert ColumnName(col) + " = ?" == ColumnName(col) + " = " + "?";
    SameEqualsText(col);
  }

  lemma SameEqualsText(col: Column)
    ensures ColumnName(col) + " = ?" == EqualsText(col)
  {
    match col
    case TokenID => assert "token_id" + " = ?" == "token_id = ?";
    case ChannelID => assert "channel_id" + " = ?" == "channel_id = ?";
    case KeyID => assert "key_id" + " = ?" == "key_id = ?";
    case Model => assert "model" + " = ?" == "model = ?";
    case Endpoint => assert "endpoint" + " = ?" == "endpoint = ?";
    case StatusCode => assert "status_code" + " = ?" == "status_code = ?";
    case CreatedAt => assert "created_at" + " = ?" == "created_at = ?";
  }

  /** The texts of the conditions asked for among the first k, and their arguments. */
  function TextsOf(ws: seq<Wanted>, k: nat): seq<string>
    requires k <= |ws|
  {
    if k == 0 then [] else TextsOf(ws, k - 1) + When(ws[k - 1].on, Query(CondFrags(ws[k - 1].cond)))
  }

  function ArgsOf(ws: seq<Wanted>, k: nat): seq<Arg>
    requires k <= |ws|
  {
    if k == 0 then [] else ArgsOf(ws, k - 1) + if ws[k - 1].on then Args(CondFrags(ws[k - 1].cond)) else []
  }

  ghost predicate BuiltTo(ws: seq<Wanted>, k: nat, conds: seq<string>, args: seq<Arg>) {
    k <= |ws| && Built(Keep(ws, k), conds, args) && conds == TextsOf(ws, k) && args == ArgsOf(ws, k)
  }

  /** One `if` of buildWhere: the k-th condition, when the filter asks for it. */
  method AddCond(ghost ws: seq<Wanted>, ghost k: nat, on: bool, text: string, own: seq<Arg>, conds0: seq<string>,
                 args0: seq<Arg>)
    returns (conds: seq<string>, args: seq<Arg>)
    requires k < |ws| && BuiltTo(ws, k, conds0, args0) && ws[k].on == on
    requires text == Query(CondFrags(ws[k].cond)) && own == Args(CondFrags(ws[k].cond))
    ensures BuiltTo(ws, k + 1, conds, args)
  {
    conds, args := conds0, args0;
    if on {
      BuiltSnoc(Keep(ws, k), conds, args, ws[k].cond);
      conds := conds + [text];
      args := args + own;
    } else {
      assert Keep(ws, k) + [] == Keep(ws, k);
      NothingBehind(conds);
      NothingBehind(args);
    }
  }

  method AddEquals(ghost ws: seq<Wanted>, ghost k: nat, on: bool, col: Column, arg: Arg, conds0: seq<string>,
                   args0: seq<Arg>)
    returns (conds: seq<string>, args: seq<Arg>)
    requires k < |ws| && BuiltTo(ws, k, conds0, args0) && ws[k] == Wanted(on, Equals(col, arg))
    ensures BuiltTo(ws, k + 1, conds, args)
  {
    OneBind(ColumnName(col) + " = ", arg);
    assert ColumnName(col) + " = ?" == ColumnName(col) + " = " + "?";
    conds, args := AddCond(ws, k, on, ColumnName(col) + " = ?", [arg], conds0, args0);
  }

  method AddIn(ghost ws: seq<Wanted>, ghost k: nat, col: Column, ids: seq<int>, conds0: seq<string>, args0: seq<Arg>)
    returns (conds: seq<string>, args: seq<Arg>)
    requires k < |ws| && BuiltTo(ws, k, conds0, args0) && ws[k] == Wanted(|ids| > 0, OneOf(col, ids))
    ensures BuiltTo(ws, k + 1, conds, args)
  {
    InText(col, ids);
    conds, args := AddCond(ws, k, |ids| > 0, ColumnName(col) + " IN (" + Placeholders(|ids|) + ")",
                           IntArgs(ids), conds0, args0);
  }

  method AddCacheHit(ghost ws: seq<Wanted>, ghost k: nat, on: bool, conds0: seq<string>, args0: seq<Arg>)
    returns (conds: seq<string>, args: seq<Arg>)
    requires k < |ws| && BuiltTo(ws, k, conds0, args0) && ws[k] == Wanted(on, IsCacheHit)
    ensures BuiltTo(ws, k + 1, conds, args)
  {
    OneText("cache_hit = 1");
    conds, args := AddCond(ws, k, on, "cache_hit = 1", [], conds0, args0);
  }

  method AddTime(ghost ws: seq<Wanted>, ghost k: nat, from: bool, t: int, conds0: seq<string>, args0: seq<Arg>)
    returns (conds: seq<string>, args: seq<Arg>)
    requires k < |ws| && BuiltTo(ws, k, conds0, args0)
    requires ws[k] == Wanted(t > 0, if from then NotBefore(t) else NotAfter(t))
    ensures BuiltTo(ws, k + 1, conds, args)
  {
    TimeText(t);
    conds, args := AddCond(ws, k, t > 0, if from then "created_at >= ?" else "created_at <= ?", [IntArg(t)],
                           conds0, args0);
  }

  lemma TimeText(t: int)
    ensures Query(CondFrags(NotBefore(t))) == "created_at >= ?" && Args(CondFrags(NotBefore(t))) == [IntArg(t)]
    ensures Query(CondFrags(NotAfter(t))) == "created_at <= ?" && Args(CondFrags(NotAfter(t))) == [IntArg(t)]
  {
    OneBind("created_at >= ", IntArg(t));
    assert "created_at >= ?" == "created_at >= " + "?";
    OneBind("created_at <= ", IntArg(t));
    assert "created_at <= ?" == "created_at <= " + "?";
  }

  /** The text of each time condition and what it says. */
  lemma TimesRead(e: Row, t: int)
    ensures Query(CondFrags(NotBefore(t))) == "created_at >= ?" && (Eval(NotBefore(t), e) <==> e.created >= t)
    ensures Query(CondFrags(NotAfter(t))) == "created_at <= ?" && (Eval(NotAfter(t), e) <==> e.created <= t)
  {
    TimeText(t);
  }

  /** The filter's conditions as texts with '?' markers, and the arguments in marker order. */
  method BuildWhere(f: QueryFilter) returns (conds: seq<string>, args: seq<Arg>)
    ensures Built(Conds(f), conds, args)
    ensures var ws := WantedBy(f); conds == TextsOf(ws, |ws|) && args == ArgsOf(ws, |ws|)
  {
    WantedParts(f);
    conds, args := BuildParts(f, WantedBy(f), 0);
  }

  /** The conditions on ids come first. */
  ghost predicate IDsAt(f: QueryFilter, ws: seq<Wanted>, k: nat) {
    && k + 4 <= |ws|
    && ws[k] == Wanted(f.tokenID > 0, Equals(TokenID, IntArg(f.tokenID)))
    && ws[k + 1] == Wanted(|f.tokenIDs| > 0, OneOf(TokenID, f.tokenIDs))
    && ws[k + 2] == Wanted(f.channelID > 0, Equals(ChannelID, IntArg(f.channelID)))
    && ws[k + 3] == Wanted(f.keyID > 0, Equals(KeyID, IntArg(f.keyID)))
  }

  ghost predicate RestAt(f: QueryFilter, ws: seq<Wanted>, k: nat) {
    && |ws| == k + 6
    && ws[k] == Wanted(f.model != "", Equals(Model, StrArg(f.model)))
    && ws[k + 1] == Wanted(f.endpoint != "", Equals(Endpoint, StrArg(f.endpoint)))
    && ws[k + 2] == Wanted(f.statusCode > 0, Equals(StatusCode, IntArg(f.statusCode)))
    && ws[k + 3] == Wanted(f.cacheHit, IsCacheHit)
    && ws[k + 4] == Wanted(f.createdFrom > 0, NotBefore(f.createdFrom))
    && ws[k + 5] == Wanted(f.createdTo > 0, NotAfter(f.createdTo))
  }

  lemma WantedParts(f: QueryFilter)
    ensures IDsAt(f, WantedBy(f), 0) && RestAt(f, WantedBy(f), 4)
  {
  }

  method BuildParts(f: QueryFilter, ghost ws: seq<Wanted>, ghost k: nat)
    returns (conds: seq<string>, args: seq<Arg>)
    requires k == 0 && IDsAt(f, ws, k) && RestAt(f, ws, k + 4)
    ensures BuiltTo(ws, |ws|, conds, args)
  {
    NothingBuilt(ws, k);
    conds, args := BuildIDs(f, ws, k, [], []);
    conds, args := BuildRest(f, ws, k + 4, conds, args);
  }

  lemma NothingBuilt(ws: seq<Wanted>, k: nat)
    requires k == 0
    ensures BuiltTo(ws, k, [], [])
  {
  }

  method BuildIDs(f: QueryFilter, ghost ws: seq<Wanted>, ghost k: nat, conds0: seq<string>, args0: seq<Arg>)
    returns (conds: seq<string>, args: seq<Arg>)
    requires IDsAt(f, ws, k) && BuiltTo(ws, k, conds0, args0)
    ensures BuiltTo(ws, k + 4, conds, args)
  {
    conds, args := AddEquals(ws, k, f.tokenID > 0, TokenID, IntArg(f.tokenID), conds0, args0);
    conds, args := AddIn(ws, k + 1, TokenID, f.tokenIDs, conds, args);
    conds, args := AddEquals(ws, k + 2, f.channelID > 0, ChannelID, IntArg(f.channelID), conds, args);
    conds, args := AddEquals(ws, k + 3, f.keyID > 0, KeyID, IntArg(f.keyID), conds, args);
  }

  method BuildRest(f: QueryFilter, ghost ws: seq<Wanted>, ghost k: nat, conds0: seq<string>, args0: seq<Arg>)
    returns (conds: seq<string>, args: seq<Arg>)
    requires RestAt(f, ws, k) && BuiltTo(ws, k, conds0, args0)
    ensures BuiltTo(ws, |ws|, conds, args)
  {
    conds, args := AddEquals(ws, k, f.model != "", Model, StrArg(f.model), conds0, args0);
    conds, args := AddEquals(ws, k + 1, f.endpoint != "", Endpoint, StrArg(f.endpoint), conds, args);
    conds, args := AddEquals(ws, k + 2, f.statusCode > 0, StatusCode, IntArg(f.statusCode), conds, args);
    conds, args := AddCacheHit(ws, k + 3, f.cacheHit, conds, args);
    conds, args := AddTime(ws, k + 4, true, f.createdFrom, conds, args);
    conds, args := AddTime(ws, k + 5, false, f.createdTo, conds, args);
  }
}
