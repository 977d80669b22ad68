/** How the Postgres driver assembles its queries: every marker is bound to its own argument. */
module PostgresQueries {
  import opened Options
  import opened Decimal
  import opened LogRows
  import opened Selections
  import opened DayKeys
  import opened BindMarkers
  import opened FilterSql

  // ---- Day ranges.

  /** Strips the sequence suffix of a rollover file. */
  function BaseDay(d: string): string {
    var i := LastHyphen(d);
    if i >= 10 && Atoi(d[i + 1..]).Some? then d[..i] else d
  }

  /** For a day file that is its date. */
  lemma BaseDayOfKey(d: string, n: nat)
    requires IsDate(d) && n <= MAX_INT64
    ensures BaseDay(DayFileKey(d, n)) == d
  {
    DateHyphens(d);
    if n == 0 {
      assert d == d[..7] + "-" + d[8..];
      DigitsAfterHyphen(d[..7], d[8..]);
    } else {
      DigitsAfterHyphen(d, Itoa(n));
      AtoiOfItoa(n);
      assert DayFileKey(d, n)[..|d|] == d && DayFileKey(d, n)[|d| + 1..] == Itoa(n);
    }
  }

  /** The first second of each day that parses; parse stands for time.Parse. */
  function DayStarts(parse: string -> Option<int>, days: seq<string>): seq<int> {
    if days == [] then []
    else
      var before, t := DayStarts(parse, days[..|days| - 1]), parse(BaseDay(days[|days| - 1]));
      if t.Some? then before + [t.value] else before
  }

  /** The texts and arguments gathered so far are those of the day ranges, in order. */
  ghost predicate DaysBuilt(starts: seq<int>, conds: seq<string>, args: seq<Arg>) {
    |conds| == |starts| && Join(conds, " OR ") == Query(DaysFrags(starts)) && args == Args(DaysFrags(starts))
  }

  lemma DaysBuiltSnoc(starts: seq<int>, conds: seq<string>, args: seq<Arg>, s: int)
    requires DaysBuilt(starts, conds, args)
    ensures DaysBuilt(starts + [s], conds + [Query(DayFrags(s))], args + Args(DayFrags(s)))
  {
    var sep := if |starts| > 0 then [Text(" OR ")] else [];
    assert (starts + [s])[..|starts|] == starts && (conds + [Query(DayFrags(s))])[..|conds|] == conds;
    FragsConcat(DaysFrags(starts) + sep, DayFrags(s));
    FragsConcat(DaysFrags(starts), sep);
    if |starts| > 0 {
      OneText(" OR ");
    }
    assert Args(DaysFrags(starts)) + [] == Args(DaysFrags(starts));
  }

  function DayText(): string {
    "(created_at >= " + "?" + (" AND created_at < " + "?") + ")"
  }

  lemma DayTextIs(s: int)
    ensures Query(DayFrags(s)) == DayText() && Args(DayFrags(s)) == [IntArg(s), IntArg(s + 86400)]
    ensures DayText() == "(created_at >= " + "?" + (" AND created_at < " + "?") + ")"
  {
    var a, b := [Text("(created_at >= "), Bind(IntArg(s))], [Text(" AND created_at < "), Bind(IntArg(s + 86400))];
    OneBind("(created_at >= ", IntArg(s));
    OneBind(" AND created_at < ", IntArg(s + 86400));
    OneText(")");
    ThreeParts(a, b, [Text(")")]);
    assert DayFrags(s) == a + b + [Text(")")];
  }

  method AddDay(ghost starts: seq<int>, conds0: seq<string>, args0: seq<Arg>, s: int)
    returns (conds: seq<string>, args: seq<Arg>)
    requires DaysBuilt(starts, conds0, args0)
    ensures DaysBuilt(starts + [s], conds, args)
  {
    DayTextIs(s);
    DaysBuiltSnoc(starts, conds0, args0, s);
    conds, args := conds0 + [DayText()], args0 + [IntArg(s), IntArg(s + 86400)];
  }

  method DayRangeConds(parse: string -> Option<int>, days: seq<string>) returns (text: string, args: seq<Arg>)
    ensures DayStarts(parse, days) == [] ==> text == "" && args == []
    ensures DayStarts(parse, days) != [] ==>
      text == Query(CondFrags(InDays(DayStarts(parse, days))))
        && args == Args(CondFrags(InDays(DayStarts(parse, days)))) && text != ""
  {
    var conds := [];
    args := [];
    ghost var starts := [];
    assert DaysBuilt(starts, conds, args);
    for i := 0 to |days|
      invariant starts == DayStarts(parse, days[..i]) && DaysBuilt(starts, conds, args)
    {
      assert days[..i + 1][..i] == days[..i];
      var t := parse(BaseDay(days[i]));
      if t.Some? {
        conds, args := AddDay(starts, conds, args, t.value);
        starts := starts + [t.value];
      }
    }
    assert days[..|days|] == days;
    if conds == [] {
      return "", [];
    }
    text := "(" + Join(conds, " OR ") + ")";
    InDaysText(starts);
  }

  lemma InDaysText(starts: seq<int>)
    ensures Query(CondFrags(InDays(starts))) == "(" + Query(DaysFrags(starts)) + ")"
    ensures Args(CondFrags(InDays(starts))) == Args(DaysFrags(starts))
  {
    Enclosed("(", DaysFrags(starts), ")");
  }

  // ---- The WHERE clause.

  function AllConds(f: QueryFilter, starts: seq<int>): seq<Cond> {
    if starts == [] then Conds(f) else Conds(f) + [InDays(starts)]
  }

  /** The rows selected: those that pass the filter and, if any day parsed, fall on one of the days. */
  lemma AllCondsMean(f: QueryFilter, starts: seq<int>, e: Row)
    ensures EvalAll(AllConds(f, starts), e) <==>
            MatchFilter(f, e)
              && (starts == [] || exists i :: 0 <= i < |starts| && starts[i] <= e.created < starts[i] + 86400)
  {
    CondsMeanMatch(f, e);
    EvalSnoc(Conds(f), InDays(starts), e);
  }

  lemma {:induction false} WhereNotEmpty(cs: seq<Cond>)
    requires cs != []
    ensures Query(WhereFrags(cs)) != ""
  {
    var last := cs[|cs| - 1];
    var sep := if |cs| > 1 then [Text(" AND ")] else [];
    FragsConcat(WhereFrags(cs[..|cs| - 1]) + sep, CondFrags(last));
    CondNotEmpty(last);
  }

  lemma CondNotEmpty(c: Cond)
    ensures Query(CondFrags(c)) != ""
  {
    match c
    case Equals(col, arg) => OneBind(ColumnName(col) + " = ", arg);
    case OneOf(col, ids) => InText(col, ids);
    case IsCacheHit => OneText("cache_hit = 1");
    case NotBefore(t) => OneBind("created_at >= ", IntArg(t));
    case NotAfter(t) => OneBind("created_at <= ", IntArg(t));
    case InDays(starts) => InDaysText(starts);
  }

  method WhereClause(f: QueryFilter, parse: string -> Option<int>, days: seq<string>)
    returns (where: string, args: seq<Arg>)
    ensures var cs := AllConds(f, DayStarts(parse, days));
      where == Query(WhereFrags(cs)) && args == Args(WhereFrags(cs)) && (where == "" <==> cs == [])
  {
    var conds;
    conds, args := BuildWhere(f);
    where := Join(conds, " AND ");
    if Conds(f) != [] {
      WhereNotEmpty(Conds(f));
    }
    var dayText, dayArgs := DayRangeConds(parse, days);
    if dayText != "" {
      ghost var day := InDays(DayStarts(parse, days));
      WhereSnoc(Conds(f), day);
      WhereNotEmpty(Conds(f) + [day]);
      if where != "" {
        where := where + " AND " + dayText;
      } else {
        where := dayText;
      }
      args := args + dayArgs;
    }
  }

  lemma WhereSnoc(cs: seq<Cond>, c: Cond)
    ensures Query(WhereFrags(cs + [c]))
      == (if cs == [] then Query(CondFrags(c)) else Query(WhereFrags(cs)) + " AND " + Query(CondFrags(c)))
    ensures Args(WhereFrags(cs + [c])) == Args(WhereFrags(cs)) + Args(CondFrags(c))
  {
    var sep := if |cs| > 0 then [Text(" AND ")] else [];
    assert (cs + [c])[..|cs|] == cs;
    FragsConcat(WhereFrags(cs) + sep, CondFrags(c));
    FragsConcat(WhereFrags(cs), sep);
    if |cs| > 0 {
      OneText(" AND ");
    } else {
      assert WhereFrags(cs) + sep == [];
      assert "" + Query(CondFrags(c)) == Query(CondFrags(c));
    }
    assert Args(WhereFrags(cs)) + [] == Args(WhereFrags(cs));
  }

  // ---- Plain texts.

  lemma PlainConcat(a: string, b: string)
    requires Plain(a) && Plain(b)
    ensures Plain(a + b)
  {
  }

  lemma FragsPlainConcat(a: seq<Frag>, b: seq<Frag>)
    requires PlainFrags(a) && PlainFrags(b)
    ensures PlainFrags(a + b)
  {
  }

  lemma ColumnPlain(col: Column)
    ensures Plain(ColumnName(col))
  {
  }

  lemma BindPlain(s: string, arg: Arg)
    requires Plain(s)
    ensures PlainFrags([Text(s), Bind(arg)])
  {
  }

  lemma TextPlain(s: string)
    requires Plain(s)
    ensures PlainFrags([Text(s)])
  {
  }

  lemma {:induction false} ListPlain(ids: seq<int>)
    ensures PlainFrags(ListFrags(ids))
  {
    if ids != [] {
      ListPlain(ids[..|ids| - 1]);
    }
  }

  lemma DayPlain(s: int)
    ensures PlainFrags(DayFrags(s))
  {
    BindPlain("(created_at >= ", IntArg(s));
    BindPlain(" AND created_at < ", IntArg(s + 86400));
    TextPlain(")");
  }

  lemma {:induction false} DaysPlain(starts: seq<int>)
    ensures PlainFrags(DaysFrags(starts))
  {
    if starts != [] {
      var init, last := starts[..|starts| - 1], starts[|starts| - 1];
      DaysPlain(init);
      DayPlain(last);
      var sep := if |starts| > 1 then [Text(" OR ")] else [];
      TextPlain(" OR ");
      FragsPlainConcat(DaysFrags(init), sep);
      FragsPlainConcat(DaysFrags(init) + sep, DayFrags(last));
    }
  }

  lemma CondPlain(c: Cond)
    ensures PlainFrags(CondFrags(c))
  {
    match c
    case Equals(col, arg) => EqualsPlain(col, arg);
    case OneOf(col, ids) => InPlain(col, ids);
    case IsCacheHit => TextPlain("cache_hit = 1");
    case NotBefore(t) => BindPlain("created_at >= ", IntArg(t));
    case NotAfter(t) => BindPlain("created_at <= ", IntArg(t));
    case InDays(starts) => InDaysPlain(starts);
  }

  lemma EqualsPlain(col: Column, arg: Arg)
    ensures PlainFrags(CondFrags(Equals(col, arg)))
  {
    ColumnPlain(col);
    PlainConcat(ColumnName(col), " = ");
    BindPlain(ColumnName(col) + " = ", arg);
  }

  lemma InPlain(col: Column, ids: seq<int>)
    ensures PlainFrags(CondFrags(OneOf(col, ids)))
  {
    ColumnPlain(col);
    PlainConcat(ColumnName(col), " IN (");
    TextPlain(ColumnName(col) + " IN (");
    TextPlain(")");
    ListPlain(ids);
    FragsPlainConcat([Text(ColumnName(col) + " IN (")], ListFrags(ids));
    FragsPlainConcat([Text(ColumnName(col) + " IN (")] + ListFrags(ids), [Text(")")]);
  }

  lemma InDaysPlain(starts: seq<int>)
    ensures PlainFrags(CondFrags(InDays(starts)))
  {
    TextPlain("(");
    TextPlain(")");
    DaysPlain(starts);
    FragsPlainConcat([Text("(")], DaysFrags(starts));
    FragsPlainConcat([Text("(")] + DaysFrags(starts), [Text(")")]);
  }

  lemma {:induction false} WherePlain(cs: seq<Cond>)
    ensures PlainFrags(WhereFrags(cs))
  {
    if cs != [] {
      var init, last := cs[..|cs| - 1], cs[|cs| - 1];
      WherePlain(init);
      CondPlain(last);
      var sep := if |cs| > 1 then [Text(" AND ")] else [];
      TextPlain(" AND ");
      FragsPlainConcat(WhereFrags(init), sep);
      FragsPlainConcat(WhereFrags(init) + sep, CondFrags(last));
    }
  }

  // ---- Whole queries.

  function WherePart(cs: seq<Cond>): seq<Frag> {
    if cs == [] then [] else [Text(" WHERE ")] + WhereFrags(cs)
  }

  lemma TextThen(s: string, frags: seq<Frag>)
    requires Plain(s) && PlainFrags(frags)
    ensures var all := [Text(s)] + frags;
      Query(all) == s + Query(frags) && Args(all) == Args(frags) && PlainFrags(all)
        && Rewritten(Query(all)) == Numbered(all)
  {
    OneText(s);
    TextPlain(s);
    FragsConcat([Text(s)], frags);
    FragsPlainConcat([Text(s)], frags);
    RewriteNumbers([Text(s)] + frags);
    assert [] + Args(frags) == Args(frags);
  }

  lemma WherePartText(cs: seq<Cond>)
    ensures Query(WherePart(cs)) == (if cs == [] then "" else " WHERE " + Query(WhereFrags(cs)))
    ensures Args(WherePart(cs)) == Args(WhereFrags(cs)) && PlainFrags(WherePart(cs))
  {
    if cs != [] {
      WherePlain(cs);
      TextThen(" WHERE ", WhereFrags(cs));
    }
  }

  lemma AroundWhere(pre: seq<Frag>, cs: seq<Cond>, post: seq<Frag>)
    requires PlainFrags(pre) && PlainFrags(post)
    ensures var frags := pre + WherePart(cs) + post;
      && Query(frags) == Query(pre) + (if cs == [] then "" else " WHERE " + Query(WhereFrags(cs))) + Query(post)
      && Args(frags) == Args(pre) + Args(WhereFrags(cs)) + Args(post)
      && Rewritten(Query(frags)) == Numbered(frags)
  {
    WherePartText(cs);
    FragsConcat(pre, WherePart(cs));
    FragsConcat(pre + WherePart(cs), post);
    FragsPlainConcat(pre, WherePart(cs));
    FragsPlainConcat(pre + WherePart(cs), post);
    RewriteNumbers(pre + WherePart(cs) + post);
  }

  /** A query around a WHERE clause: in the rewritten text the markers before the clause, in it and
      behind it are numbered through, and the k-th argument is the one meant for $k. */
  method Assemble(before: string, pre: seq<Arg>, f: QueryFilter, parse: string -> Option<int>, days: seq<string>,
                  behind: string, post: seq<Arg>,
                  ghost head: seq<Frag>, ghost tail: seq<Frag>) returns (sql: string, args: seq<Arg>)
    requires before == Query(head) && pre == Args(head) && PlainFrags(head)
    requires behind == Query(tail) && post == Args(tail) && PlainFrags(tail)
    ensures var frags := head + WherePart(AllConds(f, DayStarts(parse, days))) + tail;
      sql == Numbered(frags) && args == Args(frags)
  {
    var where, own := WhereClause(f, parse, days);
    AroundWhere(head, AllConds(f, DayStarts(parse, days)), tail);
    var q := before;
    if where != "" {
      q := q + (" WHERE " + where);
    } else {
      assert q + "" == q;
    }
    q := q + behind;
    args := pre + own + post;
    sql := RewriteQuery(q);
  }

  lemma TwoBinds(s: string, x: Arg, u: string, y: Arg)
    requires Plain(s) && Plain(u)
    ensures var frags := [Text(s), Bind(x)] + [Text(u), Bind(y)];
      Query(frags) == s + "?" + (u + "?") && Args(frags) == [x, y] && PlainFrags(frags)
  {
    OneBind(s, x);
    OneBind(u, y);
    FragsConcat([Text(s), Bind(x)], [Text(u), Bind(y)]);
    BindPlain(s, x);
    BindPlain(u, y);
    FragsPlainConcat([Text(s), Bind(x)], [Text(u), Bind(y)]);
  }

  // ---- The texts of whole queries.

  lemma NumberedSnoc(frags: seq<Frag>, last: Frag)
    ensures Numbered(frags + [last]) == Numbered(frags) + if last.Bind? then "$" + Itoa(|Args(frags)| + 1) else last.s
  {
    assert (frags + [last])[..|frags|] == frags;
  }

  lemma {:induction false} NumberedBehind(s: string, frags: seq<Frag>)
    ensures Numbered([Text(s)] + frags) == s + Numbered(frags) && Args([Text(s)] + frags) == Args(frags)
  {
    if frags == [] {
      OneText(s);
      assert [Text(s)] + [] == [Text(s)];
      assert [Text(s)][..0] == [] && "" + s == s + "";
    } else {
      var init, last := frags[..|frags| - 1], frags[|frags| - 1];
      assert [Text(s)] + frags == ([Text(s)] + init) + [last] && frags == init + [last];
      NumberedBehind(s, init);
      NumberedSnoc([Text(s)] + init, last);
      NumberedSnoc(init, last);
      FragsSnoc([Text(s)] + init, last);
      FragsSnoc(init, last);
      Reassociate(s, Numbered(init), if last.Bind? then "$" + Itoa(|Args(init)| + 1) else last.s);
    }
  }

  lemma NumberedText(frags: seq<Frag>, s: string)
    ensures Numbered(frags + [Text(s)]) == Numbered(frags) + s && Args(frags + [Text(s)]) == Args(frags)
  {
    NumberedSnoc(frags, Text(s));
    FragsSnoc(frags, Text(s));
    NothingBehind(Args(frags));
  }

  lemma NumberedMark(frags: seq<Frag>, arg: Arg, mark: string)
    requires mark == "$" + Itoa(|Args(frags)| + 1)
    ensures Numbered(frags + [Bind(arg)]) == Numbered(frags) + mark && Args(frags + [Bind(arg)]) == Args(frags) + [arg]
  {
    NumberedSnoc(frags, Bind(arg));
    FragsSnoc(frags, Bind(arg));
  }

  /** A text and a marker behind a query. */
  lemma NumberedBind(frags: seq<Frag>, s: string, arg: Arg, mark: string)
    requires mark == "$" + Itoa(|Args(frags)| + 1)
    ensures Numbered(frags + [Text(s), Bind(arg)]) == Numbered(frags) + s + mark
    ensures Args(frags + [Text(s), Bind(arg)]) == Args(frags) + [arg]
  {
    var t := frags + [Text(s)];
    NumberedText(frags, s);
    NumberedMark(t, arg, mark);
    assert frags + [Text(s), Bind(arg)] == t + [Bind(arg)];
  }

  /** The clause with its numbered markers. */
  function WhereText(cs: seq<Cond>): string {
    if cs == [] then "" else " WHERE " + Numbered(WhereFrags(cs))
  }

  lemma WhereTextIs(cs: seq<Cond>)
    ensures Numbered(WherePart(cs)) == WhereText(cs) && Args(WherePart(cs)) == Args(WhereFrags(cs))
  {
    if cs != [] {
      NumberedBehind(" WHERE ", WhereFrags(cs));
    }
  }

  lemma TwoBindsBehind(front: seq<Frag>, l: string, x: Arg, m: string, o: string, y: Arg, n: string, tail: seq<Frag>)
    requires tail == [Text(l), Bind(x)] + [Text(o), Bind(y)]
    requires m == "$" + Itoa(|Args(front)| + 1) && n == "$" + Itoa(|Args(front)| + 2)
    ensures Numbered(front + tail) == Numbered(front) + l + m + o + n && Args(front + tail) == Args(front) + [x, y]
  {
    var first := front + [Text(l), Bind(x)];
    NumberedBind(front, l, x, m);
    NumberedBind(first, o, y, n);
    assert front + tail == first + [Text(o), Bind(y)];
    assert Args(front) + [x] + [y] == Args(front) + [x, y];
  }

  /** Two arguments behind the clause. */
  lemma PagedText(head: string, clause: seq<Frag>, text: string, l: string, x: Arg, m: string, o: string, y: Arg,
                  n: string, tail: seq<Frag>)
    requires tail == [Text(l), Bind(x)] + [Text(o), Bind(y)] && text == Numbered(clause)
    requires m == "$" + Itoa(|Args(clause)| + 1) && n == "$" + Itoa(|Args(clause)| + 2)
    ensures Numbered([Text(head)] + clause + tail) == head + text + l + m + o + n
    ensures Args([Text(head)] + clause + tail) == Args(clause) + [x, y]
  {
    NumberedBehind(head, clause);
    TwoBindsBehind([Text(head)] + clause, l, x, m, o, y, n, tail);
  }

  /** A query with two arguments behind the clause. */
  method PagedQuery(head: string, l: string, x: Arg, o: string, y: Arg, f: QueryFilter, parse: string -> Option<int>,
                    days: seq<string>)
    returns (sql: string, args: seq<Arg>, ghost m: string, ghost n: string)
    requires Plain(head) && Plain(l) && Plain(o)
    ensures var cs := AllConds(f, DayStarts(parse, days));
      && m == "$" + Itoa(|Args(WhereFrags(cs))| + 1) && n == "$" + Itoa(|Args(WhereFrags(cs))| + 2)
      && sql == head + WhereText(cs) + l + m + o + n && args == Args(WhereFrags(cs)) + [x, y]
  {
    ghost var tail, cs := [Text(l), Bind(x)] + [Text(o), Bind(y)], AllConds(f, DayStarts(parse, days));
    m, n := "$" + Itoa(|Args(WhereFrags(cs))| + 1), "$" + Itoa(|Args(WhereFrags(cs))| + 2);
    WhereTextIs(cs);
    PagedText(head, WherePart(cs), WhereText(cs), l, x, m, o, y, n, tail);
    OneText(head);
    TextPlain(head);
    TwoBinds(l, x, o, y);
    sql, args := Assemble(head, [], f, parse, days, l + "?" + (o + "?"), [x, y], [Text(head)], tail);
  }

  /** The page query: limit and offset come behind the filter's arguments. */
  method PageQuery(cols: string, f: QueryFilter, parse: string -> Option<int>, days: seq<string>)
    returns (sql: string, args: seq<Arg>)
    requires Plain(cols)
    ensures var cs := AllConds(f, DayStarts(parse, days));
      var own := Args(WhereFrags(cs));
      && sql == "SELECT " + cols + " FROM logs" + WhereText(cs) + " ORDER BY created_at DESC, id DESC LIMIT "
           + ("$" + Itoa(|own| + 1)) + " OFFSET " + ("$" + Itoa(|own| + 2))
      && args == own + [IntArg(if f.limit <= 0 then 50 else if f.limit > 500 then 500 else f.limit),
                        IntArg(if f.offset < 0 then 0 else f.offset)]
  {
    var limit := if f.limit <= 0 then 50 else if f.limit > 500 then 500 else f.limit;
    var offset := if f.offset < 0 then 0 else f.offset;
    PlainConcat("SELECT ", cols);
    PlainConcat("SELECT " + cols, " FROM logs");
    ghost var m, n;
    sql, args, m, n := PagedQuery("SELECT " + cols + " FROM logs", " ORDER BY created_at DESC, id DESC LIMIT ",
                                  IntArg(limit), " OFFSET ", IntArg(offset), f, parse, days);
  }

  /** The count query: the same clause and arguments as the page query, without limit and offset. */
  method CountQuery(f: QueryFilter, parse: string -> Option<int>, days: seq<string>)
    returns (sql: string, args: seq<Arg>)
    ensures var cs := AllConds(f, DayStarts(parse, days));
      sql == "SELECT COUNT(*) FROM logs" + WhereText(cs) && args == Args(WhereFrags(cs))
  {
    sql, args := UnpagedQuery("SELECT COUNT(*) FROM logs", f, parse, days);
  }

  method UnpagedQuery(head: string, f: QueryFilter, parse: string -> Option<int>, days: seq<string>)
    returns (sql: string, args: seq<Arg>)
    requires Plain(head)
    ensures var cs := AllConds(f, DayStarts(parse, days));
      sql == head + WhereText(cs) && args == Args(WhereFrags(cs))
  {
    ghost var clause := WherePart(AllConds(f, DayStarts(parse, days)));
    OneText(head);
    TextPlain(head);
    WhereTextIs(AllConds(f, DayStarts(parse, days)));
    NumberedBehind(head, clause);
    NothingBehind([Text(head)] + clause);
    sql, args := Assemble(head, [], f, parse, days, "", [], [Text(head)], []);
  }

  /** The delete query over whole days; nothing is deleted when no day parses. */
  method DeleteQuery(parse: string -> Option<int>, days: seq<string>) returns (sql: Option<string>, args: seq<Arg>)
    ensures sql.None? <==> DayStarts(parse, days) == []
    ensures sql.Some? ==>
      var frags := [Text("DELETE FROM logs WHERE ")] + CondFrags(InDays(DayStarts(parse, days)));
      sql.value == Numbered(frags) && args == Args(frags)
  {
    sql, args := OnDays("DELETE FROM logs WHERE ", parse, days);
  }

  method OnDays(head: string, parse: string -> Option<int>, days: seq<string>)
    returns (sql: Option<string>, args: seq<Arg>)
    requires Plain(head)
    ensures sql.None? <==> DayStarts(parse, days) == []
    ensures sql.Some? ==>
      var frags := [Text(head)] + CondFrags(InDays(DayStarts(parse, days)));
      sql.value == Numbered(frags) && args == Args(frags)
  {
    var conds, own := DayRangeConds(parse, days);
    if conds == "" {
      return None, [];
    }
    InDaysPlain(DayStarts(parse, days));
    TextThen(head, CondFrags(InDays(DayStarts(parse, days))));
    var text := RewriteQuery(head + conds);
    return Some(text), own;
  }

  function SeriesHead(aggregates: string, width: int): seq<Frag> {
    [Text("SELECT (created_at / "), Bind(IntArg(width))] + [Text(") * "), Bind(IntArg(width))]
      + [Text(" AS bucket, " + aggregates + " FROM logs")]
  }

  function SeriesTail(column: string): seq<Frag> {
    [Text(" GROUP BY " + column + " ORDER BY " + column)]
  }

  lemma SeriesTailText(column: string)
    requires Plain(column)
    ensures Query(SeriesTail(column)) == " GROUP BY " + column + " ORDER BY " + column
    ensures Args(SeriesTail(column)) == [] && PlainFrags(SeriesTail(column))
  {
    var s := " GROUP BY " + column + " ORDER BY " + column;
    PlainConcat(" GROUP BY ", column);
    PlainConcat(" GROUP BY " + column, " ORDER BY ");
    PlainConcat(" GROUP BY " + column + " ORDER BY ", column);
    OneText(s);
    TextPlain(s);
  }

  lemma SeriesHeadText(aggregates: string, width: int)
    requires Plain(aggregates)
    ensures Query(SeriesHead(aggregates, width))
      == "SELECT (created_at / " + "?" + (") * " + "?") + (" AS bucket, " + aggregates + " FROM logs")
    ensures Args(SeriesHead(aggregates, width)) == [IntArg(width), IntArg(width)]
      && PlainFrags(SeriesHead(aggregates, width))
  {
    PlainConcat(" AS bucket, ", aggregates);
    PlainConcat(" AS bucket, " + aggregates, " FROM logs");
    BindsThenText("SELECT (created_at / ", IntArg(width), ") * ", IntArg(width),
                  " AS bucket, " + aggregates + " FROM logs");
  }

  lemma BindsThenText(s: string, x: Arg, u: string, y: Arg, v: string)
    requires Plain(s) && Plain(u) && Plain(v)
    ensures var frags := [Text(s), Bind(x)] + [Text(u), Bind(y)] + [Text(v)];
      Query(frags) == s + "?" + (u + "?") + v && Args(frags) == [x, y] && PlainFrags(frags)
  {
    TwoBinds(s, x, u, y);
    OneText(v);
    TextPlain(v);
    FragsConcat([Text(s), Bind(x)] + [Text(u), Bind(y)], [Text(v)]);
    FragsPlainConcat([Text(s), Bind(x)] + [Text(u), Bind(y)], [Text(v)]);
  }

  /** The bucket query: the width is bound twice, before the filter's arguments; column is the
      name that the buckets are given, "bucket". */
  method SeriesQuery(aggregates: string, column: string, f: QueryFilter, bucketSec: int, parse: string -> Option<int>,
                     days: seq<string>)
    returns (sql: string, args: seq<Arg>)
    requires Plain(aggregates) && Plain(column)
    ensures var w := if bucketSec <= 0 then 3600 else bucketSec;
      var frags := SeriesHead(aggregates, w) + WherePart(AllConds(f, DayStarts(parse, days))) + SeriesTail(column);
      sql == Numbered(frags) && args == Args(frags)
  {
    var width := if bucketSec <= 0 then 3600 else bucketSec;
    SeriesHeadText(aggregates, width);
    SeriesTailText(column);
    sql, args := Assemble("SELECT (created_at / " + "?" + (") * " + "?") + (" AS bucket, " + aggregates + " FROM logs"),
                          [IntArg(width), IntArg(width)], f, parse, days,
                          " GROUP BY " + column + " ORDER BY " + column, [],
                          SeriesHead(aggregates, width), SeriesTail(column));
  }

  function TopHead(field: string, aggregates: string): seq<Frag> {
    [Text("SELECT " + field + ", " + aggregates + " FROM logs")]
  }

  function TopTail(field: string, limit: int): seq<Frag> {
    [Text(" GROUP BY " + field + " ORDER BY 2 DESC LIMIT "), Bind(IntArg(limit))]
  }

  lemma TopTexts(field: string, aggregates: string, limit: int)
    requires Plain(field) && Plain(aggregates)
    ensures Query(TopHead(field, aggregates)) == "SELECT " + field + ", " + aggregates + " FROM logs"
    ensures Args(TopHead(field, aggregates)) == [] && PlainFrags(TopHead(field, aggregates))
    ensures Query(TopTail(field, limit)) == " GROUP BY " + field + " ORDER BY 2 DESC LIMIT " + "?"
    ensures Args(TopTail(field, limit)) == [IntArg(limit)] && PlainFrags(TopTail(field, limit))
  {
    var head, tail := "SELECT " + field + ", " + aggregates + " FROM logs",
      " GROUP BY " + field + " ORDER BY 2 DESC LIMIT ";
    PlainConcat("SELECT ", field);
    PlainConcat("SELECT " + field, ", ");
    PlainConcat("SELECT " + field + ", ", aggregates);
    PlainConcat("SELECT " + field + ", " + aggregates, " FROM logs");
    PlainConcat(" GROUP BY ", field);
    PlainConcat(" GROUP BY " + field, " ORDER BY 2 DESC LIMIT ");
    OneText(head);
    TextPlain(head);
    OneBind(tail, IntArg(limit));
    BindPlain(tail, IntArg(limit));
  }

  /** The grouping query: its limit comes last; only the three known fields are spliced in. */
  method TopQuery(field: string, aggregates: string, f: QueryFilter, limit: int, parse: string -> Option<int>,
                  days: seq<string>)
    returns (sql: Option<string>, args: seq<Arg>)
    requires Plain(aggregates)
    ensures sql.None? <==> field !in {"model", "channel_id", "token_id"}
    ensures sql.Some? ==>
      var frags := TopHead(field, aggregates) + WherePart(AllConds(f, DayStarts(parse, days))) + TopTail(field, limit);
      sql.value == Numbered(frags) && args == Args(frags)
  {
    if !ValidField(field) {
      return None, [];
    }
    FieldPlain(field);
    TopTexts(field, aggregates, limit);
    var text;
    text, args := Assemble("SELECT " + field + ", " + aggregates + " FROM logs", [], f, parse, days,
                           " GROUP BY " + field + " ORDER BY 2 DESC LIMIT " + "?", [IntArg(limit)],
                           TopHead(field, aggregates), TopTail(field, limit));
    sql := Some(text);
  }

  lemma FieldPlain(field: string)
    requires ValidField(field)
    ensures Plain(field)
  {
  }
}
