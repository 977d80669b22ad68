/** The per-file rollup: totals, and groups by model, channel and token. */
module Rollup {
  import opened LogRows
  import opened Selections

  datatype Totals = Totals(rows: int, promptTokens: int, completionTokens: int, realCost: real, billedCost: real,
                           errors: int)

  datatype Group = Group(count: int, tokens: int, cost: real, realCost: real)

  type Groups = map<string, Group>

  const ZERO := Totals(0, 0, 0, 0.0, 0.0, 0)
  const NO_GROUP := Group(0, 0, 0.0, 0.0)

  function Plus(a: Totals, b: Totals): Totals {
    Totals(a.rows + b.rows, a.promptTokens + b.promptTokens, a.completionTokens + b.completionTokens,
           a.realCost + b.realCost, a.billedCost + b.billedCost, a.errors + b.errors)
  }

  function OfRow(e: Row): Totals {
    Totals(1, e.promptTokens, e.completionTokens, e.realCost, e.billedCost, if e.statusCode >= 400 then 1 else 0)
  }

  /** The totals of a full scan. */
  function Sum(rows: seq<Row>): Totals {
    if rows == [] then ZERO else Plus(Sum(rows[..|rows| - 1]), OfRow(rows[|rows| - 1]))
  }

  function PlusGroup(a: Group, b: Group): Group {
    Group(a.count + b.count, a.tokens + b.tokens, a.cost + b.cost, a.realCost + b.realCost)
  }

  function GroupOfRow(e: Row): Group {
    Group(1, e.promptTokens + e.completionTokens, e.billedCost, e.realCost)
  }

  function SumGroup(rows: seq<Row>): Group {
    if rows == [] then NO_GROUP else PlusGroup(SumGroup(rows[..|rows| - 1]), GroupOfRow(rows[|rows| - 1]))
  }

  // ---- What totals and groups hold, field by field.

  function IntSum(get: Row -> int, rows: seq<Row>): int {
    if rows == [] then 0 else IntSum(get, rows[..|rows| - 1]) + get(rows[|rows| - 1])
  }

  function RealSum(get: Row -> real, rows: seq<Row>): real {
    if rows == [] then 0.0 else RealSum(get, rows[..|rows| - 1]) + get(rows[|rows| - 1])
  }

  /** t is the totals of the rows. */
  ghost predicate Adds(t: Totals, rows: seq<Row>) {
    && t.rows == |rows|
    && t.promptTokens == IntSum((r: Row) => r.promptTokens, rows)
    && t.completionTokens == IntSum((r: Row) => r.completionTokens, rows)
    && t.realCost == RealSum((r: Row) => r.realCost, rows)
    && t.billedCost == RealSum((r: Row) => r.billedCost, rows)
    && t.errors == |Select((r: Row) => r.statusCode >= 400, rows)|
  }

  /** g is the metrics of the rows. */
  ghost predicate AddsGroup(g: Group, rows: seq<Row>) {
    && g.count == |rows|
    && g.tokens == IntSum((r: Row) => r.promptTokens, rows) + IntSum((r: Row) => r.completionTokens, rows)
    && g.cost == RealSum((r: Row) => r.billedCost, rows)
    && g.realCost == RealSum((r: Row) => r.realCost, rows)
  }

  lemma {:induction false} SumAdds(rows: seq<Row>)
    ensures Adds(Sum(rows), rows) && AddsGroup(SumGroup(rows), rows)
  {
    if rows != [] {
      SumAdds(rows[..|rows| - 1]);
    }
  }

  /** A label's group sums exactly the rows that carry the label. */
  lemma GroupsAdd(field: string, rows: seq<Row>, k: string)
    requires ValidField(field)
    ensures k in GroupBy(field, rows) <==> Select(HasLabel(field, k), rows) != []
    ensures k in GroupBy(field, rows) ==> AddsGroup(GroupBy(field, rows)[k], Select(HasLabel(field, k), rows))
  {
    SelectAgree(Labelled(field, k), HasLabel(field, k), rows);
    SelectMembers(HasLabel(field, k), rows);
    SumAdds(Select(HasLabel(field, k), rows));
    if Select(HasLabel(field, k), rows) != [] {
      var r := Select(HasLabel(field, k), rows)[0];
      assert r in rows && FieldKey(field, r) == k;
    } else {
      SelectEmpty(HasLabel(field, k), rows);
    }
  }

  lemma SelectEmpty(p: Row -> bool, rows: seq<Row>)
    requires Select(p, rows) == []
    ensures forall r :: r in rows ==> !p(r)
  {
    SelectMembers(p, rows);
    forall r | r in rows ensures !p(r) {
      assert p(r) ==> r in Select(p, rows);
    }
  }

  function Labels(field: string, rows: seq<Row>): set<string> {
    set r | r in rows :: FieldKey(field, r)
  }

  /** The grouping of a full scan: each label with the sum of exactly its rows. */
  function GroupBy(field: string, rows: seq<Row>): (g: Groups)
    ensures g.Keys == Labels(field, rows)
  {
    map k | k in Labels(field, rows) :: SumGroup(Select(Labelled(field, k), rows))
  }

  function At(g: Groups, k: string): Group {
    if k in g then g[k] else NO_GROUP
  }

  function AddTo(g: Groups, k: string, e: Row): Groups {
    g[k := PlusGroup(At(g, k), GroupOfRow(e))]
  }

  function Merged(a: Groups, b: Groups): Groups {
    map k | k in a.Keys + b.Keys :: PlusGroup(At(a, k), At(b, k))
  }

  /** The content of a .meta.json file. */
  datatype Meta = Meta(totals: Totals, byModel: Groups, byChannel: Groups, byToken: Groups)

  const EMPTY_META := Meta(ZERO, map[], map[], map[])

  function FieldMap(m: Meta, field: string): Groups {
    if field == "model" then m.byModel
    else if field == "channel_id" then m.byChannel
    else if field == "token_id" then m.byToken
    else map[]
  }

  /** What the rollup of a file is for: the aggregates of its rows. */
  function RollupOf(rows: seq<Row>): Meta {
    Meta(Sum(rows), GroupBy("model", rows), GroupBy("channel_id", rows), GroupBy("token_id", rows))
  }

  /** The in-memory rollup, updated in place row by row. */
  class FileMeta {
    var totals: Totals
    var byModel: Groups
    var byChannel: Groups
    var byToken: Groups

    constructor (m: Meta)
      ensures View() == m
    {
      totals, byModel, byChannel, byToken := m.totals, m.byModel, m.byChannel, m.byToken;
    }

    function View(): Meta
      reads this
    {
      Meta(totals, byModel, byChannel, byToken)
    }

    /** Folds one more row in. */
    method Add(e: Row)
      modifies this
      ensures View() == Folded(old(View()), e)
    {
      totals := Plus(totals, OfRow(e));
      byModel := AddTo(byModel, FieldKey("model", e), e);
      byChannel := AddTo(byChannel, FieldKey("channel_id", e), e);
      byToken := AddTo(byToken, FieldKey("token_id", e), e);
    }
  }

  function Folded(m: Meta, e: Row): Meta {
    Meta(Plus(m.totals, OfRow(e)), AddTo(m.byModel, FieldKey("model", e), e),
         AddTo(m.byChannel, FieldKey("channel_id", e), e), AddTo(m.byToken, FieldKey("token_id", e), e))
  }

  /** Folding in one more row keeps the rollup that of all rows so far. */
  lemma RollupSnoc(rows: seq<Row>, e: Row)
    ensures Folded(RollupOf(rows), e) == RollupOf(rows + [e])
  {
    SumSnoc(rows, e);
    AddToGrouping("model", rows, e);
    AddToGrouping("channel_id", rows, e);
    AddToGrouping("token_id", rows, e);
  }

  lemma SumSnoc(rows: seq<Row>, e: Row)
    ensures Sum(rows + [e]) == Plus(Sum(rows), OfRow(e))
    ensures SumGroup(rows + [e]) == PlusGroup(SumGroup(rows), GroupOfRow(e))
  {
    assert (rows + [e])[..|rows|] == rows;
  }

  lemma {:induction false} SumConcat(a: seq<Row>, b: seq<Row>)
    ensures Sum(a + b) == Plus(Sum(a), Sum(b))
  {
    if b == [] {
      assert a + b == a;
    } else {
      assert a + b == (a + b[..|b| - 1]) + [b[|b| - 1]];
      SumConcat(a, b[..|b| - 1]);
      SumSnoc(a + b[..|b| - 1], b[|b| - 1]);
    }
  }

  lemma {:induction false} SumGroupConcat(a: seq<Row>, b: seq<Row>)
    ensures SumGroup(a + b) == PlusGroup(SumGroup(a), SumGroup(b))
  {
    if b == [] {
      assert a + b == a;
    } else {
      assert a + b == (a + b[..|b| - 1]) + [b[|b| - 1]];
      SumGroupConcat(a, b[..|b| - 1]);
      SumSnoc(a + b[..|b| - 1], b[|b| - 1]);
    }
  }

  lemma {:induction false} RowsCounted(rows: seq<Row>)
    ensures Sum(rows).rows == |rows|
  {
    if rows != [] {
      RowsCounted(rows[..|rows| - 1]);
    }
  }

  /** At every label, known or not, the grouping holds the sum of that label's rows. */
  lemma GroupAtLabel(field: string, rows: seq<Row>, k: string)
    ensures At(GroupBy(field, rows), k) == SumGroup(Select(Labelled(field, k), rows))
  {
    if k !in Labels(field, rows) {
      forall r | r in rows ensures !Labelled(field, k)(r) {
        assert FieldKey(field, r) in Labels(field, rows);
      }
      SelectNone(Labelled(field, k), rows);
    }
  }

  lemma AddAtLabel(field: string, rows: seq<Row>, e: Row, k: string)
    ensures SumGroup(Select(Labelled(field, k), rows + [e])) ==
            if FieldKey(field, e) == k then PlusGroup(At(GroupBy(field, rows), k), GroupOfRow(e))
              else At(GroupBy(field, rows), k)
  {
    var sel := Select(Labelled(field, k), rows);
    GroupAtLabel(field, rows, k);
    SelectSnoc(Labelled(field, k), rows, e);
    if FieldKey(field, e) == k {
      SumSnoc(sel, e);
    } else {
      assert sel + [] == sel;
    }
  }

  lemma AddToGrouping(field: string, rows: seq<Row>, e: Row)
    ensures AddTo(GroupBy(field, rows), FieldKey(field, e), e) == GroupBy(field, rows + [e])
  {
    var a, b, key := GroupBy(field, rows), GroupBy(field, rows + [e]), FieldKey(field, e);
    LabelsConcat(field, rows, [e]);
    OneLabel(field, e);
    var c := AddTo(a, key, e);
    forall k | k in b ensures c[k] == b[k] {
      AddAtLabel(field, rows, e, k);
    }
    SameGroups(c, b);
  }

  lemma OneLabel(field: string, e: Row)
    ensures Labels(field, [e]) == {FieldKey(field, e)}
  {
    assert e in [e];
  }

  lemma SameGroups(a: Groups, b: Groups)
    requires a.Keys == b.Keys && forall k :: k in b ==> a[k] == b[k]
    ensures a == b
  {
  }

  lemma LabelsConcat(field: string, a: seq<Row>, b: seq<Row>)
    ensures Labels(field, a + b) == Labels(field, a) + Labels(field, b)
  {
    forall r | r in a + b ensures FieldKey(field, r) in Labels(field, a) + Labels(field, b) {
      assert r in a || r in b;
    }
    forall r | r in a || r in b ensures FieldKey(field, r) in Labels(field, a + b) {
      assert r in a + b;
    }
  }

  /** Merging the groupings of two files groups their rows together. */
  lemma MergedGroupings(field: string, a: seq<Row>, b: seq<Row>)
    ensures Merged(GroupBy(field, a), GroupBy(field, b)) == GroupBy(field, a + b)
  {
    var m, g := Merged(GroupBy(field, a), GroupBy(field, b)), GroupBy(field, a + b);
    LabelsConcat(field, a, b);
    forall k | k in g ensures m[k] == g[k] {
      MergedAt(field, a, b, k);
    }
    SameGroups(m, g);
  }

  lemma MergedAt(field: string, a: seq<Row>, b: seq<Row>, k: string)
    ensures PlusGroup(At(GroupBy(field, a), k), At(GroupBy(field, b), k)) == SumGroup(Select(Labelled(field, k), a + b))
  {
    GroupAtLabel(field, a, k);
    GroupAtLabel(field, b, k);
    SelectConcat(Labelled(field, k), a, b);
    SumGroupConcat(Select(Labelled(field, k), a), Select(Labelled(field, k), b));
  }

  /** mergeField: folds src into dst, visiting src's labels in any order. */
  method MergeField(dst: Groups, src: Groups) returns (r: Groups)
    ensures r == Merged(dst, src)
  {
    r := dst;
    var todo := src.Keys;
    while todo != {}
      invariant todo <= src.Keys && r.Keys == dst.Keys + (src.Keys - todo)
      invariant forall k :: k in r ==>
        r[k] == if k in src && k !in todo then PlusGroup(At(dst, k), src[k]) else At(dst, k)
      decreases todo
    {
      var k :| k in todo;
      r := r[k := PlusGroup(At(r, k), src[k])];
      todo := todo - {k};
    }
    assert r.Keys == Merged(dst, src).Keys;
  }

  /** What is left after the first i rows have been folded into m. */
  function FoldTo<M>(step: (M, Row) -> M, m: M, rows: seq<Row>, i: nat): M
    requires i <= |rows|
  {
    if i == 0 then m else step(FoldTo(step, m, rows, i - 1), rows[i - 1])
  }

  /** One step keeps up with one more row. */
  ghost predicate KeepsUp<M>(step: (M, Row) -> M, roll: seq<Row> -> M) {
    forall rows: seq<Row>, e: Row :: roll(rows + [e]) == step(roll(rows), e)
  }

  lemma {:induction false} FoldKeepsUp<M>(step: (M, Row) -> M, roll: seq<Row> -> M, rows: seq<Row>, more: seq<Row>,
                                          i: nat)
    requires KeepsUp(step, roll) && i <= |more|
    ensures FoldTo(step, roll(rows), more, i) == roll(rows + more[..i])
  {
    if i == 0 {
      assert rows + more[..0] == rows;
    } else {
      FoldKeepsUp(step, roll, rows, more, i - 1);
      assert rows + more[..i] == (rows + more[..i - 1]) + [more[i - 1]];
    }
  }

  /** Folding more rows into the rollup of some gives the rollup of all. */
  lemma FoldIsRollup(rows: seq<Row>, more: seq<Row>)
    ensures FoldTo(Folded, RollupOf(rows), more, |more|) == RollupOf(rows + more)
  {
    forall s: seq<Row>, e: Row
      ensures RollupOf(s + [e]) == Folded(RollupOf(s), e)
    {
      RollupSnoc(s, e);
    }
    FoldKeepsUp(Folded, RollupOf, rows, more, |more|);
    assert more[..|more|] == more;
  }

  lemma NoRows()
    ensures RollupOf([]) == EMPTY_META
  {
  }

  /** rebuildMeta: one scan reconstructs the rollup. */
  method RebuildMeta(rows: seq<Row>) returns (m: Meta)
    ensures m == RollupOf(rows) && Adds(m.totals, rows)
    ensures m.byModel == GroupBy("model", rows) && m.byChannel == GroupBy("channel_id", rows)
      && m.byToken == GroupBy("token_id", rows)
  {
    SumAdds(rows);
    m := Scan(rows);
    NoRows();
    FoldIsRollup([], rows);
    assert [] + rows == rows;
  }

  method Scan(rows: seq<Row>) returns (m: Meta)
    ensures m == FoldTo(Folded, EMPTY_META, rows, |rows|)
  {
    var meta := new FileMeta(EMPTY_META);
    for i := 0 to |rows|
      invariant meta.View() == FoldTo(Folded, EMPTY_META, rows, i)
    {
      meta.Add(rows[i]);
    }
    m := meta.View();
  }
}
