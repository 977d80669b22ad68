/** One day file with its rollup, started on any directory state: when statistics can be trusted. */
module MetaRecovery {
  import opened Options
  import opened LogRows
  import opened Rollup
  import opened JsonlFiles

  /** open is what the process holds: nothing, or an open file with its rollup if that is known. */
  datatype FileState = FileState(rows: seq<Row>, stored: Option<Meta>, open: Option<Option<Meta>>)

  datatype Step = Append(batch: seq<Row>) | ReadStats | Reopen | Delete

  /** A stored rollup without rows counts as missing. */
  function Loaded(s: FileState): Option<Meta> {
    if s.stored.Some? && s.stored.value.totals.rows != 0 then s.stored else None
  }

  /** Opening for append: an empty file starts a clean rollup, another one loads what is stored. */
  function Opened(s: FileState): Option<Meta> {
    if s.open.Some? then s.open.value
    else if s.rows == [] then Some(EMPTY_META)
    else Loaded(s)
  }

  /** A batch written to the file once it is open: a known rollup follows and is stored. */
  function Written(s: FileState, meta: Option<Meta>, batch: seq<Row>): FileState {
    if meta.None? then FileState(s.rows + batch, s.stored, Some(None))
    else
      var next := Some(FoldTo(Folded, meta.value, batch, |batch|));
      FileState(s.rows + batch, next, Some(next))
  }

  function Appended(s: FileState, batch: seq<Row>): FileState {
    Written(s, Opened(s), batch)
  }

  /** What a statistics read is told. */
  function Answer(s: FileState): Meta {
    if Loaded(s).Some? then Loaded(s).value else RollupOf(s.rows)
  }

  predicate Capped(p: Platform, rows: seq<Row>) {
    rows != [] && SizeOf(p, rows) >= p.maxFileBytes
  }

  /** A batch never goes to a file at the cap, and no batch is empty. */
  function Next(p: Platform, s: FileState, step: Step): FileState {
    match step
    case Append(batch) => if batch == [] || Capped(p, s.rows) then s else Appended(s, batch)
    case ReadStats => s.(stored := Some(Answer(s)))
    case Reopen => s.(open := None)
    case Delete => FileState([], None, None)
  }

  predicate Exact(s: FileState) {
    Answer(s) == RollupOf(s.rows)
  }

  /** Every statistics read of the run is answered with the rollup of the rows then in the file. */
  predicate AllExact(p: Platform, s: FileState, steps: seq<Step>)
    decreases |steps|
  {
    steps == [] || ((steps[0].ReadStats? ==> Exact(s)) && AllExact(p, Next(p, s, steps[0]), steps[1..]))
  }

  /** Whether anything is ever appended to a file is decided by its name. */
  predicate CanHappen(appendable: bool, steps: seq<Step>) {
    appendable || forall i :: 0 <= i < |steps| ==> !steps[i].Append?
  }

  // ---- Files whose rollup is tracked.

  ghost predicate Tracked(s: FileState) {
    && Loaded(s) == (if s.rows == [] then None else Some(RollupOf(s.rows)))
    && (s.open.Some? ==> s.open.value == Some(RollupOf(s.rows)))
  }

  lemma AppendTracks(s: FileState, batch: seq<Row>)
    requires Tracked(s)
    ensures Tracked(Appended(s, batch))
  {
    NoRows();
    FoldIsRollup(s.rows, batch);
    RowsCounted(s.rows + batch);
  }

  lemma ReadTracks(s: FileState)
    requires Tracked(s)
    ensures Exact(s) && Tracked(s.(stored := Some(Answer(s))))
  {
    RowsCounted(s.rows);
  }

  /** A second read is told the same. */
  lemma ReadTwice(p: Platform, s: FileState)
    ensures var t := Next(p, s, ReadStats); Answer(t) == Answer(s) && Next(p, t, ReadStats) == t && t.rows == s.rows
  {
    RowsCounted(s.rows);
  }

  lemma StepTracks(p: Platform, s: FileState, step: Step)
    requires Tracked(s)
    ensures Tracked(Next(p, s, step)) && Exact(s)
  {
    ReadTracks(s);
    if step.Append? {
      AppendTracks(s, step.batch);
    }
  }

  lemma {:induction false} TrackedRunsExact(p: Platform, s: FileState, steps: seq<Step>)
    requires Tracked(s)
    ensures AllExact(p, s, steps)
    decreases |steps|
  {
    if steps != [] {
      StepTracks(p, s, steps[0]);
      TrackedRunsExact(p, Next(p, s, steps[0]), steps[1..]);
    }
  }

  // ---- Files whose rollup is missing.

  lemma SizeGrows(p: Platform, rows: seq<Row>, batch: seq<Row>)
    requires batch != []
    ensures SizeOf(p, rows) < SizeOf(p, rows + batch[..1]) <= SizeOf(p, rows + batch)
  {
    assert rows + batch == (rows + batch[..1]) + batch[1..];
    SizeConcat(p, rows + batch[..1], batch[1..]);
    SizeConcat(p, rows, batch[..1]);
    assert batch[..1][..0] == [];
  }

  /** Whatever row comes next, the file is at the cap with it. */
  ghost predicate LastAppend(p: Platform, rows: seq<Row>) {
    forall r: Row :: Capped(p, rows + [r])
  }

  /** At the cap nothing is appended any more, so a rollup that is right or missing stays so. */
  ghost predicate Settled(p: Platform, s: FileState) {
    s.rows != [] && Capped(p, s.rows) && (Loaded(s) == None || Loaded(s) == Some(RollupOf(s.rows)))
  }

  /** Closed without a rollup, and whatever is appended fills the file. */
  ghost predicate AlmostFull(p: Platform, s: FileState) {
    s.rows != [] && s.open == None && Loaded(s) == None && LastAppend(p, s.rows)
  }

  ghost predicate Sound(p: Platform, appendable: bool, s: FileState) {
    Tracked(s) || Settled(p, s) || AlmostFull(p, s) || (!appendable && Exact(s))
  }

  lemma AppendFills(p: Platform, s: FileState, batch: seq<Row>)
    requires AlmostFull(p, s) && batch != []
    ensures Settled(p, Appended(s, batch))
  {
    SizeGrows(p, s.rows, batch);
    assert batch[..1] == [batch[0]];
    assert Capped(p, s.rows + [batch[0]]);
  }

  lemma ReadSettles(p: Platform, appendable: bool, s: FileState)
    requires Sound(p, appendable, s)
    ensures Exact(s) && Sound(p, appendable, s.(stored := Some(Answer(s))))
  {
    if Tracked(s) {
      ReadTracks(s);
    } else {
      RowsCounted(s.rows);
    }
  }

  lemma StepSound(p: Platform, appendable: bool, s: FileState, step: Step)
    requires Sound(p, appendable, s) && (step.Append? ==> appendable)
    ensures Sound(p, appendable, Next(p, s, step)) && Exact(s)
  {
    ReadSettles(p, appendable, s);
    if step.Append? && step.batch != [] && !Capped(p, s.rows) {
      if Tracked(s) {
        AppendTracks(s, step.batch);
      } else {
        AppendFills(p, s, step.batch);
      }
    }
  }

  lemma {:induction false} SoundRunsExact(p: Platform, appendable: bool, s: FileState, steps: seq<Step>)
    requires Sound(p, appendable, s) && CanHappen(appendable, steps)
    ensures AllExact(p, s, steps)
    decreases |steps|
  {
    if steps != [] {
      StepSound(p, appendable, s, steps[0]);
      SoundRunsExact(p, appendable, Next(p, s, steps[0]), steps[1..]);
    }
  }

  /** An append before the first statistics read leaves the rollup behind for good. */
  function StaleRun(r: Row): seq<Step> {
    [Append([r]), ReadStats, Append([r]), ReadStats]
  }

  /** Opened without a rollup, the file gets one only from the read. */
  lemma FirstAppend(p: Platform, s: FileState, r: Row)
    requires s.open == None && s.rows != [] && Loaded(s) == None && !Capped(p, s.rows)
    ensures var rows := s.rows + [r];
            Next(p, Next(p, s, Append([r])), ReadStats) == FileState(rows, Some(RollupOf(rows)), Some(None))
  {
  }

  /** And the next append does not touch it. */
  lemma NextAppend(p: Platform, s: FileState, r: Row)
    requires s.rows != [] && s.stored == Some(RollupOf(s.rows)) && s.open == Some(None) && !Capped(p, s.rows)
    ensures !Exact(Next(p, s, Append([r])))
  {
    StaleAnswer(s.rows, r, s.(rows := s.rows + [r]));
  }

  /** Provided both appends find the file below the cap. */
  lemma MissingRollupGoesStale(p: Platform, s: FileState, r: Row)
    requires s.open == None && s.rows != [] && Loaded(s) == None && !Capped(p, s.rows + [r])
    ensures !AllExact(p, s, StaleRun(r))
  {
    var s1 := Next(p, s, Append([r]));
    var s2 := Next(p, s1, ReadStats);
    SizeGrows(p, s.rows, [r]);
    FirstAppend(p, s, r);
    NextAppend(p, s2, r);
    WrongRollupAnswered(p, Next(p, s2, Append([r])));
    ReadAfter(p, s, Append([r]), ReadStats, Append([r]));
  }

  /** A run of four steps is answered exactly only if its last read is. */
  lemma ReadAfter(p: Platform, s: FileState, a: Step, b: Step, c: Step)
    ensures AllExact(p, s, [a, b, c, ReadStats]) ==> AllExact(p, Next(p, Next(p, Next(p, s, a), b), c), [ReadStats])
  {
    assert [a, b, c, ReadStats][1..] == [b, c, ReadStats];
    assert [b, c, ReadStats][1..] == [c, ReadStats];
    assert [c, ReadStats][1..] == [ReadStats];
    var t := Next(p, s, a);
    assert AllExact(p, s, [a, b, c, ReadStats]) ==> AllExact(p, t, [b, c, ReadStats]);
    assert AllExact(p, t, [b, c, ReadStats]) ==> AllExact(p, Next(p, t, b), [c, ReadStats]);
  }

  lemma StaleAnswer(rows: seq<Row>, r: Row, s: FileState)
    requires rows != [] && s.rows == rows + [r] && s.stored == Some(RollupOf(rows))
    ensures !Exact(s)
  {
    RowsCounted(rows);
    RowsCounted(rows + [r]);
  }

  lemma WrongRollupAnswered(p: Platform, s: FileState)
    requires !Exact(s)
    ensures !AllExact(p, s, [ReadStats])
  {
  }

  /** An empty file has no loadable rollup; another one has the rollup of its rows, or none at all
      while no row fits below the cap any more, or while nothing is ever appended to it. */
  ghost predicate Trustworthy(p: Platform, appendable: bool, s: FileState) {
    if s.rows == [] then Loaded(s) == None
    else Loaded(s) == Some(RollupOf(s.rows)) || (Loaded(s) == None && (!appendable || LastAppend(p, s.rows)))
  }

  lemma StartsSound(p: Platform, appendable: bool, s: FileState)
    requires s.open == None
    ensures Trustworthy(p, appendable, s) ==> Sound(p, appendable, s)
  {
  }

  /** Started on a closed file, every run that can happen answers every read exactly if and only if the
      file is trustworthy. */
  lemma ExactIffTrustworthy(p: Platform, appendable: bool, s: FileState)
    requires s.open == None
    ensures (forall steps :: CanHappen(appendable, steps) ==> AllExact(p, s, steps)) <==> Trustworthy(p, appendable, s)
  {
    if Trustworthy(p, appendable, s) {
      forall steps | CanHappen(appendable, steps) ensures AllExact(p, s, steps) {
        SoundRunsExact(p, appendable, s, steps);
      }
    } else if s.rows != [] && Loaded(s) == None {
      var r: Row :| !Capped(p, s.rows + [r]);
      MissingRollupGoesStale(p, s, r);
      assert CanHappen(appendable, StaleRun(r));
    } else {
      RowsCounted(s.rows);
      WrongRollupAnswered(p, s);
      assert CanHappen(appendable, [ReadStats]);
    }
  }
}
