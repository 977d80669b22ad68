/** The asynchronous front of the log store: request threads enqueue, one worker batches. */
module LogManager {
  import opened Selections

  datatype Config = Config(channelSize: nat, batchSize: int)

  /** Where the worker is: at its select, in one of the two drain loops, about to hand over the
      rest, or gone. */
  datatype Phase =
    | Selecting
    | Draining(flusher: nat)
    | Flushing(flusher: nat)
    | ShuttingDown
    | Stopping
    | Exited

  /** handed lists the calls of the driver's BatchInsert; accepted, asked and mark are history:
      the enqueued entries in order, and how many there were when a flush or the close was called. */
  datatype State<E> = State(
    queue: seq<E>, batch: seq<E>, handed: seq<seq<E>>, phase: Phase, cancelled: bool,
    inserted: nat, dropped: nat, accepted: seq<E>,
    asked: map<nat, nat>, returned: set<nat>, mark: nat)

  datatype Step<E> =
    | Insert(entry: E)      // a request thread's non-blocking send
    | Rendezvous(entry: E)  // the same, meeting the worker at its select
    | Receive | Tick
    | CallFlush(id: nat) | TakeFlush(id: nat) | Drain | DrainEmpty | FinishFlush
    | Cancel | BeginShutdown | ShutdownDrain | ShutdownEmpty | Stop

  function Init<E>(): State<E> {
    State([], [], [], Selecting, false, 0, 0, [], map[], {}, 0)
  }

  /** flush: hands a non-empty batch to the driver. */
  function HandOver<E>(s: State<E>): State<E> {
    if s.batch == [] then s else s.(handed := s.handed + [s.batch], batch := [])
  }

  /** The worker takes an entry and flushes when the batch is full. */
  function Take<E>(cfg: Config, s: State<E>, e: E): State<E> {
    var t := s.(batch := s.batch + [e]);
    if |t.batch| >= cfg.batchSize then HandOver(t) else t
  }

  predicate Enabled<E>(s: State<E>, step: Step<E>) {
    match step
    case Insert(_) => true
    case Rendezvous(_) => s.phase.Selecting? && s.queue == []
    case Receive => s.phase.Selecting? && s.queue != []
    case Tick => s.phase.Selecting?
    case CallFlush(id) => id !in s.asked
    case TakeFlush(id) => s.phase.Selecting? && id in s.asked && id !in s.returned
    case Drain => s.phase.Draining? && s.queue != []
    case DrainEmpty => s.phase.Draining? && s.queue == []
    case FinishFlush => s.phase.Flushing?
    case Cancel => !s.cancelled
    case BeginShutdown => s.phase.Selecting? && s.cancelled
    case ShutdownDrain => s.phase.ShuttingDown? && s.queue != []
    case ShutdownEmpty => s.phase.ShuttingDown? && s.queue == []
    case Stop => s.phase.Stopping?
  }

  function Next<E>(cfg: Config, s: State<E>, step: Step<E>): State<E>
    requires Enabled(s, step)
  {
    match step
    case Insert(e) =>
      if |s.queue| < cfg.channelSize
      then s.(inserted := s.inserted + 1, queue := s.queue + [e], accepted := s.accepted + [e])
      else s.(inserted := s.inserted + 1, dropped := s.dropped + 1)
    case Rendezvous(e) =>
      Take(cfg, s.(inserted := s.inserted + 1, accepted := s.accepted + [e]), e)
    case Receive => Take(cfg, s.(queue := s.queue[1..]), s.queue[0])
    case Tick => HandOver(s)
    case CallFlush(id) => s.(asked := s.asked[id := |s.accepted|])
    case TakeFlush(id) => s.(phase := Draining(id))
    case Drain => Take(cfg, s.(queue := s.queue[1..]), s.queue[0])
    case DrainEmpty => s.(phase := Flushing(s.phase.flusher))
    case FinishFlush => HandOver(s).(phase := Selecting, returned := s.returned + {s.phase.flusher})
    case Cancel => s.(cancelled := true, mark := |s.accepted|)
    case BeginShutdown => s.(phase := ShuttingDown)
    case ShutdownDrain => Take(cfg, s.(queue := s.queue[1..]), s.queue[0])
    case ShutdownEmpty => s.(phase := Stopping)
    case Stop => HandOver(s).(phase := Exited)
  }

  ghost predicate IsRun<E>(cfg: Config, s: State<E>, steps: seq<Step<E>>)
    decreases |steps|
  {
    steps == [] || (Enabled(s, steps[0]) && IsRun(cfg, Next(cfg, s, steps[0]), steps[1..]))
  }

  ghost function After<E>(cfg: Config, s: State<E>, steps: seq<Step<E>>): State<E>
    requires IsRun(cfg, s, steps)
    decreases |steps|
  {
    if steps == [] then s else After(cfg, Next(cfg, s, steps[0]), steps[1..])
  }

  function Flat<E>(batches: seq<seq<E>>): seq<E> {
    if batches == [] then [] else Flat(batches[..|batches| - 1]) + batches[|batches| - 1]
  }

  function BatchBound(cfg: Config): nat {
    if cfg.batchSize >= 1 then cfg.batchSize else 1
  }

  /** Nothing is lost, duplicated or reordered between enqueueing and the driver. */
  ghost predicate Conserved<E>(s: State<E>) {
    && Flat(s.handed) + s.batch + s.queue == s.accepted
    && |s.accepted| + s.dropped == s.inserted
  }

  ghost predicate Bounded<E>(cfg: Config, s: State<E>) {
    && |s.queue| <= cfg.channelSize
    && |s.batch| < BatchBound(cfg)
    && forall i :: 0 <= i < |s.handed| ==> 1 <= |s.handed[i]| <= BatchBound(cfg)
  }

  /** What a flush or the close waits for is on its way, and there when it returns. */
  ghost predicate Delivering<E>(s: State<E>) {
    && (forall id :: id in s.asked ==> s.asked[id] <= |s.accepted|)
    && (forall id :: id in s.returned ==> id in s.asked && s.asked[id] <= |Flat(s.handed)|)
    && (s.phase.Draining? || s.phase.Flushing? ==> s.phase.flusher in s.asked)
    && (s.phase.Flushing? ==> s.asked[s.phase.flusher] <= |Flat(s.handed)| + |s.batch|)
    && (s.cancelled ==> s.mark <= |s.accepted|)
    && (s.phase.ShuttingDown? || s.phase.Stopping? || s.phase.Exited? ==> s.cancelled)
    && (s.phase.Stopping? ==> s.mark <= |Flat(s.handed)| + |s.batch|)
    && (s.phase.Exited? ==> s.mark <= |Flat(s.handed)|)
  }

  ghost predicate Inv<E>(cfg: Config, s: State<E>) {
    Conserved(s) && Bounded(cfg, s) && Delivering(s)
  }

  lemma FlatSnoc<E>(batches: seq<seq<E>>, b: seq<E>)
    ensures Flat(batches + [b]) == Flat(batches) + b
  {
    assert (batches + [b])[..|batches|] == batches;
  }

  lemma HandOverKeeps<E>(s: State<E>)
    ensures var t := HandOver(s);
      Flat(t.handed) == Flat(s.handed) + s.batch && t.batch == [] && t == s.(handed := t.handed, batch := [])
  {
    FlatSnoc(s.handed, s.batch);
    assert Flat(s.handed) + [] == Flat(s.handed);
  }

  lemma TakeContents<E>(cfg: Config, s: State<E>, e: E)
    ensures var t := Take(cfg, s, e);
      Flat(t.handed) + t.batch == Flat(s.handed) + s.batch + [e] && |Flat(t.handed)| >= |Flat(s.handed)|
  {
    var b := s.batch + [e];
    FlatSnoc(s.handed, b);
    assert Flat(s.handed) + b == Flat(s.handed) + s.batch + [e];
    assert Flat(s.handed + [b]) + [] == Flat(s.handed + [b]);
  }

  lemma TakeBounds<E>(cfg: Config, s: State<E>, e: E)
    requires |s.batch| < BatchBound(cfg)
    requires forall i :: 0 <= i < |s.handed| ==> 1 <= |s.handed[i]| <= BatchBound(cfg)
    ensures var t := Take(cfg, s, e);
      |t.batch| < BatchBound(cfg) && forall i :: 0 <= i < |t.handed| ==> 1 <= |t.handed[i]| <= BatchBound(cfg)
  {
  }

  lemma TakeKeeps<E>(cfg: Config, s: State<E>, e: E)
    requires |s.batch| < BatchBound(cfg)
    requires forall i :: 0 <= i < |s.handed| ==> 1 <= |s.handed[i]| <= BatchBound(cfg)
    ensures var t := Take(cfg, s, e);
      && t == s.(handed := t.handed, batch := t.batch)
      && Flat(t.handed) + t.batch == Flat(s.handed) + s.batch + [e]
      && |Flat(t.handed)| >= |Flat(s.handed)|
      && |t.batch| < BatchBound(cfg)
      && forall i :: 0 <= i < |t.handed| ==> 1 <= |t.handed[i]| <= BatchBound(cfg)
  {
    TakeContents(cfg, s, e);
    TakeBounds(cfg, s, e);
  }

  lemma InsertKeeps<E>(cfg: Config, s: State<E>, e: E)
    requires Inv(cfg, s)
    ensures Inv(cfg, Next(cfg, s, Insert(e)))
  {
    assert Flat(s.handed) + s.batch + (s.queue + [e]) == Flat(s.handed) + s.batch + s.queue + [e];
  }

  lemma RendezvousConserves<E>(cfg: Config, s: State<E>, e: E)
    requires Conserved(s) && Bounded(cfg, s) && Enabled(s, Rendezvous(e))
    ensures var t := Next(cfg, s, Rendezvous(e));
      && t == s.(inserted := s.inserted + 1, accepted := s.accepted + [e], handed := t.handed, batch := t.batch)
      && Conserved(t) && Bounded(cfg, t) && |Flat(t.handed)| >= |Flat(s.handed)|
  {
    TakeKeeps(cfg, s.(inserted := s.inserted + 1, accepted := s.accepted + [e]), e);
    assert Flat(s.handed) + s.batch + [] == Flat(s.handed) + s.batch;
    var t := Next(cfg, s, Rendezvous(e));
    assert Flat(t.handed) + t.batch + [] == Flat(t.handed) + t.batch;
  }

  lemma RendezvousKeeps<E>(cfg: Config, s: State<E>, e: E)
    requires Inv(cfg, s) && Enabled(s, Rendezvous(e))
    ensures Inv(cfg, Next(cfg, s, Rendezvous(e)))
  {
    RendezvousConserves(cfg, s, e);
  }

  lemma ReceiveKeeps<E>(cfg: Config, s: State<E>, step: Step<E>)
    requires Inv(cfg, s) && Enabled(s, step) && (step.Receive? || step.Drain? || step.ShutdownDrain?)
    ensures Inv(cfg, Next(cfg, s, step))
  {
    ReceiveConserves(cfg, s);
  }

  lemma ReceiveConserves<E>(cfg: Config, s: State<E>)
    requires Conserved(s) && Bounded(cfg, s) && s.queue != []
    ensures var t := Take(cfg, s.(queue := s.queue[1..]), s.queue[0]);
      && t == s.(queue := s.queue[1..], handed := t.handed, batch := t.batch)
      && Conserved(t) && Bounded(cfg, t) && |Flat(t.handed)| >= |Flat(s.handed)|
  {
    TakeKeeps(cfg, s.(queue := s.queue[1..]), s.queue[0]);
    assert s.queue == [s.queue[0]] + s.queue[1..];
  }

  lemma HandOverConserves<E>(cfg: Config, s: State<E>)
    requires Conserved(s) && Bounded(cfg, s)
    ensures Conserved(HandOver(s)) && Bounded(cfg, HandOver(s))
  {
    var t := HandOver(s);
    HandOverKeeps(s);
    HandOverBounds(cfg, s);
    assert Flat(t.handed) + t.batch == Flat(s.handed) + s.batch;
  }

  lemma HandOverBounds<E>(cfg: Config, s: State<E>)
    requires Bounded(cfg, s)
    ensures Bounded(cfg, HandOver(s))
  {
  }

  lemma TickKeeps<E>(cfg: Config, s: State<E>)
    requires Inv(cfg, s)
    ensures Inv(cfg, HandOver(s))
  {
    HandOverKeeps(s);
    HandOverConserves(cfg, s);
  }

  lemma HandingKeeps<E>(cfg: Config, s: State<E>, step: Step<E>)
    requires Inv(cfg, s) && Enabled(s, step) && (step.FinishFlush? || step.Stop?)
    ensures Inv(cfg, Next(cfg, s, step))
  {
    var t := HandOver(s);
    HandOverKeeps(s);
    HandOverConserves(cfg, s);
    var u := Next(cfg, s, step);
    assert u.handed == t.handed && u.batch == t.batch && u.queue == t.queue && u.accepted == t.accepted;
    assert Conserved(u) && Bounded(cfg, u);
  }

  lemma SignalKeeps<E>(cfg: Config, s: State<E>, step: Step<E>)
    requires Inv(cfg, s) && Enabled(s, step)
    requires step.CallFlush? || step.TakeFlush? || step.DrainEmpty? || step.Cancel? || step.BeginShutdown?
      || step.ShutdownEmpty?
    ensures Inv(cfg, Next(cfg, s, step))
  {
  }

  lemma StepKeeps<E>(cfg: Config, s: State<E>, step: Step<E>)
    requires Inv(cfg, s) && Enabled(s, step)
    ensures Inv(cfg, Next(cfg, s, step))
  {
    if step.Insert? {
      InsertKeeps(cfg, s, step.entry);
    } else if step.Rendezvous? {
      RendezvousKeeps(cfg, s, step.entry);
    } else if step.Receive? || step.Drain? || step.ShutdownDrain? {
      ReceiveKeeps(cfg, s, step);
    } else if step.Tick? {
      TickKeeps(cfg, s);
    } else if step.FinishFlush? || step.Stop? {
      HandingKeeps(cfg, s, step);
    } else {
      SignalKeeps(cfg, s, step);
    }
  }

  lemma {:induction false} RunKeeps<E>(cfg: Config, s: State<E>, steps: seq<Step<E>>)
    requires Inv(cfg, s) && IsRun(cfg, s, steps)
    ensures Inv(cfg, After(cfg, s, steps))
    decreases |steps|
  {
    if steps != [] {
      StepKeeps(cfg, s, steps[0]);
      RunKeeps(cfg, Next(cfg, s, steps[0]), steps[1..]);
    }
  }

  /** On every interleaving: the driver has received, in order, exactly the accepted entries that are
      no longer batched or queued; accepted and dropped make up the inserted; the bounds hold; and
      a flush that returned, or a worker that exited, left nothing enqueued earlier behind. */
  lemma PipelineConserves<E>(cfg: Config, steps: seq<Step<E>>)
    requires IsRun(cfg, Init(), steps)
    ensures var s := After(cfg, Init(), steps);
      && Flat(s.handed) + s.batch + s.queue == s.accepted
      && |s.accepted| + s.dropped == s.inserted
      && |s.queue| <= cfg.channelSize && |s.batch| < BatchBound(cfg)
      && (forall id :: id in s.returned ==>
          id in s.asked && s.asked[id] <= |s.accepted| && s.accepted[..s.asked[id]] <= Flat(s.handed))
      && (s.phase.Exited? ==> s.mark <= |s.accepted| && s.accepted[..s.mark] <= Flat(s.handed))
  {
    RunKeeps(cfg, Init(), steps);
    var s := After(cfg, Init(), steps);
    forall n: nat | n <= |Flat(s.handed)|
      ensures s.accepted[..n] <= Flat(s.handed)
    {
      HandedInOrder(Flat(s.handed), s.batch, s.queue, n);
    }
  }

  lemma HandedInOrder<E>(handed: seq<E>, batch: seq<E>, queue: seq<E>, n: nat)
    requires n <= |handed|
    ensures (handed + batch + queue)[..n] <= handed
  {
  }

  // ---- What is accepted, and what is dropped.

  /** The entries that got in: those inserted while fewer than channelSize were queued, and those that met the
      worker at its select. */
  ghost function Admitted<E>(cfg: Config, s: State<E>, steps: seq<Step<E>>): seq<E>
    requires IsRun(cfg, s, steps)
    decreases |steps|
  {
    if steps == [] then []
    else
      (if steps[0].Rendezvous? || (steps[0].Insert? && |s.queue| < cfg.channelSize) then [steps[0].entry] else [])
        + Admitted(cfg, Next(cfg, s, steps[0]), steps[1..])
  }

  /** How many inserts found the channel full. */
  ghost function Overflows<E>(cfg: Config, s: State<E>, steps: seq<Step<E>>): nat
    requires IsRun(cfg, s, steps)
    decreases |steps|
  {
    if steps == [] then 0
    else
      (if steps[0].Insert? && |s.queue| >= cfg.channelSize then 1 else 0)
        + Overflows(cfg, Next(cfg, s, steps[0]), steps[1..])
  }

  /** All entries sent, in order. */
  function Entries<E>(steps: seq<Step<E>>): seq<E> {
    if steps == [] then []
    else (if steps[0].Insert? || steps[0].Rendezvous? then [steps[0].entry] else []) + Entries(steps[1..])
  }

  /** On every run exactly the entries that found room are accepted, in order, and exactly the others dropped. */
  lemma {:induction false} AcceptedIs<E>(cfg: Config, s: State<E>, steps: seq<Step<E>>)
    requires IsRun(cfg, s, steps)
    ensures var t := After(cfg, s, steps);
      t.accepted == s.accepted + Admitted(cfg, s, steps) && t.dropped == s.dropped + Overflows(cfg, s, steps)
    decreases |steps|
  {
    if steps == [] {
      NothingBehind(s.accepted);
    } else {
      var t := Next(cfg, s, steps[0]);
      var step := steps[0];
      var one := if step.Rendezvous? || (step.Insert? && |s.queue| < cfg.channelSize) then [step.entry] else [];
      assert t.accepted == s.accepted + one by {
        NothingBehind(s.accepted);
      }
      AcceptedIs(cfg, t, steps[1..]);
      Reassociate(s.accepted, one, Admitted(cfg, t, steps[1..]));
    }
  }

  /** If no insert finds the channel full, every entry is accepted and none dropped. */
  lemma {:induction false} NothingDropped<E>(cfg: Config, s: State<E>, steps: seq<Step<E>>)
    requires IsRun(cfg, s, steps) && Overflows(cfg, s, steps) == 0
    ensures Admitted(cfg, s, steps) == Entries(steps)
    decreases |steps|
  {
    if steps != [] {
      NothingDropped(cfg, Next(cfg, s, steps[0]), steps[1..]);
    }
  }

  /** That is so of every run that sends no more entries than the channel holds. */
  lemma {:induction false} FewEntriesFit<E>(cfg: Config, s: State<E>, steps: seq<Step<E>>)
    requires IsRun(cfg, s, steps) && |s.queue| + |Entries(steps)| <= cfg.channelSize
    ensures Overflows(cfg, s, steps) == 0
    decreases |steps|
  {
    if steps != [] {
      FewEntriesFit(cfg, Next(cfg, s, steps[0]), steps[1..]);
    }
  }

  // ---- What a flush and the close wait for.

  lemma {:induction false} Join<E>(cfg: Config, s: State<E>, first: seq<Step<E>>, then_: seq<Step<E>>)
    requires IsRun(cfg, s, first) && IsRun(cfg, After(cfg, s, first), then_)
    ensures IsRun(cfg, s, first + then_) && After(cfg, s, first + then_) == After(cfg, After(cfg, s, first), then_)
    decreases |first|
  {
    if first == [] {
      assert first + then_ == then_;
    } else {
      Join(cfg, Next(cfg, s, first[0]), first[1..], then_);
      assert (first + then_)[1..] == first[1..] + then_;
    }
  }

  /** Nothing is taken back: not an accepted entry, and not what a flush or the close waits for. */
  ghost predicate Grows<E>(s: State<E>, t: State<E>) {
    && s.accepted <= t.accepted
    && (forall id :: id in s.asked ==> id in t.asked && t.asked[id] == s.asked[id])
    && (s.cancelled ==> t.cancelled && t.mark == s.mark)
  }

  lemma {:induction false} RunGrows<E>(cfg: Config, s: State<E>, steps: seq<Step<E>>)
    requires IsRun(cfg, s, steps)
    ensures Grows(s, After(cfg, s, steps))
    decreases |steps|
  {
    if steps != [] {
      RunGrows(cfg, Next(cfg, s, steps[0]), steps[1..]);
    }
  }

  lemma HandedCovers<E>(s: State<E>, t: State<E>, n: nat)
    requires Conserved(t) && s.accepted <= t.accepted && n == |s.accepted| <= |Flat(t.handed)|
    ensures s.accepted <= Flat(t.handed)
  {
    assert s.accepted == t.accepted[..n];
    HandedInOrder(Flat(t.handed), t.batch, t.queue, n);
  }

  /** When a flush returns, everything accepted before it was called is with the driver. */
  lemma FlushCovers<E>(cfg: Config, first: seq<Step<E>>, id: nat, later: seq<Step<E>>)
    requires IsRun(cfg, Init(), first) && Enabled(After(cfg, Init(), first), CallFlush(id))
    requires IsRun(cfg, Next(cfg, After(cfg, Init(), first), CallFlush(id)), later)
    ensures var s := After(cfg, Init(), first);
      var t := After(cfg, Next(cfg, s, CallFlush(id)), later);
      id in t.returned ==> s.accepted <= Flat(t.handed)
  {
    var s := After(cfg, Init(), first);
    var called := Next(cfg, s, CallFlush(id));
    RunKeeps(cfg, Init(), first);
    StepKeeps(cfg, s, CallFlush(id));
    RunKeeps(cfg, called, later);
    RunGrows(cfg, called, later);
    var t := After(cfg, called, later);
    if id in t.returned {
      HandedCovers(s, t, |s.accepted|);
    }
  }

  /** When the worker has exited, everything accepted before the close is with the driver. */
  lemma CloseCovers<E>(cfg: Config, first: seq<Step<E>>, later: seq<Step<E>>)
    requires IsRun(cfg, Init(), first) && Enabled(After(cfg, Init(), first), Cancel)
    requires IsRun(cfg, Next(cfg, After(cfg, Init(), first), Cancel), later)
    ensures var s := After(cfg, Init(), first);
      var t := After(cfg, Next(cfg, s, Cancel), later);
      t.phase.Exited? ==> s.accepted <= Flat(t.handed)
  {
    var s := After(cfg, Init(), first);
    var called := Next(cfg, s, Cancel);
    RunKeeps(cfg, Init(), first);
    StepKeeps(cfg, s, Cancel);
    RunKeeps(cfg, called, later);
    RunGrows(cfg, called, later);
    var t := After(cfg, called, later);
    if t.phase.Exited? {
      HandedCovers(s, t, |s.accepted|);
    }
  }

  // ---- The worker gets on.

  /** Where the worker takes entries out of the channel. */
  predicate Takes<E>(s: State<E>, step: Step<E>) {
    (step.Receive? && s.phase.Selecting?) || (step.Drain? && s.phase.Draining?)
    || (step.ShutdownDrain? && s.phase.ShuttingDown?)
  }

  ghost predicate Emptied<E>(cfg: Config, s: State<E>, t: State<E>) {
    Inv(cfg, t) && t.queue == [] && t.phase == s.phase && t.accepted == s.accepted
  }

  /** One step per entry empties the channel. */
  lemma Empties<E>(cfg: Config, s: State<E>, step: Step<E>) returns (steps: seq<Step<E>>)
    requires Inv(cfg, s) && Takes(s, step)
    ensures |steps| == |s.queue| && IsRun(cfg, s, steps) && Emptied(cfg, s, After(cfg, s, steps))
    decreases |s.queue|
  {
    if s.queue == [] {
      steps := [];
    } else {
      var t := Next(cfg, s, step);
      ReceiveConserves(cfg, s);
      StepKeeps(cfg, s, step);
      var rest := Empties(cfg, t, step);
      steps := [step] + rest;
      assert steps[1..] == rest;
    }
  }

  lemma OneStep<E>(cfg: Config, s: State<E>, step: Step<E>)
    requires Enabled(s, step)
    ensures IsRun(cfg, s, [step]) && After(cfg, s, [step]) == Next(cfg, s, step)
  {
    assert [step][1..] == [];
    assert IsRun(cfg, Next(cfg, s, step), []);
  }

  lemma TwoSteps<E>(cfg: Config, s: State<E>, a: Step<E>, b: Step<E>)
    requires Enabled(s, a) && Enabled(Next(cfg, s, a), b)
    ensures IsRun(cfg, s, [a, b]) && After(cfg, s, [a, b]) == Next(cfg, Next(cfg, s, a), b)
  {
    OneStep(cfg, s, a);
    OneStep(cfg, Next(cfg, s, a), b);
    Join(cfg, s, [a], [b]);
    assert [a] + [b] == [a, b];
  }

  lemma AllHandedOver<E>(s: State<E>)
    requires Conserved(s) && s.queue == []
    ensures Flat(HandOver(s).handed) == s.accepted
  {
    HandOverKeeps(s);
    NothingBehind(Flat(s.handed) + s.batch);
  }

  /** A flush that the worker takes up is finished by the worker alone, in one step per queued
      entry and two more, and leaves everything accepted so far with the driver. */
  lemma FlushFinishes<E>(cfg: Config, s: State<E>) returns (steps: seq<Step<E>>)
    requires Inv(cfg, s) && s.phase.Draining?
    ensures |steps| == |s.queue| + 2 && IsRun(cfg, s, steps)
    ensures var t := After(cfg, s, steps);
      s.phase.flusher in t.returned && Flat(t.handed) == s.accepted == t.accepted && t.phase.Selecting?
  {
    var drains := Empties(cfg, s, Drain);
    var e := After(cfg, s, drains);
    TwoSteps(cfg, e, DrainEmpty, FinishFlush);
    AllHandedOver(Next(cfg, e, DrainEmpty));
    Join(cfg, s, drains, [DrainEmpty, FinishFlush]);
    steps := drains + [DrainEmpty, FinishFlush];
  }

  /** So is the close, once the worker has seen it. */
  lemma CloseFinishes<E>(cfg: Config, s: State<E>) returns (steps: seq<Step<E>>)
    requires Inv(cfg, s) && s.phase.ShuttingDown?
    ensures |steps| == |s.queue| + 2 && IsRun(cfg, s, steps)
    ensures var t := After(cfg, s, steps); t.phase.Exited? && Flat(t.handed) == s.accepted == t.accepted
  {
    var drains := Empties(cfg, s, ShutdownDrain);
    var e := After(cfg, s, drains);
    TwoSteps(cfg, e, ShutdownEmpty, Stop);
    AllHandedOver(Next(cfg, e, ShutdownEmpty));
    Join(cfg, s, drains, [ShutdownEmpty, Stop]);
    steps := drains + [ShutdownEmpty, Stop];
  }

  /** And without flush or close the worker catches up: it receives what is queued, and the next tick leaves
      everything accepted so far with the driver. */
  lemma TickCatchesUp<E>(cfg: Config, s: State<E>) returns (steps: seq<Step<E>>)
    requires Inv(cfg, s) && s.phase.Selecting?
    ensures |steps| == |s.queue| + 1 && IsRun(cfg, s, steps)
    ensures var t := After(cfg, s, steps);
      Flat(t.handed) == s.accepted == t.accepted && t.batch == [] && t.queue == [] && t.phase.Selecting?
  {
    var receives := Empties(cfg, s, Receive);
    var e := After(cfg, s, receives);
    OneStep(cfg, e, Tick);
    AllHandedOver(e);
    HandOverKeeps(e);
    Join(cfg, s, receives, [Tick]);
    steps := receives + [Tick];
  }

  /** An entry sent while the channel has room gets to the driver, behind everything accepted before it. */
  lemma EntryArrives<E>(cfg: Config, s: State<E>, e: E) returns (steps: seq<Step<E>>)
    requires Inv(cfg, s) && s.phase.Selecting? && |s.queue| < cfg.channelSize
    ensures IsRun(cfg, s, [Insert(e)] + steps)
    ensures Flat(After(cfg, s, [Insert(e)] + steps).handed) == s.accepted + [e]
  {
    OneStep(cfg, s, Insert(e));
    StepKeeps(cfg, s, Insert(e));
    steps := TickCatchesUp(cfg, Next(cfg, s, Insert(e)));
    Join(cfg, s, [Insert(e)], steps);
  }

  /** A flush can be called at any time, and when the worker is at its select it can be served at once. */
  lemma FlushReturns<E>(cfg: Config, s: State<E>, id: nat) returns (steps: seq<Step<E>>)
    requires Inv(cfg, s) && s.phase.Selecting? && id !in s.asked
    ensures IsRun(cfg, s, [CallFlush(id), TakeFlush(id)] + steps)
    ensures var t := After(cfg, s, [CallFlush(id), TakeFlush(id)] + steps);
      id in t.returned && Flat(t.handed) == s.accepted && t.phase.Selecting?
  {
    var t := Next(cfg, s, CallFlush(id));
    TwoSteps(cfg, s, CallFlush(id), TakeFlush(id));
    StepKeeps(cfg, s, CallFlush(id));
    StepKeeps(cfg, t, TakeFlush(id));
    steps := FlushFinishes(cfg, Next(cfg, t, TakeFlush(id)));
    Join(cfg, s, [CallFlush(id), TakeFlush(id)], steps);
  }

  /** So can the close. */
  lemma CloseReturns<E>(cfg: Config, s: State<E>) returns (steps: seq<Step<E>>)
    requires Inv(cfg, s) && s.phase.Selecting? && !s.cancelled
    ensures IsRun(cfg, s, [Cancel, BeginShutdown] + steps)
    ensures var t := After(cfg, s, [Cancel, BeginShutdown] + steps); t.phase.Exited? && Flat(t.handed) == s.accepted
  {
    var t := Next(cfg, s, Cancel);
    TwoSteps(cfg, s, Cancel, BeginShutdown);
    StepKeeps(cfg, s, Cancel);
    StepKeeps(cfg, t, BeginShutdown);
    steps := CloseFinishes(cfg, Next(cfg, t, BeginShutdown));
    Join(cfg, s, [Cancel, BeginShutdown], steps);
  }

  // ---- Batches.

  /** Handed over with fewer entries than a batch holds. */
  function Short<E>(cfg: Config): seq<E> -> bool {
    (b: seq<E>) => |b| < cfg.batchSize
  }

  /** How often the worker hands over what it has, full or not: on a tick, at the end of a flush, and when it stops. */
  function Handovers<E>(steps: seq<Step<E>>): nat {
    if steps == [] then 0
    else (if steps[0].Tick? || steps[0].FinishFlush? || steps[0].Stop? then 1 else 0) + Handovers(steps[1..])
  }

  /** All other batches are full. */
  lemma {:induction false} FewShortBatches<E>(cfg: Config, s: State<E>, steps: seq<Step<E>>)
    requires IsRun(cfg, s, steps)
    ensures |Select(Short(cfg), After(cfg, s, steps).handed)| <= |Select(Short(cfg), s.handed)| + Handovers(steps)
    decreases |steps|
  {
    if steps != [] {
      ShortNext(cfg, s, steps[0]);
      FewShortBatches(cfg, Next(cfg, s, steps[0]), steps[1..]);
    }
  }

  lemma ShortNext<E>(cfg: Config, s: State<E>, step: Step<E>)
    requires Enabled(s, step)
    ensures |Select(Short(cfg), Next(cfg, s, step).handed)|
      <= |Select(Short(cfg), s.handed)| + if step.Tick? || step.FinishFlush? || step.Stop? then 1 else 0
  {
    if step.Rendezvous? {
      ShortTake(cfg, s, step.entry);
    } else if step.Receive? || step.Drain? || step.ShutdownDrain? {
      ShortTake(cfg, s, s.queue[0]);
    } else {
      ShortSnoc(cfg, s.handed, s.batch);
    }
  }

  lemma ShortTake<E>(cfg: Config, s: State<E>, e: E)
    ensures |Select(Short(cfg), Take(cfg, s, e).handed)| == |Select(Short(cfg), s.handed)|
  {
    ShortSnoc(cfg, s.handed, s.batch + [e]);
  }

  lemma ShortSnoc<E>(cfg: Config, handed: seq<seq<E>>, b: seq<E>)
    ensures |Select(Short(cfg), handed + [b])| == |Select(Short(cfg), handed)| + if |b| < cfg.batchSize then 1 else 0
  {
    SelectSnoc(Short(cfg), handed, b);
  }
}
