/** The audit writer of internal/audit/logger.go as a state machine: callers of
    Log, the bounded channel and the writer goroutine's batch, on top of whatever
    the store does with a batch. One step is one atomic action of one goroutine.
    What is proved here, that no call is lost from the books and that the
    fail_closed latch holds, does not depend on the store. */
module WriterModel {
  import opened HashChain
  import opened Options
  import opened ScanOrder

  datatype Mode = Block | BestEffort | DropWhenFull | FailClosed

  datatype Config = Config(mode: Mode, batchMax: nat, chanSize: nat, retention: bool)

  /** The stored table and the writer's chain tip. */
  datatype Disk = Disk(table: Table, tip: string)

  /** What the environment does during one retention run. */
  datatype Upkeep = Upkeep(now: int, deleteOk: bool, dbSize: int, chunks: nat, trimOk: bool,
                           resealOk: bool, reloadOk: bool)

  /** What the writer does to the disk: commit a batch, or fail to (None), run
      retention, and come up again after a restart. */
  datatype DiskOps = DiskOps(
    commit: (Disk, seq<Payload>, bool) -> Option<Disk>,
    retain: (Disk, Upkeep) -> Disk,
    load: (Disk, bool) -> Disk)

  /** A flushed batch and whether its transaction committed. */
  datatype Flush = Flush(events: seq<Payload>, committed: bool)

  /** The history since the logger was started: Log calls that reached the mode
      switch, refusals by the latch, enqueued events and flushed batches. */
  datatype History = History(calls: nat, refused: nat, enqueued: seq<Payload>, flushes: seq<Flush>)

  /** `waiting` holds the events of Log calls that are past the mode check and
      blocked in their select. */
  datatype State = State(
    disk: Disk, waiting: seq<Payload>, queue: seq<Payload>, batch: seq<Payload>,
    dbFailed: bool, dropped: nat, closed: bool, done: bool, log: History)

  datatype Step =
    | Call(event: Payload)
    | Send(caller: nat)
    | GiveUp(caller: nat)
    | Receive(dbOk: bool)
    | BatchTick(dbOk: bool)
    | RetentionTick(dbOk: bool, upkeep: Upkeep)
    | CloseLog
    | Restart(loadOk: bool)

  function Start(disk: Disk): State
  {
    State(disk, [], [], [], false, 0, false, false, History(0, 0, [], []))
  }

  // ---- the steps ----------------------------------------------------------

  /** flushBatch: an empty batch is not flushed; a batch that cannot be committed
      is dropped and sets the latch, one that can clears it. */
  function Flushed(ops: DiskOps, s: State, dbOk: bool): State
  {
    if s.batch == [] then s
    else
      match ops.commit(s.disk, s.batch, dbOk)
      case Some(disk) =>
        s.(disk := disk, batch := [], dbFailed := false,
           log := s.log.(flushes := s.log.flushes + [Flush(s.batch, true)]))
      case None =>
        s.(batch := [], dbFailed := true, dropped := s.dropped + |s.batch|,
           log := s.log.(flushes := s.log.flushes + [Flush(s.batch, false)]))
  }

  function Without(s: seq<Payload>, i: nat): seq<Payload>
    requires i < |s|
  {
    s[..i] + s[i + 1..]
  }

  /** The writer's state after it has taken the head of the queue. */
  function Taken(s: State): State
    requires s.queue != []
  {
    s.(queue := s.queue[1..], batch := s.batch + [s.queue[0]])
  }

  /** The state after a blocked caller's event went into the channel. */
  function Sent(s: State, i: nat): State
    requires i < |s.waiting|
  {
    s.(waiting := Without(s.waiting, i), queue := s.queue + [s.waiting[i]],
       log := s.log.(enqueued := s.log.enqueued + [s.waiting[i]]))
  }

  predicate Enabled(cfg: Config, s: State, step: Step)
  {
    match step
    case Call(_) => !s.closed
    case Send(i) => i < |s.waiting| && !s.closed && |s.queue| < cfg.chanSize
    case GiveUp(i) =>
      i < |s.waiting| &&
      (match cfg.mode
       case Block => false
       case BestEffort => true
       case FailClosed => true
       case DropWhenFull => |s.queue| >= cfg.chanSize)
    case Receive(_) => !s.done && (s.queue != [] || s.closed)
    case BatchTick(_) => !s.done
    case RetentionTick(_, _) => !s.done && cfg.retention
    case CloseLog => !s.closed && s.waiting == []
    case Restart(_) => true
  }

  function Next(ops: DiskOps, cfg: Config, s: State, step: Step): State
    requires Enabled(cfg, s, step)
  {
    match step
    case Call(e) =>
      if cfg.mode.FailClosed? && s.dbFailed then
        s.(log := s.log.(calls := s.log.calls + 1, refused := s.log.refused + 1))
      else
        s.(waiting := s.waiting + [e], log := s.log.(calls := s.log.calls + 1))
    case Send(i) => Sent(s, i)
    case GiveUp(i) => s.(waiting := Without(s.waiting, i), dropped := s.dropped + 1)
    case Receive(dbOk) =>
      if s.queue == [] then Flushed(ops, s, dbOk).(done := true)
      else if |s.batch| + 1 >= cfg.batchMax then Flushed(ops, Taken(s), dbOk)
      else Taken(s)
    case BatchTick(dbOk) => Flushed(ops, s, dbOk)
    case RetentionTick(dbOk, u) =>
      var t := Flushed(ops, s, dbOk);
      t.(disk := ops.retain(t.disk, u))
    case CloseLog => s.(closed := true)
    case Restart(loadOk) => Start(ops.load(s.disk, loadOk))
  }

  predicate Runnable(ops: DiskOps, cfg: Config, s: State, steps: seq<Step>)
    decreases |steps|
  {
    steps == [] || (Enabled(cfg, s, steps[0]) && Runnable(ops, cfg, Next(ops, cfg, s, steps[0]), steps[1..]))
  }

  function Run(ops: DiskOps, cfg: Config, s: State, steps: seq<Step>): State
    requires Runnable(ops, cfg, s, steps)
    decreases |steps|
  {
    if steps == [] then s else Run(ops, cfg, Next(ops, cfg, s, steps[0]), steps[1..])
  }

  // ---- what Log returns ---------------------------------------------------

  /** A finished Log call: its event, and whether it returned nil. */
  datatype Return = Return(event: Payload, ok: bool)

  /** The Log call that this step finishes, if any. Only fail_closed reports an
      error: for a call that finds the latch set, and for one that gives up. */
  function Returned(cfg: Config, s: State, step: Step): seq<Return>
    requires Enabled(cfg, s, step)
  {
    match step
    case Call(e) => if cfg.mode.FailClosed? && s.dbFailed then [Return(e, false)] else []
    case Send(i) => [Return(s.waiting[i], true)]
    case GiveUp(i) => [Return(s.waiting[i], !cfg.mode.FailClosed?)]
    case _ => []
  }

  // ---- conservation -------------------------------------------------------

  function Flat(fs: seq<Flush>): seq<Payload>
  {
    if fs == [] then [] else Flat(fs[..|fs| - 1]) + fs[|fs| - 1].events
  }

  /** The events of committed batches, in the order of their commits. */
  function Committed(fs: seq<Flush>): seq<Payload>
  {
    if fs == [] then []
    else Committed(fs[..|fs| - 1]) + (if fs[|fs| - 1].committed then fs[|fs| - 1].events else [])
  }

  lemma FlushRecorded(fs: seq<Flush>, f: Flush)
    ensures Flat(fs + [f]) == Flat(fs) + f.events
    ensures Committed(fs + [f]) == if f.committed then Committed(fs) + f.events else Committed(fs)
  {
  }

  /** Where every call since the start is now, and in what order events moved. */
  predicate Balanced(s: State)
  {
    && s.log.calls == |s.waiting| + |Committed(s.log.flushes)| + s.dropped + |s.queue| + |s.batch| + s.log.refused
    && s.log.enqueued == Flat(s.log.flushes) + (s.batch + s.queue)
  }

  predicate Accounted(s: State)
  {
    && Balanced(s)
    && (s.closed ==> s.waiting == [])
    && (s.done ==> s.closed && s.queue == [] && s.batch == [])
  }

  /** The books balance over one flushed batch, committed or lost. */
  lemma BatchBooked(fs: seq<Flush>, enqueued: seq<Payload>, batch: seq<Payload>, queue: seq<Payload>, ok: bool)
    requires enqueued == Flat(fs) + (batch + queue)
    ensures enqueued == Flat(fs + [Flush(batch, ok)]) + ([] + queue)
    ensures |Committed(fs + [Flush(batch, ok)])| == |Committed(fs)| + (if ok then |batch| else 0)
  {
    FlushRecorded(fs, Flush(batch, ok));
  }

  lemma FlushBalanced(ops: DiskOps, s: State, dbOk: bool)
    requires Balanced(s)
    ensures Balanced(Flushed(ops, s, dbOk))
  {
    BatchBooked(s.log.flushes, s.log.enqueued, s.batch, s.queue, true);
    BatchBooked(s.log.flushes, s.log.enqueued, s.batch, s.queue, false);
  }

  lemma FlushOnlyEmptiesBatch(ops: DiskOps, s: State, dbOk: bool)
    ensures var t := Flushed(ops, s, dbOk);
      t.batch == [] && t.waiting == s.waiting && t.queue == s.queue && t.closed == s.closed && t.done == s.done
  {
  }

  lemma TakenBalanced(s: State)
    requires Balanced(s) && s.queue != []
    ensures Balanced(Taken(s))
  {
  }

  lemma CallerAccounted(ops: DiskOps, cfg: Config, s: State, step: Step)
    requires Accounted(s) && Enabled(cfg, s, step)
    requires step.Call? || step.Send? || step.GiveUp? || step.CloseLog?
    ensures Accounted(Next(ops, cfg, s, step))
  {
  }

  lemma ReceiveAccounted(ops: DiskOps, cfg: Config, s: State, dbOk: bool)
    requires Accounted(s) && Enabled(cfg, s, Receive(dbOk))
    ensures Accounted(Next(ops, cfg, s, Receive(dbOk)))
  {
    if s.queue != [] {
      TakenBalanced(s);
      FlushBalanced(ops, Taken(s), dbOk);
      FlushOnlyEmptiesBatch(ops, Taken(s), dbOk);
    } else {
      FlushBalanced(ops, s, dbOk);
      FlushOnlyEmptiesBatch(ops, s, dbOk);
    }
  }

  lemma StepAccounted(ops: DiskOps, cfg: Config, s: State, step: Step)
    requires Accounted(s) && Enabled(cfg, s, step)
    ensures Accounted(Next(ops, cfg, s, step))
  {
    match step
    case Receive(dbOk) => ReceiveAccounted(ops, cfg, s, dbOk);
    case BatchTick(dbOk) => FlushBalanced(ops, s, dbOk);
    case RetentionTick(dbOk, _) => FlushBalanced(ops, s, dbOk);
    case Restart(_) =>
    case _ => CallerAccounted(ops, cfg, s, step);
  }

  /** Conservation over every run and every write mode: each Log call since the
      start is committed, counted as dropped, queued, batched, still blocked, or
      refused by the latch; events reach the batches in the order in which they
      were enqueued; and once the writer has finished nothing is left over. */
  lemma {:induction false} RunAccounted(ops: DiskOps, cfg: Config, s: State, steps: seq<Step>)
    requires Accounted(s) && Runnable(ops, cfg, s, steps)
    ensures Accounted(Run(ops, cfg, s, steps))
    decreases |steps|
  {
    if steps != [] {
      StepAccounted(ops, cfg, s, steps[0]);
      RunAccounted(ops, cfg, Next(ops, cfg, s, steps[0]), steps[1..]);
    }
  }

  /** a is obtained from b by leaving elements out: at[i] is where a[i] came from. */
  predicate Picks(a: seq<Payload>, b: seq<Payload>, at: seq<nat>)
  {
    && |at| == |a|
    && (forall i :: 0 <= i < |a| ==> at[i] < |b| && a[i] == b[at[i]])
    && (forall i, j :: 0 <= i < j < |a| ==> at[i] < at[j])
  }

  function Range(from: nat, n: nat): seq<nat>
  {
    seq(n, i requires 0 <= i < n => from + i)
  }

  lemma PicksMore(a: seq<Payload>, b: seq<Payload>, at: seq<nat>, more: seq<Payload>)
    requires Picks(a, b, at)
    ensures Picks(a, b + more, at)
    ensures Picks(a + more, b + more, at + Range(|b|, |more|))
  {
  }

  /** Commits happen in enqueue order: what is committed is a subsequence of
      what was flushed. */
  lemma {:induction false} CommitsKeepOrder(fs: seq<Flush>) returns (at: seq<nat>)
    ensures Picks(Committed(fs), Flat(fs), at)
    decreases |fs|
  {
    at := [];
    if fs != [] {
      var front, f := fs[..|fs| - 1], fs[|fs| - 1];
      at := CommitsKeepOrder(front);
      PicksMore(Committed(front), Flat(front), at, f.events);
      if f.committed {
        at := at + Range(|Flat(front)|, |f.events|);
      } else {
        assert Committed(fs) == Committed(front);
      }
    }
  }

  /** Over every run, what is committed is a subsequence of what was enqueued. */
  lemma CommittedInEnqueueOrder(s: State) returns (at: seq<nat>)
    requires Accounted(s)
    ensures Picks(Committed(s.log.flushes), s.log.enqueued, at)
  {
    at := CommitsKeepOrder(s.log.flushes);
    PicksMore(Committed(s.log.flushes), Flat(s.log.flushes), at, s.batch + s.queue);
  }

  // ---- the fail_closed latch ----------------------------------------------

  function InFlight(s: State): multiset<Payload>
  {
    multiset(s.waiting) + multiset(s.queue) + multiset(s.batch)
  }

  predicate NoRestart(steps: seq<Step>)
  {
    forall i :: 0 <= i < |steps| ==> !steps[i].Restart?
  }

  lemma TakenOut(s: seq<Payload>, i: nat)
    requires i < |s|
    ensures multiset(s) == multiset(Without(s, i)) + multiset{s[i]}
  {
    assert s == s[..i] + [s[i]] + s[i + 1..];
  }

  /** From s to t the latch held: nothing was committed and nothing got in. */
  predicate Held(s: State, t: State)
  {
    InFlight(t) <= InFlight(s) && Committed(t.log.flushes) == Committed(s.log.flushes)
  }

  /** The last flush of t committed events that were in flight in s. */
  predicate Cleared(s: State, f: Flush)
  {
    f.committed && f.events != [] && multiset(f.events) <= InFlight(s)
  }

  function LastFlush(s: State): Flush
  {
    if s.log.flushes == [] then Flush([], false) else s.log.flushes[|s.log.flushes| - 1]
  }

  lemma LatchedFlush(ops: DiskOps, s: State, dbOk: bool)
    requires s.dbFailed
    ensures HeldOrCleared(s, Flushed(ops, s, dbOk))
  {
  }

  lemma TakenInFlight(s: State)
    requires s.queue != []
    ensures InFlight(Taken(s)) == InFlight(s)
  {
    assert s.queue == [s.queue[0]] + s.queue[1..];
  }

  /** What a step taken while the latch is set may lead to: the latch stays and
      nothing is committed or let in, or a nonempty batch of events that were in
      flight has been committed. */
  predicate HeldOrCleared(s: State, t: State)
  {
    if t.dbFailed then Held(s, t) else Cleared(s, LastFlush(t))
  }

  lemma LatchedCaller(ops: DiskOps, cfg: Config, s: State, step: Step)
    requires cfg.mode.FailClosed? && s.dbFailed && Enabled(cfg, s, step)
    requires step.Call? || step.Send? || step.GiveUp? || step.CloseLog?
    ensures HeldOrCleared(s, Next(ops, cfg, s, step))
  {
    match step
    case Send(i) => TakenOut(s.waiting, i);
    case GiveUp(i) => TakenOut(s.waiting, i);
    case _ =>
  }

  lemma LatchedReceive(ops: DiskOps, cfg: Config, s: State, dbOk: bool)
    requires s.dbFailed && Enabled(cfg, s, Receive(dbOk))
    ensures HeldOrCleared(s, Next(ops, cfg, s, Receive(dbOk)))
  {
    if s.queue == [] {
      LatchedFlush(ops, s, dbOk);
    } else {
      TakenInFlight(s);
      if |s.batch| + 1 >= cfg.batchMax {
        LatchedFlush(ops, Taken(s), dbOk);
      }
    }
  }

  lemma LatchedTick(ops: DiskOps, cfg: Config, s: State, step: Step)
    requires s.dbFailed && Enabled(cfg, s, step) && (step.BatchTick? || step.RetentionTick?)
    ensures HeldOrCleared(s, Next(ops, cfg, s, step))
  {
  }

  /** One step taken while the latch is set. */
  lemma LatchedStep(ops: DiskOps, cfg: Config, s: State, step: Step)
    requires cfg.mode.FailClosed? && s.dbFailed && Enabled(cfg, s, step) && !step.Restart?
    ensures HeldOrCleared(s, Next(ops, cfg, s, step))
  {
    match step
    case Receive(dbOk) => LatchedReceive(ops, cfg, s, dbOk);
    case BatchTick(_) => LatchedTick(ops, cfg, s, step);
    case RetentionTick(_, _) => LatchedTick(ops, cfg, s, step);
    case _ => LatchedCaller(ops, cfg, s, step);
  }

  /** The latch over whole runs: as long as it is set no event is committed and
      nothing new gets in flight; what clears it is the commit of a nonempty
      batch whose events were all in flight when it was set. */
  lemma {:induction false} LatchedRun(ops: DiskOps, cfg: Config, s: State, steps: seq<Step>)
    requires cfg.mode.FailClosed? && s.dbFailed && NoRestart(steps) && Runnable(ops, cfg, s, steps)
    ensures match FirstCleared(ops, cfg, s, steps)
      case None => Run(ops, cfg, s, steps).dbFailed && Held(s, Run(ops, cfg, s, steps))
      case Some(f) => Cleared(s, f)
    decreases |steps|
  {
    if steps != [] {
      var t := Next(ops, cfg, s, steps[0]);
      assert !steps[0].Restart?;
      LatchedStep(ops, cfg, s, steps[0]);
      if t.dbFailed {
        LatchedRun(ops, cfg, t, steps[1..]);
      }
    }
  }

  /** The flush that ends the first step after which the latch is not set. */
  function FirstCleared(ops: DiskOps, cfg: Config, s: State, steps: seq<Step>): Option<Flush>
    requires Runnable(ops, cfg, s, steps)
    decreases |steps|
  {
    if steps == [] then None
    else
      var t := Next(ops, cfg, s, steps[0]);
      if t.dbFailed then FirstCleared(ops, cfg, t, steps[1..]) else Some(LastFlush(t))
  }

  /** With nothing in flight the latch is permanent: no continuation without a
      restart commits an event or clears the flag. */
  lemma LatchIsPermanent(ops: DiskOps, cfg: Config, s: State, steps: seq<Step>)
    requires cfg.mode.FailClosed? && s.dbFailed && NoRestart(steps) && Runnable(ops, cfg, s, steps)
    requires s.waiting == [] && s.queue == [] && s.batch == []
    ensures var t := Run(ops, cfg, s, steps);
      t.dbFailed && Committed(t.log.flushes) == Committed(s.log.flushes) && InFlight(t) == multiset{}
  {
    LatchedRun(ops, cfg, s, steps);
    assert forall f :: !Cleared(s, f) by {
      forall f ensures !Cleared(s, f) { NothingToClear(s, f); }
    }
  }

  lemma NothingToClear(s: State, f: Flush)
    requires InFlight(s) == multiset{}
    ensures !Cleared(s, f)
  {
    if f.events != [] {
      assert f.events[0] in multiset(f.events);
    }
  }

  // ---- how much is in flight, and when events are dropped -----------------

  predicate BatchFits(cfg: Config, s: State)
  {
    |s.batch| < cfg.batchMax || s.batch == []
  }

  predicate FlushesFit(cfg: Config, fs: seq<Flush>)
  {
    forall i :: 0 <= i < |fs| ==> |fs[i].events| <= cfg.batchMax
  }

  lemma StepFits(ops: DiskOps, cfg: Config, s: State, step: Step)
    requires cfg.batchMax > 0 && Enabled(cfg, s, step)
    requires BatchFits(cfg, s) && |s.queue| <= cfg.chanSize && FlushesFit(cfg, s.log.flushes)
    ensures var t := Next(ops, cfg, s, step);
      BatchFits(cfg, t) && |t.queue| <= cfg.chanSize && FlushesFit(cfg, t.log.flushes)
  {
  }

  /** Over every run: a batch is written as soon as it is full, so none that is written
      holds more than its maximum, and what is batched holds less; and the channel
      never holds more than its size. */
  lemma {:induction false} RunFits(ops: DiskOps, cfg: Config, s: State, steps: seq<Step>)
    requires cfg.batchMax > 0 && Runnable(ops, cfg, s, steps)
    requires BatchFits(cfg, s) && |s.queue| <= cfg.chanSize && FlushesFit(cfg, s.log.flushes)
    ensures var t := Run(ops, cfg, s, steps);
      BatchFits(cfg, t) && |t.queue| <= cfg.chanSize && FlushesFit(cfg, t.log.flushes)
    decreases |steps|
  {
    if steps != [] {
      StepFits(ops, cfg, s, steps[0]);
      RunFits(ops, cfg, Next(ops, cfg, s, steps[0]), steps[1..]);
    }
  }

  predicate GivesUp(steps: seq<Step>)
  {
    exists i :: 0 <= i < |steps| && steps[i].GiveUp?
  }

  /** Drop mode drops nothing for want of room that is there: as long as no more calls
      were made than the channel holds, no call gives up. */
  lemma {:induction false} RoomMeansNoDrop(ops: DiskOps, cfg: Config, s: State, steps: seq<Step>)
    requires cfg.mode.DropWhenFull? && Accounted(s) && NoRestart(steps) && Runnable(ops, cfg, s, steps)
    requires Run(ops, cfg, s, steps).log.calls <= cfg.chanSize
    ensures !GivesUp(steps)
    decreases |steps|
  {
    if steps != [] {
      var t := Next(ops, cfg, s, steps[0]);
      StepAccounted(ops, cfg, s, steps[0]);
      CallsGrow(ops, cfg, t, steps[1..]);
      RoomMeansNoDrop(ops, cfg, t, steps[1..]);
      assert !steps[0].GiveUp?;
      forall i | 0 <= i < |steps| ensures !steps[i].GiveUp? {
        assert i > 0 ==> steps[1..][i - 1] == steps[i];
      }
    }
  }

  lemma {:induction false} CallsGrow(ops: DiskOps, cfg: Config, s: State, steps: seq<Step>)
    requires NoRestart(steps) && Runnable(ops, cfg, s, steps)
    ensures s.log.calls <= Run(ops, cfg, s, steps).log.calls
    decreases |steps|
  {
    if steps != [] {
      CallsGrow(ops, cfg, Next(ops, cfg, s, steps[0]), steps[1..]);
    }
  }
}
