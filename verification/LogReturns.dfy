/** What a nil return of Log is worth: in which modes, and when, the event is in
    the table once the writer has finished. */
module LogReturns {
  import opened ChainRuns
  import opened HashChain
  import opened LogIntegrity
  import opened Options
  import opened ScanOrder
  import opened SqliteStore
  import opened WriterModel

  /** The Log calls that finish during these steps, in order. */
  function Returns(ops: DiskOps, cfg: Config, s: State, steps: seq<Step>): seq<Return>
    requires Runnable(ops, cfg, s, steps)
    decreases |steps|
  {
    if steps == [] then []
    else Returned(cfg, s, steps[0]) + Returns(ops, cfg, Next(ops, cfg, s, steps[0]), steps[1..])
  }

  predicate LastFlushFailed(fs: seq<Flush>)
  {
    fs != [] && !fs[|fs| - 1].committed
  }

  /** The latch over every run: it is set if and only if the last flush failed. */
  lemma {:induction false} LatchIsLastFlush(ops: DiskOps, cfg: Config, s: State, steps: seq<Step>)
    requires Runnable(ops, cfg, s, steps) && (s.dbFailed <==> LastFlushFailed(s.log.flushes))
    ensures var t := Run(ops, cfg, s, steps); t.dbFailed <==> LastFlushFailed(t.log.flushes)
    decreases |steps|
  {
    if steps != [] {
      LatchIsLastFlush(ops, cfg, Next(ops, cfg, s, steps[0]), steps[1..]);
    }
  }

  /** When Log refuses an event, in any run since the last start: exactly in
      fail_closed mode, if the last flush failed or if the call gives up. */
  lemma RefusedInRun(ops: DiskOps, cfg: Config, disk: Disk, steps: seq<Step>, step: Step, e: Payload)
    requires Runnable(ops, cfg, Start(disk), steps)
    requires Enabled(cfg, Run(ops, cfg, Start(disk), steps), step)
    ensures var s := Run(ops, cfg, Start(disk), steps);
      Return(e, false) in Returned(cfg, s, step) <==>
        && cfg.mode.FailClosed?
        && ((step == Call(e) && LastFlushFailed(s.log.flushes)) || (step.GiveUp? && s.waiting[step.caller] == e))
  {
    LatchIsLastFlush(ops, cfg, Start(disk), steps);
  }

  /** The events whose Log call returned nil. */
  function Accepted(rs: seq<Return>): seq<Payload>
  {
    if rs == [] then []
    else if rs[0].ok then [rs[0].event] + Accepted(rs[1..])
    else Accepted(rs[1..])
  }

  lemma {:induction false} AcceptedConcat(a: seq<Return>, b: seq<Return>)
    ensures Accepted(a + b) == Accepted(a) + Accepted(b)
    decreases |a|
  {
    if a == [] {
      assert a + b == b;
    } else {
      assert (a + b)[1..] == a[1..] + b;
      AcceptedConcat(a[1..], b);
    }
  }

  lemma {:induction false} AcceptedMeans(rs: seq<Return>, i: nat)
    requires i < |rs| && rs[i].ok
    ensures rs[i].event in Accepted(rs)
    decreases |rs|
  {
    if i > 0 {
      AcceptedMeans(rs[1..], i - 1);
    }
  }

  lemma StepThen(ops: DiskOps, cfg: Config, s: State, step: Step, rest: seq<Step>)
    requires Enabled(cfg, s, step) && Runnable(ops, cfg, Next(ops, cfg, s, step), rest)
    ensures Runnable(ops, cfg, s, [step] + rest)
    ensures Run(ops, cfg, s, [step] + rest) == Run(ops, cfg, Next(ops, cfg, s, step), rest)
    ensures Returns(ops, cfg, s, [step] + rest) ==
      Returned(cfg, s, step) + Returns(ops, cfg, Next(ops, cfg, s, step), rest)
  {
    assert ([step] + rest)[1..] == rest;
  }

  lemma {:induction false} RunsAppend(ops: DiskOps, cfg: Config, s: State, a: seq<Step>, b: seq<Step>)
    requires Runnable(ops, cfg, s, a) && Runnable(ops, cfg, Run(ops, cfg, s, a), b)
    ensures Runnable(ops, cfg, s, a + b) && Run(ops, cfg, s, a + b) == Run(ops, cfg, Run(ops, cfg, s, a), b)
    decreases |a|
  {
    if a == [] {
      assert a + b == b;
    } else {
      var t, rest := Next(ops, cfg, s, a[0]), a[1..];
      Unrolled(ops, cfg, s, a, t);
      RunsAppend(ops, cfg, t, rest, b);
      RunsFrom(ops, cfg, s, t, a[0], a + b, rest + b);
    }
  }

  lemma RunsFrom(ops: DiskOps, cfg: Config, s: State, t: State, step: Step, all: seq<Step>, rest: seq<Step>)
    requires Enabled(cfg, s, step) && t == Next(ops, cfg, s, step) && Runnable(ops, cfg, t, rest)
    requires all != [] && all[0] == step && all[1..] == rest
    ensures Runnable(ops, cfg, s, all) && Run(ops, cfg, s, all) == Run(ops, cfg, t, rest)
  {
  }

  lemma {:induction false} RunAppend(ops: DiskOps, cfg: Config, s: State, a: seq<Step>, b: seq<Step>)
    requires Runnable(ops, cfg, s, a) && Runnable(ops, cfg, Run(ops, cfg, s, a), b)
    ensures Runnable(ops, cfg, s, a + b) && Run(ops, cfg, s, a + b) == Run(ops, cfg, Run(ops, cfg, s, a), b)
    ensures Returns(ops, cfg, s, a + b) == Returns(ops, cfg, s, a) + Returns(ops, cfg, Run(ops, cfg, s, a), b)
    decreases |a|
  {
    RunsAppend(ops, cfg, s, a, b);
    if a == [] {
      assert a + b == b;
    } else {
      var t, rest, all := Next(ops, cfg, s, a[0]), a[1..], a + b;
      assert all[0] == a[0] && all[1..] == rest + b;
      Unrolled(ops, cfg, s, a, t);
      Unrolled(ops, cfg, s, all, t);
      RunAppend(ops, cfg, t, rest, b);
      ReturnsRegroup(Returned(cfg, s, a[0]), Returns(ops, cfg, t, rest), Returns(ops, cfg, Run(ops, cfg, t, rest), b));
    }
  }

  lemma Unrolled(ops: DiskOps, cfg: Config, s: State, a: seq<Step>, t: State)
    requires a != [] && Runnable(ops, cfg, s, a) && t == Next(ops, cfg, s, a[0])
    ensures Runnable(ops, cfg, t, a[1..]) && Run(ops, cfg, s, a) == Run(ops, cfg, t, a[1..])
    ensures Returns(ops, cfg, s, a) == Returned(cfg, s, a[0]) + Returns(ops, cfg, t, a[1..])
  {
  }

  lemma ReturnsRegroup(x: seq<Return>, y: seq<Return>, z: seq<Return>)
    ensures x + (y + z) == (x + y) + z
  {
  }

  lemma OneMoreStep(ops: DiskOps, cfg: Config, s: State, steps: seq<Step>, t: State, step: Step)
    requires Runnable(ops, cfg, s, steps) && Run(ops, cfg, s, steps) == t && Enabled(cfg, t, step)
    ensures Runnable(ops, cfg, s, steps + [step]) && Run(ops, cfg, s, steps + [step]) == Next(ops, cfg, t, step)
  {
    StepThen(ops, cfg, t, step, []);
    assert [step] + [] == [step];
    RunAppend(ops, cfg, s, steps, [step]);
  }

  // ---- accepted and enqueued ----------------------------------------------

  /** A mode in which Log waits for the channel or reports that it could not. */
  predicate Reports(mode: Mode)
  {
    mode.Block? || mode.FailClosed?
  }

  lemma StepAccepts(ops: DiskOps, cfg: Config, s: State, step: Step)
    requires Reports(cfg.mode) && Enabled(cfg, s, step) && !step.Restart?
    ensures Next(ops, cfg, s, step).log.enqueued == s.log.enqueued + Accepted(Returned(cfg, s, step))
  {
    if step.Send? {
      assert [Return(s.waiting[step.caller], true)][1..] == [];
    }
  }

  /** In block and fail_closed mode the accepted events are the enqueued events,
      one for one and in order. */
  lemma {:induction false} AcceptedIsEnqueued(ops: DiskOps, cfg: Config, s: State, steps: seq<Step>)
    requires Reports(cfg.mode) && NoRestart(steps) && Runnable(ops, cfg, s, steps)
    ensures Run(ops, cfg, s, steps).log.enqueued == s.log.enqueued + Accepted(Returns(ops, cfg, s, steps))
    decreases |steps|
  {
    if steps != [] {
      var t, rest := Next(ops, cfg, s, steps[0]), steps[1..];
      assert !steps[0].Restart?;
      StepAccepts(ops, cfg, s, steps[0]);
      AcceptedIsEnqueued(ops, cfg, t, rest);
      AcceptedThen(ops, cfg, s, t, steps);
      EventsRegroup(s.log.enqueued, Accepted(Returned(cfg, s, steps[0])), Accepted(Returns(ops, cfg, t, rest)));
    }
  }

  lemma AcceptedThen(ops: DiskOps, cfg: Config, s: State, t: State, steps: seq<Step>)
    requires steps != [] && Runnable(ops, cfg, s, steps) && t == Next(ops, cfg, s, steps[0])
    ensures Runnable(ops, cfg, t, steps[1..]) && Run(ops, cfg, s, steps) == Run(ops, cfg, t, steps[1..])
    ensures Accepted(Returns(ops, cfg, s, steps)) ==
      Accepted(Returned(cfg, s, steps[0])) + Accepted(Returns(ops, cfg, t, steps[1..]))
  {
    Unrolled(ops, cfg, s, steps, t);
    AcceptedConcat(Returned(cfg, s, steps[0]), Returns(ops, cfg, t, steps[1..]));
  }

  lemma EventsRegroup(x: seq<Payload>, y: seq<Payload>, z: seq<Payload>)
    ensures x + (y + z) == (x + y) + z
  {
  }

  /** The event that this step gives up without an error, if any. */
  function DiscardedBy(cfg: Config, s: State, step: Step): seq<Payload>
    requires Enabled(cfg, s, step)
  {
    if step.GiveUp? && !cfg.mode.FailClosed? then [s.waiting[step.caller]] else []
  }

  function Discarded(ops: DiskOps, cfg: Config, s: State, steps: seq<Step>): seq<Payload>
    requires Runnable(ops, cfg, s, steps)
    decreases |steps|
  {
    if steps == [] then []
    else DiscardedBy(cfg, s, steps[0]) + Discarded(ops, cfg, Next(ops, cfg, s, steps[0]), steps[1..])
  }

  lemma StepDiscards(ops: DiskOps, cfg: Config, s: State, step: Step)
    requires Enabled(cfg, s, step) && !step.Restart?
    ensures multiset(s.log.enqueued) + multiset(Accepted(Returned(cfg, s, step))) ==
      multiset(Next(ops, cfg, s, step).log.enqueued) + multiset(DiscardedBy(cfg, s, step))
  {
    if step.Send? || step.GiveUp? {
      assert Returned(cfg, s, step)[1..] == [];
    }
  }

  /** In every mode an accepted event was enqueued or discarded, never both. */
  lemma {:induction false} AcceptedOrDiscarded(ops: DiskOps, cfg: Config, s: State, steps: seq<Step>)
    requires NoRestart(steps) && Runnable(ops, cfg, s, steps)
    ensures multiset(s.log.enqueued) + multiset(Accepted(Returns(ops, cfg, s, steps))) ==
      multiset(Run(ops, cfg, s, steps).log.enqueued) + multiset(Discarded(ops, cfg, s, steps))
    decreases |steps|, 1
  {
    if steps != [] {
      assert !steps[0].Restart?;
      StepDiscards(ops, cfg, s, steps[0]);
      DiscardedThen(ops, cfg, s, Next(ops, cfg, s, steps[0]), steps);
    }
  }

  lemma {:induction false} DiscardedThen(ops: DiskOps, cfg: Config, s: State, t: State, steps: seq<Step>)
    requires NoRestart(steps) && Runnable(ops, cfg, s, steps) && steps != [] && t == Next(ops, cfg, s, steps[0])
    requires multiset(s.log.enqueued) + multiset(Accepted(Returned(cfg, s, steps[0]))) ==
      multiset(t.log.enqueued) + multiset(DiscardedBy(cfg, s, steps[0]))
    ensures multiset(s.log.enqueued) + multiset(Accepted(Returns(ops, cfg, s, steps))) ==
      multiset(Run(ops, cfg, s, steps).log.enqueued) + multiset(Discarded(ops, cfg, s, steps))
    decreases |steps|, 0
  {
    var one, rest := Returned(cfg, s, steps[0]), Returns(ops, cfg, t, steps[1..]);
    AcceptedOrDiscarded(ops, cfg, t, steps[1..]);
    AcceptedConcat(one, rest);
    BooksChain(s.log.enqueued, t.log.enqueued, Run(ops, cfg, s, steps).log.enqueued, Accepted(one), Accepted(rest),
      DiscardedBy(cfg, s, steps[0]), Discarded(ops, cfg, t, steps[1..]));
  }

  lemma BooksChain(a: seq<Payload>, b: seq<Payload>, c: seq<Payload>, x: seq<Payload>, x': seq<Payload>,
                   y: seq<Payload>, y': seq<Payload>)
    requires multiset(a) + multiset(x) == multiset(b) + multiset(y)
    requires multiset(b) + multiset(x') == multiset(c) + multiset(y')
    ensures multiset(a) + multiset(x + x') == multiset(c) + multiset(y + y')
  {
    calc {
      multiset(a) + multiset(x + x');
      (multiset(a) + multiset(x)) + multiset(x');
      (multiset(b) + multiset(x')) + multiset(y);
      multiset(c) + multiset(y + y');
    }
  }

  // ---- accepted and stored ------------------------------------------------

  predicate StoredIn(table: Table, e: Payload)
  {
    e.eventId in table && table[e.eventId].data == e
  }

  lemma WrittenStores(hash: Digest, es: seq<Payload>, e: Payload)
    requires DifferentIds(es)
    ensures StoredIn(Written(hash, es), e) <==> e in es
    ensures e.eventId in Written(hash, es) <==> exists i :: 0 <= i < |es| && es[i].eventId == e.eventId
  {
    var c, rows := Chain(hash, "", es), Written(hash, es);
    WrittenRows(hash, es);
    if e.eventId in rows {
      assert IsRow(rows, rows[e.eventId]) && rows[e.eventId] in c;
      var i :| 0 <= i < |c| && c[i] == rows[e.eventId];
      assert es[i].eventId == e.eventId;
    }
    if i :| 0 <= i < |es| && es[i].eventId == e.eventId {
      assert c[i] in c && IsRow(rows, c[i]);
    }
  }

  /** A run from an empty log in which the writer has finished. */
  ghost predicate Finished(hash: Digest, r: Retention, cfg: Config, steps: seq<Step>)
  {
    Plain(steps) && Runnable(Chained(hash, r), cfg, Start(EMPTY), steps) &&
    Run(Chained(hash, r), cfg, Start(EMPTY), steps).done
  }

  function Final(hash: Digest, r: Retention, cfg: Config, steps: seq<Step>): State
    requires Runnable(Chained(hash, r), cfg, Start(EMPTY), steps)
  {
    Run(Chained(hash, r), cfg, Start(EMPTY), steps)
  }

  /** The events whose Log call returned nil in a run from an empty log. */
  function AcceptedIn(hash: Digest, r: Retention, cfg: Config, steps: seq<Step>): seq<Payload>
    requires Runnable(Chained(hash, r), cfg, Start(EMPTY), steps)
  {
    Accepted(Returns(Chained(hash, r), cfg, Start(EMPTY), steps))
  }

  lemma PlainNoRestart(steps: seq<Step>)
    requires Plain(steps)
    ensures NoRestart(steps)
  {
  }

  /** Block and fail_closed: once the writer has finished and no batch was lost,
      the stored events are exactly those for which Log returned nil. */
  lemma AcceptedIsStored(hash: Digest, r: Retention, cfg: Config, steps: seq<Step>, e: Payload)
    requires Reports(cfg.mode) && Finished(hash, r, cfg, steps)
    requires NoneFailed(Final(hash, r, cfg, steps).log.flushes)
    ensures StoredIn(Final(hash, r, cfg, steps).disk.table, e) <==> e in AcceptedIn(hash, r, cfg, steps)
  {
    PlainNoRestart(steps);
    FinishedRun(hash, r, cfg, steps);
    AcceptedIsEnqueued(Chained(hash, r), cfg, Start(EMPTY), steps);
    WrittenStores(hash, Final(hash, r, cfg, steps).log.enqueued, e);
  }

  predicate NoEmptyFlush(fs: seq<Flush>)
  {
    forall i :: 0 <= i < |fs| ==> fs[i].events != []
  }

  lemma {:induction false} FlushesNonempty(ops: DiskOps, cfg: Config, s: State, steps: seq<Step>)
    requires Runnable(ops, cfg, s, steps) && NoEmptyFlush(s.log.flushes)
    ensures NoEmptyFlush(Run(ops, cfg, s, steps).log.flushes)
    decreases |steps|
  {
    if steps != [] {
      FlushesNonempty(ops, cfg, Next(ops, cfg, s, steps[0]), steps[1..]);
    }
  }

  lemma {:induction false} CommittedIsFlushed(fs: seq<Flush>, e: Payload)
    requires e in Committed(fs)
    ensures e in Flat(fs)
    decreases |fs|
  {
    if e in Committed(fs[..|fs| - 1]) {
      CommittedIsFlushed(fs[..|fs| - 1], e);
    }
  }

  lemma OnlyOnce(a: seq<Payload>, b: seq<Payload>, x: Payload, y: Payload)
    requires DifferentIds(a + b) && x in a && y in b
    ensures x.eventId != y.eventId
  {
    var i :| 0 <= i < |a| && a[i] == x;
    var j :| 0 <= j < |b| && b[j] == y;
    assert (a + b)[i] == x && (a + b)[|a| + j] == y;
  }

  lemma DifferentParts(a: seq<Payload>, b: seq<Payload>)
    requires DifferentIds(a + b)
    ensures DifferentIds(a) && DifferentIds(b)
  {
    assert forall i :: 0 <= i < |a| ==> (a + b)[i] == a[i];
    assert forall i :: 0 <= i < |b| ==> (a + b)[|a| + i] == b[i];
  }

  /** A failed batch leaves an event behind that no committed batch holds. */
  lemma {:induction false} LostEvent(fs: seq<Flush>) returns (e: Payload)
    requires NoEmptyFlush(fs) && !NoneFailed(fs) && DifferentIds(Flat(fs))
    ensures e in Flat(fs) && e !in Committed(fs)
    decreases |fs|
  {
    var front, last := fs[..|fs| - 1], fs[|fs| - 1];
    DifferentParts(Flat(front), last.events);
    if !last.committed {
      e := last.events[0];
      if e in Committed(front) {
        CommittedIsFlushed(front, e);
        OnlyOnce(Flat(front), last.events, e, e);
      }
    } else {
      e := LostEvent(front);
      if e in last.events {
        OnlyOnce(Flat(front), last.events, e, e);
      }
    }
  }

  /** So a nil return means a stored event exactly when no batch failed: with
      distinct event ids, all accepted events are stored if and only if every
      flush was committed. */
  lemma StoredUnlessFlushFailed(hash: Digest, r: Retention, cfg: Config, steps: seq<Step>)
    requires Reports(cfg.mode) && Finished(hash, r, cfg, steps)
    requires DifferentIds(AcceptedIn(hash, r, cfg, steps))
    ensures (forall e :: e in AcceptedIn(hash, r, cfg, steps) ==> StoredIn(Final(hash, r, cfg, steps).disk.table, e))
      <==> NoneFailed(Final(hash, r, cfg, steps).log.flushes)
  {
    var s := Final(hash, r, cfg, steps);
    if NoneFailed(s.log.flushes) {
      forall e | e in AcceptedIn(hash, r, cfg, steps) ensures StoredIn(s.disk.table, e) {
        AcceptedIsStored(hash, r, cfg, steps, e);
      }
    } else {
      PlainNoRestart(steps);
      RunKeepsOneChain(hash, r, cfg, Start(EMPTY), steps);
      RunAccounted(Chained(hash, r), cfg, Start(EMPTY), steps);
      AcceptedIsEnqueued(Chained(hash, r), cfg, Start(EMPTY), steps);
      FlushesNonempty(Chained(hash, r), cfg, Start(EMPTY), steps);
      assert s.log.enqueued == Flat(s.log.flushes);
      var e := LostEvent(s.log.flushes);
      WrittenStores(hash, Committed(s.log.flushes), e);
    }
  }

  // ---- runs that finish ---------------------------------------------------

  lemma CommitSucceeds(hash: Digest, r: Retention, d: Disk, es: seq<Payload>, batch: seq<Payload>)
    requires HoldsChain(hash, d, es) && DifferentIds(es + batch)
    ensures Chained(hash, r).commit(d, batch, true).Some?
  {
    var rows := Chain(hash, d.tip, batch);
    DifferentParts(es, batch);
    ChainVerified(hash, d.tip, batch);
    forall i | 0 <= i < |batch| ensures rows[i].data == batch[i] {
      assert Data(rows)[i] == batch[i];
    }
    forall i | 0 <= i < |rows| ensures rows[i].data.eventId !in d.table {
      WrittenStores(hash, es, batch[i]);
      if j :| 0 <= j < |es| && es[j].eventId == batch[i].eventId {
        OnlyOnce(es, batch, es[j], batch[i]);
      }
    }
  }

  /** Everything that is stored or on its way there. */
  function Total(s: State): seq<Payload>
  {
    Committed(s.log.flushes) + (s.batch + s.queue)
  }

  ghost predicate Draining(hash: Digest, s: State)
  {
    OneChain(hash, s) && NoneFailed(s.log.flushes) && DifferentIds(Total(s))
  }

  /** The parts of a state that a flush leaves alone. */
  predicate SameFlow(s: State, t: State)
  {
    && t.waiting == s.waiting && t.queue == s.queue && t.closed == s.closed && t.done == s.done
    && t.log.enqueued == s.log.enqueued
  }

  lemma FlushedFlow(ops: DiskOps, s: State, dbOk: bool)
    ensures SameFlow(s, Flushed(ops, s, dbOk)) && Flushed(ops, s, dbOk).batch == []
  {
  }

  lemma FlushCommits(hash: Digest, r: Retention, s: State)
    requires Draining(hash, s) && s.batch != []
    ensures Chained(hash, r).commit(s.disk, s.batch, true).Some?
    ensures var t := Flushed(Chained(hash, r), s, true);
      && t.log.flushes == s.log.flushes + [Flush(s.batch, true)]
      && Committed(t.log.flushes) == Committed(s.log.flushes) + s.batch
  {
    var c := Committed(s.log.flushes);
    assert c + (s.batch + s.queue) == c + s.batch + s.queue;
    DifferentParts(c + s.batch, s.queue);
    CommitSucceeds(hash, r, s.disk, c, s.batch);
    FlushRecorded(s.log.flushes, Flush(s.batch, true));
  }

  lemma FlushTotal(hash: Digest, r: Retention, s: State)
    requires Draining(hash, s)
    ensures Total(Flushed(Chained(hash, r), s, true)) == Total(s)
    ensures NoneFailed(Flushed(Chained(hash, r), s, true).log.flushes)
  {
    FlushedFlow(Chained(hash, r), s, true);
    if s.batch != [] {
      FlushCommits(hash, r, s);
      SameTotal(Committed(s.log.flushes), s.batch, s.queue);
    }
  }

  lemma FlushDrains(hash: Digest, r: Retention, s: State)
    requires Draining(hash, s)
    ensures Draining(hash, Flushed(Chained(hash, r), s, true))
  {
    FlushTotal(hash, r, s);
    FlushKeepsOneChain(hash, r, s, true);
  }

  lemma SameTotal(a: seq<Payload>, b: seq<Payload>, c: seq<Payload>)
    ensures a + (b + c) == (a + b) + ([] + c)
  {
  }

  lemma TakenDrains(hash: Digest, s: State)
    requires Draining(hash, s) && s.queue != []
    ensures Draining(hash, Taken(s)) && Total(Taken(s)) == Total(s)
  {
    assert s.queue == [s.queue[0]] + s.queue[1..];
    assert s.batch + [s.queue[0]] + s.queue[1..] == s.batch + s.queue;
  }

  lemma ReceiveDrains(hash: Digest, r: Retention, cfg: Config, s: State)
    requires Draining(hash, s) && !s.done && (s.queue != [] || s.closed)
    ensures Enabled(cfg, s, Receive(true))
    ensures var t := Next(Chained(hash, r), cfg, s, Receive(true));
      && Draining(hash, t) && t.log.enqueued == s.log.enqueued && t.closed == s.closed
      && t.waiting == s.waiting && Total(t) == Total(s)
      && if s.queue == [] then t.done else !t.done && t.queue == s.queue[1..]
  {
    if s.queue == [] {
      FlushDrains(hash, r, s);
      FlushTotal(hash, r, s);
      FlushedFlow(Chained(hash, r), s, true);
    } else {
      TakenDrains(hash, s);
      FlushDrains(hash, r, Taken(s));
      FlushTotal(hash, r, Taken(s));
      FlushedFlow(Chained(hash, r), Taken(s), true);
    }
  }

  /** A closed channel is drained: the writer finishes, losing nothing. */
  lemma {:induction false} Drains(hash: Digest, r: Retention, cfg: Config, s: State) returns (steps: seq<Step>)
    requires Draining(hash, s) && s.closed && !s.done
    ensures Plain(steps) && Runnable(Chained(hash, r), cfg, s, steps)
    ensures Returns(Chained(hash, r), cfg, s, steps) == []
    ensures var t := Run(Chained(hash, r), cfg, s, steps);
      t.done && NoneFailed(t.log.flushes) && t.log.enqueued == s.log.enqueued
    decreases |s.queue|
  {
    ReceiveDrains(hash, r, cfg, s);
    var t := Next(Chained(hash, r), cfg, s, Receive(true));
    if s.queue == [] {
      steps := [Receive(true)];
      assert steps[1..] == [];
    } else {
      var rest := Drains(hash, r, cfg, t);
      steps := [Receive(true)] + rest;
      assert steps[1..] == rest;
    }
  }

  /** Any run that loses nothing can be brought to an end without losing more. */
  lemma Completed(hash: Digest, r: Retention, cfg: Config, steps: seq<Step>) returns (all: seq<Step>)
    requires Plain(steps) && Runnable(Chained(hash, r), cfg, Start(EMPTY), steps)
    requires Draining(hash, Final(hash, r, cfg, steps))
    requires Final(hash, r, cfg, steps).closed && !Final(hash, r, cfg, steps).done
    ensures steps <= all && Finished(hash, r, cfg, all)
    ensures Returns(Chained(hash, r), cfg, Start(EMPTY), all) == Returns(Chained(hash, r), cfg, Start(EMPTY), steps)
    ensures var t := Final(hash, r, cfg, all);
      NoneFailed(t.log.flushes) && HoldsChain(hash, t.disk, Final(hash, r, cfg, steps).log.enqueued)
  {
    var s := Final(hash, r, cfg, steps);
    var rest := Drains(hash, r, cfg, s);
    all := steps + rest;
    RunAppend(Chained(hash, r), cfg, Start(EMPTY), steps, rest);
    FinishedRun(hash, r, cfg, all);
  }

  // ---- filling the channel ------------------------------------------------

  function Queued(es: seq<Payload>, closed: bool): State
  {
    Start(EMPTY).(queue := es, closed := closed, log := History(|es|, 0, es, []))
  }

  function Nils(es: seq<Payload>): seq<Return>
  {
    seq(|es|, i requires 0 <= i < |es| => Return(es[i], true))
  }

  lemma NilsMore(es: seq<Payload>, e: Payload)
    ensures Nils(es + [e]) == Nils(es) + [Return(e, true)]
  {
  }

  /** One run leads from s to t, with these returns. */
  ghost predicate Leads(ops: DiskOps, cfg: Config, s: State, steps: seq<Step>, t: State, rs: seq<Return>)
  {
    && Plain(steps) && Runnable(ops, cfg, s, steps)
    && Run(ops, cfg, s, steps) == t && Returns(ops, cfg, s, steps) == rs
  }

  lemma LeadsOn(ops: DiskOps, cfg: Config, s: State, a: seq<Step>, t: State, x: seq<Return>, b: seq<Step>, u: State,
                y: seq<Return>)
    requires Leads(ops, cfg, s, a, t, x) && Leads(ops, cfg, t, b, u, y)
    ensures Leads(ops, cfg, s, a + b, u, x + y)
  {
    RunAppend(ops, cfg, s, a, b);
  }

  lemma LeadsOne(ops: DiskOps, cfg: Config, s: State, step: Step)
    requires Enabled(cfg, s, step) && !step.RetentionTick? && !step.Restart?
    ensures Leads(ops, cfg, s, [step], Next(ops, cfg, s, step), Returned(cfg, s, step))
  {
    StepThen(ops, cfg, s, step, []);
    assert [step] + [] == [step];
  }

  lemma FeedOne(ops: DiskOps, cfg: Config, es: seq<Payload>, e: Payload) returns (steps: seq<Step>)
    requires |es| < cfg.chanSize
    ensures Leads(ops, cfg, Queued(es, false), steps, Queued(es + [e], false), [Return(e, true)])
  {
    var s := Next(ops, cfg, Queued(es, false), Call(e));
    assert s.waiting == [e] && Without(s.waiting, 0) == [];
    LeadsOne(ops, cfg, Queued(es, false), Call(e));
    LeadsOne(ops, cfg, s, Send(0));
    LeadsOn(ops, cfg, Queued(es, false), [Call(e)], s, [], [Send(0)], Queued(es + [e], false), [Return(e, true)]);
    steps := [Call(e)] + [Send(0)];
    assert [] + [Return(e, true)] == [Return(e, true)];
  }

  /** The channel takes as many events as it has room for, each with a nil return. */
  lemma {:induction false} FeedRun(ops: DiskOps, cfg: Config, es: seq<Payload>) returns (steps: seq<Step>)
    requires |es| <= cfg.chanSize
    ensures Leads(ops, cfg, Start(EMPTY), steps, Queued(es, false), Nils(es))
    decreases |es|
  {
    if es == [] {
      steps := [];
    } else {
      var n := |es| - 1;
      var front, last := es[..n], es[n];
      var a := FeedRun(ops, cfg, front);
      var b := FeedOne(ops, cfg, front, last);
      LeadsOn(ops, cfg, Start(EMPTY), a, Queued(front, false), Nils(front), b, Queued(front + [last], false),
        [Return(last, true)]);
      steps := a + b;
      NilsMore(front, last);
      assert front + [last] == es;
    }
  }

  /** After the channel took these events, one more call gave up. */
  function GaveUp(es: seq<Payload>): State
  {
    Queued(es, true).(dropped := 1, log := History(|es| + 1, 0, es, []))
  }

  lemma GiveUpRun(ops: DiskOps, cfg: Config, es: seq<Payload>, e: Payload) returns (steps: seq<Step>)
    requires cfg.mode.BestEffort? || (cfg.mode.DropWhenFull? && |es| >= cfg.chanSize)
    ensures Leads(ops, cfg, Queued(es, false), steps, GaveUp(es), [Return(e, true)])
  {
    var s := Next(ops, cfg, Queued(es, false), Call(e));
    assert s.waiting == [e] && Without(s.waiting, 0) == [];
    var t := Next(ops, cfg, s, GiveUp(0));
    LeadsOne(ops, cfg, Queued(es, false), Call(e));
    LeadsOne(ops, cfg, s, GiveUp(0));
    LeadsOne(ops, cfg, t, CloseLog);
    LeadsOn(ops, cfg, s, [GiveUp(0)], t, [Return(e, true)], [CloseLog], GaveUp(es), []);
    LeadsOn(ops, cfg, Queued(es, false), [Call(e)], s, [], [GiveUp(0)] + [CloseLog], GaveUp(es),
      [Return(e, true)] + []);
    steps := [Call(e)] + ([GiveUp(0)] + [CloseLog]);
    assert [] + ([Return(e, true)] + []) == [Return(e, true)];
  }

  lemma GaveUpDrains(hash: Digest, es: seq<Payload>)
    requires DifferentIds(es)
    ensures Draining(hash, GaveUp(es))
  {
    assert Total(GaveUp(es)) == es;
  }

  /** Best_effort and drop: Log returns nil for an event that is not stored, in a
      run that finishes and loses no batch. In best_effort mode this can happen at
      any fill of the channel, in drop mode when it is full. */
  lemma AcceptedNotStored(hash: Digest, r: Retention, cfg: Config, es: seq<Payload>, e: Payload)
    returns (steps: seq<Step>)
    requires cfg.mode.BestEffort? || (cfg.mode.DropWhenFull? && |es| == cfg.chanSize)
    requires |es| <= cfg.chanSize && DifferentIds(es + [e])
    ensures Finished(hash, r, cfg, steps) && NoneFailed(Final(hash, r, cfg, steps).log.flushes)
    ensures Returns(Chained(hash, r), cfg, Start(EMPTY), steps) == Nils(es + [e])
    ensures e in AcceptedIn(hash, r, cfg, steps) && e.eventId !in Final(hash, r, cfg, steps).disk.table
    ensures HoldsChain(hash, Final(hash, r, cfg, steps).disk, es)
  {
    var ops := Chained(hash, r);
    var a := FeedRun(ops, cfg, es);
    var b := GiveUpRun(ops, cfg, es, e);
    LeadsOn(ops, cfg, Start(EMPTY), a, Queued(es, false), Nils(es), b, GaveUp(es), [Return(e, true)]);
    DifferentParts(es, [e]);
    GaveUpDrains(hash, es);
    steps := Completed(hash, r, cfg, a + b);
    NilsMore(es, e);
    AcceptedMeans(Nils(es + [e]), |es|);
    WrittenStores(hash, es, e);
    if i :| 0 <= i < |es| && es[i].eventId == e.eventId {
      OnlyOnce(es, [e], es[i], e);
    }
  }

  /** The channel held one event; its write failed; the latch is set. */
  lemma FailedWrite(ops: DiskOps, cfg: Config, first: Payload) returns (steps: seq<Step>, t: State)
    requires forall d, batch :: ops.commit(d, batch, false).None?
    ensures Leads(ops, cfg, Queued([first], false), steps, t, [])
    ensures t.dbFailed && t.disk == EMPTY && t.log.enqueued == [first] && !t.closed
    ensures t.waiting == [] && t.queue == [] && t.batch == []
  {
    var s := Queued([first], false);
    var s1 := Next(ops, cfg, s, Receive(false));
    t := Next(ops, cfg, s1, BatchTick(false));
    LeadsOne(ops, cfg, s, Receive(false));
    LeadsOne(ops, cfg, s1, BatchTick(false));
    LeadsOn(ops, cfg, s, [Receive(false)], s1, [], [BatchTick(false)], t, []);
    steps := [Receive(false)] + [BatchTick(false)];
    var none: seq<Return> := [];
    assert none + none == [];
  }

  /** Fail_closed: after a failed write the next call is refused at once, and no
      row was stored. */
  lemma RefusedByLatch(hash: Digest, r: Retention, cfg: Config, first: Payload, e: Payload)
    returns (steps: seq<Step>, t: State)
    requires cfg.mode.FailClosed? && cfg.chanSize >= 1
    ensures Leads(Chained(hash, r), cfg, Start(EMPTY), steps, t, [Return(first, true), Return(e, false)])
    ensures t.disk.table == map[] && t.log.enqueued == [first] && t.dbFailed
    ensures t.waiting == [] && t.queue == [] && t.batch == []
  {
    var ops := Chained(hash, r);
    var a := FeedRun(ops, cfg, [first]);
    var b, u := FailedWrite(ops, cfg, first);
    t := Next(ops, cfg, u, Call(e));
    LeadsOne(ops, cfg, u, Call(e));
    LeadsOn(ops, cfg, Start(EMPTY), a, Queued([first], false), Nils([first]), b, u, []);
    LeadsOn(ops, cfg, Start(EMPTY), a + b, u, Nils([first]) + [], [Call(e)], t, [Return(e, false)]);
    steps := a + b + [Call(e)];
    assert Nils([first]) + [] + [Return(e, false)] == [Return(first, true), Return(e, false)];
  }

  // ---- late arrival -------------------------------------------------------

  function Blocked(events: seq<Payload>): State
  {
    Start(EMPTY).(waiting := events, log := History(|events|, 0, [], []))
  }

  lemma CallBlocks(ops: DiskOps, cfg: Config, events: seq<Payload>, e: Payload)
    ensures Leads(ops, cfg, Blocked(events), [Call(e)], Blocked(events + [e]), [])
  {
    LeadsOne(ops, cfg, Blocked(events), Call(e));
  }

  lemma TwoCalls(ops: DiskOps, cfg: Config, first: Payload, second: Payload)
    ensures Leads(ops, cfg, Start(EMPTY), [Call(first)] + [Call(second)], Blocked([first, second]), [])
  {
    CallBlocks(ops, cfg, [], first);
    CallBlocks(ops, cfg, [first], second);
    assert [] + [first] == [first] && [first] + [second] == [first, second];
    assert Blocked([]) == Start(EMPTY);
    LeadsOn(ops, cfg, Start(EMPTY), [Call(first)], Blocked([first]), [], [Call(second)], Blocked([first, second]), []);
    var none: seq<Return> := [];
    assert none + none == [];
  }

  /** The second of two blocked callers gets into the channel, the writer takes its
      event, and the first follows. */
  lemma SwappedSends(hash: Digest, r: Retention, cfg: Config, first: Payload, second: Payload)
    returns (v: State)
    requires cfg.chanSize >= 1 && DifferentIds([second, first])
    ensures Leads(Chained(hash, r), cfg, Blocked([first, second]), [Send(1)] + ([Receive(true)] + [Send(0)]), v,
      [Return(second, true)] + ([] + [Return(first, true)]))
    ensures Draining(hash, v) && v.log.enqueued == [second, first] && v.waiting == [] && !v.closed && !v.done
  {
    var ops, s := Chained(hash, r), Blocked([first, second]);
    var t := Blocked([first]).(queue := [second], log := History(2, 0, [second], []));
    assert Next(ops, cfg, s, Send(1)) == t;
    LeadsOne(ops, cfg, s, Send(1));
    assert Total(t) == [second];
    ReceiveDrains(hash, r, cfg, t);
    var u := Next(ops, cfg, t, Receive(true));
    LeadsOne(ops, cfg, t, Receive(true));
    v := FirstFollows(hash, r, cfg, u, first, second);
    LeadsOn(ops, cfg, t, [Receive(true)], u, [], [Send(0)], v, [Return(first, true)]);
    LeadsOn(ops, cfg, s, [Send(1)], t, [Return(second, true)], [Receive(true)] + [Send(0)], v,
      [] + [Return(first, true)]);
  }

  lemma FirstFollows(hash: Digest, r: Retention, cfg: Config, u: State, first: Payload, second: Payload)
    returns (v: State)
    requires cfg.chanSize >= 1 && DifferentIds([second, first])
    requires Draining(hash, u) && Total(u) == [second] && u.log.enqueued == [second]
    requires u.waiting == [first] && u.queue == [] && !u.closed && !u.done
    ensures Leads(Chained(hash, r), cfg, u, [Send(0)], v, [Return(first, true)])
    ensures Draining(hash, v) && v.log.enqueued == [second, first] && v.waiting == [] && !v.closed && !v.done
  {
    v := Sent(u, 0);
    LeadsOne(Chained(hash, r), cfg, u, Send(0));
    assert Without(u.waiting, 0) == [];
    SameTotal(Committed(u.log.flushes), u.batch, [first]);
    assert u.batch + [] == u.batch && v.batch + v.queue == u.batch + [first];
    assert Total(v) == [second] + [first] == [second, first];
  }

  lemma BothSent(hash: Digest, r: Retention, cfg: Config, first: Payload, second: Payload) returns (v: State)
    requires cfg.chanSize >= 1 && DifferentIds([second, first])
    ensures Leads(Chained(hash, r), cfg, Start(EMPTY),
      [Call(first)] + [Call(second)] + ([Send(1)] + ([Receive(true)] + [Send(0)])), v,
      [Return(second, true), Return(first, true)])
    ensures Draining(hash, v) && v.log.enqueued == [second, first] && v.waiting == [] && !v.closed && !v.done
  {
    var ops, s := Chained(hash, r), Blocked([first, second]);
    var rs := [Return(second, true)] + ([] + [Return(first, true)]);
    TwoCalls(ops, cfg, first, second);
    v := SwappedSends(hash, r, cfg, first, second);
    LeadsOn(ops, cfg, Start(EMPTY), [Call(first)] + [Call(second)], s, [],
      [Send(1)] + ([Receive(true)] + [Send(0)]), v, rs);
    assert [] + rs == [Return(second, true), Return(first, true)];
  }

  /** Two calls, the first stamped earlier; the second gets into the channel first. */
  lemma Overtaking(hash: Digest, r: Retention, cfg: Config, first: Payload, second: Payload)
    returns (steps: seq<Step>, w: State)
    requires cfg.chanSize >= 1 && DifferentIds([second, first])
    ensures Leads(Chained(hash, r), cfg, Start(EMPTY), steps, w, [Return(second, true), Return(first, true)])
    ensures steps == [Call(first), Call(second), Send(1), Receive(true), Send(0), CloseLog]
    ensures Draining(hash, w) && w.log.enqueued == [second, first] && w.closed && !w.done
  {
    var ops := Chained(hash, r);
    var calls := [Call(first)] + [Call(second)] + ([Send(1)] + ([Receive(true)] + [Send(0)]));
    var rs := [Return(second, true), Return(first, true)];
    var v := BothSent(hash, r, cfg, first, second);
    w := Next(ops, cfg, v, CloseLog);
    LeadsOne(ops, cfg, v, CloseLog);
    LeadsOn(ops, cfg, Start(EMPTY), calls, v, rs, [CloseLog], w, []);
    assert rs + [] == rs;
    steps := calls + [CloseLog];
  }

  /** Order of stamps is not order of arrival: for any two events and any channel
      and batch size there is a run that loses nothing, in which the earlier one is
      logged first but enters the channel second. VerifyChain rejects what is stored,
      unless the earlier event lies before timestamp 0. */
  lemma LateArrivalRun(hash: Digest, r: Retention, cfg: Config, first: Payload, second: Payload)
    returns (steps: seq<Step>)
    requires NeverEmpty(hash) && cfg.chanSize >= 1
    requires first.eventId != second.eventId && Before(first, second)
    requires CollisionFree(hash, Chain(hash, "", [second, first]))
    ensures [Call(first), Call(second), Send(1), Receive(true), Send(0), CloseLog] <= steps
    ensures Finished(hash, r, cfg, steps) && NoneFailed(Final(hash, r, cfg, steps).log.flushes)
    ensures Accepts(hash, Final(hash, r, cfg, steps).disk.table) <==> first.ts < 0
  {
    var start, w := Overtaking(hash, r, cfg, first, second);
    steps := Completed(hash, r, cfg, start);
    LateArrivalDecides(hash, first, second);
  }
}
