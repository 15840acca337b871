/** Whole runs of the audit writer over the SQLite table: when the stored log is
    one verified chain whose tip is the writer's tip. */
module ChainRuns {
  import opened HashChain
  import opened LogIntegrity
  import opened Options
  import opened ScanOrder
  import opened SqliteStore
  import opened WriterModel

  datatype Retention = Retention(maxAge: int, maxSizeBytes: int)

  // ---- what the writer does to the disk -----------------------------------

  /** The rows of a batch, chained from the tip, or hashed one by one. */
  function Stamped(hash: Digest, chaining: bool, tip: string, batch: seq<Payload>): (s: seq<StoredEvent>)
    ensures |s| == |batch|
  {
    if chaining then Chain(hash, tip, batch)
    else seq(|batch|, i requires 0 <= i < |batch| => StoredEvent(batch[i], "", hash("", batch[i])))
  }

  /** flushBatch on the disk: the tip moves only when the batch is committed. */
  function Commit(hash: Digest, chaining: bool, d: Disk, batch: seq<Payload>, dbOk: bool): Option<Disk>
  {
    var rows := Stamped(hash, chaining, d.tip, batch);
    if dbOk && Insertable(d.table, rows) then
      Some(Disk(Inserted(d.table, rows), if chaining then TipOf(d.tip, rows) else d.tip))
    else None
  }

  /** Events older than the age limit go. */
  function Cutoff(r: Retention, u: Upkeep): int
  {
    u.now - r.maxAge
  }

  /** The age and size deletions of runRetention, and its `deleted` flag. */
  function Pruned(r: Retention, table: Table, u: Upkeep): (Table, bool)
  {
    var ages := r.maxAge > 0 && u.deleteOk;
    var aged := if ages then From(table, Cutoff(r, u)) else table;
    var trims := r.maxSizeBytes > 0 && u.dbSize > r.maxSizeBytes;
    var trimmed := if trims then Trimmed(aged, CHUNK, u.chunks) else aged;
    (trimmed, (ages && OlderCount(ScanOf(table), Cutoff(r, u)) > 0) || (trims && u.trimOk))
  }

  /** runRetention: deletions, then reseal and tip reload if anything was deleted. */
  function Retained(hash: Digest, chaining: bool, r: Retention, d: Disk, u: Upkeep): Disk
  {
    var (table, deleted) := Pruned(r, d.table, u);
    if deleted && chaining && u.resealOk then
      var resealed := Resealed(hash, table);
      Disk(resealed, if u.reloadOk then LastHashOf(resealed) else d.tip)
    else
      Disk(table, d.tip)
  }

  /** NewSQLiteAuditLogger reads the tip from the store; a read error leaves "". */
  function Loaded(d: Disk, loadOk: bool): Disk
  {
    Disk(d.table, if loadOk then LastHashOf(d.table) else "")
  }

  function Sqlite(hash: Digest, chaining: bool, r: Retention): DiskOps
  {
    DiskOps((d, batch, dbOk) => Commit(hash, chaining, d, batch, dbOk),
            (d, u) => Retained(hash, chaining, r, d, u),
            (d, loadOk) => Loaded(d, loadOk))
  }

  /** The operations with hash_chain on. */
  function Chained(hash: Digest, r: Retention): DiskOps
  {
    Sqlite(hash, true, r)
  }

  const EMPTY := Disk(map[], "")

  // ---- runs without retention or restart ----------------------------------

  predicate Plain(steps: seq<Step>)
  {
    forall i :: 0 <= i < |steps| ==> !steps[i].RetentionTick? && !steps[i].Restart?
  }

  /** The table holds the chain of these events, and the tip is its tip. */
  ghost predicate HoldsChain(hash: Digest, d: Disk, es: seq<Payload>)
  {
    && DifferentIds(es)
    && d.table == Written(hash, es)
    && d.tip == TipOf("", Chain(hash, "", es))
  }

  ghost predicate OneChain(hash: Digest, s: State)
  {
    HoldsChain(hash, s.disk, Committed(s.log.flushes))
  }

  lemma CommitExtendsChain(hash: Digest, r: Retention, d: Disk, es: seq<Payload>, batch: seq<Payload>, dbOk: bool)
    requires HoldsChain(hash, d, es) && batch != []
    requires Chained(hash, r).commit(d, batch, dbOk).Some?
    ensures HoldsChain(hash, Chained(hash, r).commit(d, batch, dbOk).value, es + batch)
  {
    var c, rows := Chain(hash, "", es), Chain(hash, d.tip, batch);
    ChainConcat(hash, "", es, batch);
    InsertedConcat(map[], c, rows);
    InsertableDifferent(hash, es, d.tip, batch);
    assert (c + rows)[|c + rows| - 1] == rows[|rows| - 1];
  }

  lemma InsertableDifferent(hash: Digest, es: seq<Payload>, tip: string, batch: seq<Payload>)
    requires DifferentIds(es) && Insertable(Written(hash, es), Chain(hash, tip, batch))
    ensures DifferentIds(es + batch)
  {
    var c, rows, all := Chain(hash, "", es), Chain(hash, tip, batch), es + batch;
    WrittenRows(hash, es);
    ChainVerified(hash, tip, batch);
    assert forall i :: 0 <= i < |batch| ==> Data(rows)[i] == batch[i];
    forall i, j | 0 <= i < j < |all| ensures all[i].eventId != all[j].eventId {
      if i < |es| <= j {
        assert c[i] in c && IsRow(Written(hash, es), c[i]);
        assert rows[j - |es|].data.eventId !in Written(hash, es);
      } else if |es| <= i {
        assert rows[i - |es|].data.eventId != rows[j - |es|].data.eventId;
      }
    }
  }

  lemma FlushKeepsOneChain(hash: Digest, r: Retention, s: State, dbOk: bool)
    requires OneChain(hash, s)
    ensures OneChain(hash, Flushed(Chained(hash, r), s, dbOk))
  {
    if s.batch != [] {
      FlushRecorded(s.log.flushes, Flush(s.batch, true));
      FlushRecorded(s.log.flushes, Flush(s.batch, false));
      if Chained(hash, r).commit(s.disk, s.batch, dbOk).Some? {
        CommitExtendsChain(hash, r, s.disk, Committed(s.log.flushes), s.batch, dbOk);
      }
    }
  }

  lemma {:induction false} RunKeepsOneChain(hash: Digest, r: Retention, cfg: Config, s: State, steps: seq<Step>)
    requires OneChain(hash, s) && Plain(steps) && Runnable(Chained(hash, r), cfg, s, steps)
    ensures OneChain(hash, Run(Chained(hash, r), cfg, s, steps))
    decreases |steps|
  {
    if steps != [] {
      assert !steps[0].RetentionTick? && !steps[0].Restart?;
      match steps[0] {
        case Receive(dbOk) => FlushKeepsOneChain(hash, r, if s.queue == [] then s else Taken(s), dbOk);
        case BatchTick(dbOk) => FlushKeepsOneChain(hash, r, s, dbOk);
        case _ =>
      }
      RunKeepsOneChain(hash, r, cfg, Next(Chained(hash, r), cfg, s, steps[0]), steps[1..]);
    }
  }

  /** Any run from an empty log, with callers, failed batches and batch cuts in
      any pattern: VerifyChain accepts what is stored exactly when the committed
      events read back in the order in which they were committed. */
  lemma PlainRunDecides(hash: Digest, r: Retention, cfg: Config, steps: seq<Step>)
    requires Plain(steps) && Runnable(Chained(hash, r), cfg, Start(EMPTY), steps)
    requires NeverEmpty(hash)
    requires CollisionFree(hash,
               Chain(hash, "", Committed(Run(Chained(hash, r), cfg, Start(EMPTY), steps).log.flushes)))
    ensures var s := Run(Chained(hash, r), cfg, Start(EMPTY), steps);
      Accepts(hash, s.disk.table) <==> ReadsBack(Committed(s.log.flushes))
  {
    RunKeepsOneChain(hash, r, cfg, Start(EMPTY), steps);
    OrderDecides(hash, Committed(Run(Chained(hash, r), cfg, Start(EMPTY), steps).log.flushes));
  }

  predicate NoneFailed(fs: seq<Flush>)
  {
    forall i :: 0 <= i < |fs| ==> fs[i].committed
  }

  lemma {:induction false} NoneFailedCommitsAll(fs: seq<Flush>)
    requires NoneFailed(fs)
    ensures Committed(fs) == Flat(fs)
    decreases |fs|
  {
    if fs != [] {
      NoneFailedCommitsAll(fs[..|fs| - 1]);
    }
  }

  /** A finished run from an empty log that lost no batch stores the chain of
      exactly the enqueued events. */
  lemma FinishedRun(hash: Digest, r: Retention, cfg: Config, steps: seq<Step>)
    requires Plain(steps) && Runnable(Chained(hash, r), cfg, Start(EMPTY), steps)
    requires var s := Run(Chained(hash, r), cfg, Start(EMPTY), steps); s.done && NoneFailed(s.log.flushes)
    ensures var s := Run(Chained(hash, r), cfg, Start(EMPTY), steps); HoldsChain(hash, s.disk, s.log.enqueued)
  {
    var s := Run(Chained(hash, r), cfg, Start(EMPTY), steps);
    RunKeepsOneChain(hash, r, cfg, Start(EMPTY), steps);
    RunAccounted(Chained(hash, r), cfg, Start(EMPTY), steps);
    NoneFailedCommitsAll(s.log.flushes);
    assert s.log.enqueued == Flat(s.log.flushes);
  }

  /** How a stream is cut into batches leaves no trace: two runs from an empty
      log that enqueue the same events, lose none and finish, whatever their
      batch sizes, ticks and interleavings, store the same table. */
  lemma BatchingLeavesNoTrace(hash: Digest, r: Retention, cfg1: Config, steps1: seq<Step>,
                              cfg2: Config, steps2: seq<Step>)
    requires Plain(steps1) && Runnable(Chained(hash, r), cfg1, Start(EMPTY), steps1)
    requires Plain(steps2) && Runnable(Chained(hash, r), cfg2, Start(EMPTY), steps2)
    requires var s1 := Run(Chained(hash, r), cfg1, Start(EMPTY), steps1); s1.done && NoneFailed(s1.log.flushes)
    requires var s2 := Run(Chained(hash, r), cfg2, Start(EMPTY), steps2); s2.done && NoneFailed(s2.log.flushes)
    requires Run(Chained(hash, r), cfg1, Start(EMPTY), steps1).log.enqueued ==
             Run(Chained(hash, r), cfg2, Start(EMPTY), steps2).log.enqueued
    ensures Run(Chained(hash, r), cfg1, Start(EMPTY), steps1).disk ==
            Run(Chained(hash, r), cfg2, Start(EMPTY), steps2).disk
  {
    FinishedRun(hash, r, cfg1, steps1);
    FinishedRun(hash, r, cfg2, steps2);
  }

  // ---- runs with retention and restarts -----------------------------------

  /** In scan order, and nothing before timestamp 0. */
  predicate Timely(es: seq<Payload>)
  {
    InOrder(es) && forall i :: 0 <= i < |es| ==> es[i].ts >= 0
  }

  /** The whole scan is one verified chain, and the tip is the stored tip. */
  ghost predicate Sound(hash: Digest, d: Disk)
  {
    Keyed(d.table) && Verified(hash, "", ScanOf(d.table)) && d.tip == LastHashOf(d.table)
  }

  /** The log is sound, and it is timely together with what is pending. */
  ghost predicate Fit(hash: Digest, d: Disk, pending: seq<Payload>)
  {
    Sound(hash, d) && Timely(Data(ScanOf(d.table)) + pending)
  }

  /** The writer holds the stored tip, and the stored, batched and queued events
      follow each other in scan order. */
  ghost predicate Healthy(hash: Digest, s: State)
  {
    Fit(hash, s.disk, s.batch + s.queue)
  }

  /** A fit log is accepted. */
  lemma FitAccepted(hash: Digest, d: Disk, pending: seq<Payload>)
    requires Fit(hash, d, pending)
    ensures Accepts(hash, d.table)
  {
    var all := Data(ScanOf(d.table)) + pending;
    forall id | id in d.table ensures d.table[id].data.ts >= 0 {
      var i := RowPosition(d.table, id);
      assert all[i] == Data(ScanOf(d.table))[i];
    }
    NothingHidden(hash, d.table);
  }

  lemma TimelyPart(es: seq<Payload>, n: nat)
    requires Timely(es) && n <= |es|
    ensures Timely(es[n..]) && Timely(es[..n])
  {
  }

  /** Losing the middle keeps the rest timely. */
  lemma TimelyWithout(a: seq<Payload>, b: seq<Payload>, c: seq<Payload>)
    requires Timely(a + (b + c))
    ensures Timely(a + c) && Timely(a + b)
  {
    var all, t := a + (b + c), a + c;
    assert forall i :: 0 <= i < |t| ==> t[i] == all[if i < |a| then i else i + |b|];
    assert forall i :: 0 <= i < |a + b| ==> (a + b)[i] == all[i];
  }

  lemma OrderedRows(s: seq<StoredEvent>)
    requires InOrder(Data(s))
    ensures Sorted(s)
  {
    assert forall i :: 0 <= i < |s| ==> Data(s)[i] == s[i].data;
  }

  lemma CommitKeepsSound(hash: Digest, d: Disk, batch: seq<Payload>)
    requires Sound(hash, d) && Timely(Data(ScanOf(d.table)) + batch) && batch != []
    requires Insertable(d.table, Chain(hash, d.tip, batch))
    ensures var rows := Chain(hash, d.tip, batch);
      && Sound(hash, Disk(Inserted(d.table, rows), TipOf(d.tip, rows)))
      && Data(ScanOf(Inserted(d.table, rows))) == Data(ScanOf(d.table)) + batch
  {
    var scan, rows := ScanOf(d.table), Chain(hash, d.tip, batch);
    ChainVerified(hash, d.tip, batch);
    assert Data(scan + rows) == Data(scan) + batch;
    OrderedRows(scan + rows);
    InsertedAfter(d.table, rows);
    VerifiedConcat(hash, "", scan, rows);
    assert (scan + rows)[|scan + rows| - 1] == rows[|rows| - 1];
  }

  lemma CommitKeepsFit(hash: Digest, r: Retention, d: Disk, batch: seq<Payload>, queue: seq<Payload>, dbOk: bool)
    requires Fit(hash, d, batch + queue) && batch != []
    requires Chained(hash, r).commit(d, batch, dbOk).Some?
    ensures Fit(hash, Chained(hash, r).commit(d, batch, dbOk).value, queue)
  {
    var es := Data(ScanOf(d.table));
    TimelyWithout(es, batch, queue);
    CommitKeepsSound(hash, d, batch);
    assert es + (batch + queue) == es + batch + queue;
  }

  lemma FlushKeepsHealthy(hash: Digest, r: Retention, s: State, dbOk: bool)
    requires Healthy(hash, s)
    ensures Healthy(hash, Flushed(Chained(hash, r), s, dbOk))
  {
    if s.batch != [] {
      assert [] + s.queue == s.queue;
      if Chained(hash, r).commit(s.disk, s.batch, dbOk).Some? {
        CommitKeepsFit(hash, r, s.disk, s.batch, s.queue, dbOk);
      } else {
        TimelyWithout(Data(ScanOf(s.disk.table)), s.batch, s.queue);
      }
    }
  }

  /** A retention run either removed nothing, or noticed that it removed rows and
      completed both the reseal and the reload of the tip. */
  predicate Completes(r: Retention, table: Table, u: Upkeep)
  {
    var (pruned, deleted) := Pruned(r, table, u);
    pruned == table || (deleted && u.resealOk && u.reloadOk)
  }

  /** What retention leaves is a suffix of the scan, whatever fails. */
  lemma PrunedScan(r: Retention, table: Table, u: Upkeep) returns (n: nat)
    requires Keyed(table)
    ensures Keyed(Pruned(r, table, u).0)
    ensures n <= |ScanOf(table)| && ScanOf(Pruned(r, table, u).0) == ScanOf(table)[n..]
  {
    var aged := if r.maxAge > 0 && u.deleteOk then From(table, Cutoff(r, u)) else table;
    var m := 0;
    if r.maxAge > 0 && u.deleteOk {
      FromIsSuffix(table, Cutoff(r, u));
      m := OlderCount(ScanOf(table), Cutoff(r, u));
    }
    assert ScanOf(aged) == ScanOf(table)[m..];
    if r.maxSizeBytes > 0 && u.dbSize > r.maxSizeBytes {
      TrimmedScan(aged, CHUNK, u.chunks);
      var k := Rows(CHUNK, u.chunks);
      n := if m + k <= |ScanOf(table)| then m + k else |ScanOf(table)|;
    } else {
      n := m;
    }
  }

  /** From a fit disk a retention run leads to a fit disk exactly when it
      completes. */
  lemma RetentionDecides(hash: Digest, r: Retention, d: Disk, pending: seq<Payload>, u: Upkeep)
    requires Fit(hash, d, pending) && NeverEmpty(hash)
    requires CollisionFree(hash, ScanOf(d.table) + ScanOf(Resealed(hash, Pruned(r, d.table, u).0)))
    ensures Fit(hash, Retained(hash, true, r, d, u), pending) <==> Completes(r, d.table, u)
  {
    if Completes(r, d.table, u) {
      CompleteKeepsFit(hash, r, d, pending, u);
    } else {
      IncompleteBreaks(hash, r, d, u);
    }
  }

  lemma CompleteKeepsFit(hash: Digest, r: Retention, d: Disk, pending: seq<Payload>, u: Upkeep)
    requires Fit(hash, d, pending) && Completes(r, d.table, u)
    ensures Fit(hash, Retained(hash, true, r, d, u), pending)
  {
    var pruned := Pruned(r, d.table, u).0;
    if pruned == d.table {
      ResealKeepsVerified(hash, d.table);
    } else {
      var n := PrunedScan(r, d.table, u);
      ResealedFit(hash, d.table, pending, pruned, n);
    }
  }

  lemma ResealedFit(hash: Digest, table: Table, pending: seq<Payload>, pruned: Table, n: nat)
    requires Timely(Data(ScanOf(table)) + pending) && Keyed(pruned)
    requires n <= |ScanOf(table)| && ScanOf(pruned) == ScanOf(table)[n..]
    ensures Fit(hash, Disk(Resealed(hash, pruned), LastHashOf(Resealed(hash, pruned))), pending)
  {
    ResealedScan(hash, pruned);
    TimelyTail(ScanOf(table), pending, n);
  }

  lemma TimelyTail(scan: seq<StoredEvent>, pending: seq<Payload>, n: nat)
    requires Timely(Data(scan) + pending) && n <= |scan|
    ensures Timely(Data(scan[n..]) + pending)
  {
    TimelyPart(Data(scan) + pending, n);
    assert (Data(scan) + pending)[n..] == Data(scan[n..]) + pending;
  }

  lemma IncompleteBreaks(hash: Digest, r: Retention, d: Disk, u: Upkeep)
    requires Sound(hash, d) && NeverEmpty(hash) && !Completes(r, d.table, u)
    requires CollisionFree(hash, ScanOf(d.table) + ScanOf(Resealed(hash, Pruned(r, d.table, u).0)))
    ensures !Sound(hash, Retained(hash, true, r, d, u))
  {
    var (pruned, deleted) := Pruned(r, d.table, u);
    var scan := ScanOf(d.table);
    var n := PrunedScan(r, d.table, u);
    if n == 0 {
      assert scan[0..] == scan;
      TableIsItsScan(pruned, d.table);
    }
    if deleted && u.resealOk {
      StaleTip(hash, scan, pruned, n);
    } else {
      Beheaded(hash, scan, n);
    }
  }

  /** After a reseal of fewer rows the old tip is not the new one. */
  lemma StaleTip(hash: Digest, scan: seq<StoredEvent>, pruned: Table, n: nat)
    requires NeverEmpty(hash) && Verified(hash, "", scan) && Keyed(pruned)
    requires 0 < n <= |scan| && ScanOf(pruned) == scan[n..]
    requires CollisionFree(hash, scan + ScanOf(Resealed(hash, pruned)))
    ensures TipOf("", scan) != LastHashOf(Resealed(hash, pruned))
  {
    var again := ScanOf(Resealed(hash, pruned));
    ResealedScan(hash, pruned);
    assert |again| == |Data(again)| == |scan| - n;
    if TipOf("", scan) == TipOf("", again) {
      TipFixesHistory(hash, scan, again);
    }
  }

  /** A chain that lost rows at its head no longer verifies, and if it lost all
      of them its old tip is not the tip of the empty log. */
  lemma Beheaded(hash: Digest, scan: seq<StoredEvent>, n: nat)
    requires NeverEmpty(hash) && Verified(hash, "", scan) && 0 < n <= |scan|
    ensures !(Verified(hash, "", scan[n..]) && TipOf("", scan) == TipOf("", scan[n..]))
  {
    OnlyFirstIsAnchored(hash, scan, |scan| - 1);
    if n < |scan| {
      OnlyFirstIsAnchored(hash, scan, n);
      assert !Linked(hash, "", scan[n..], 0);
    }
  }

  /** What soundness decides: whether the log can be continued. A batch that comes
      after everything stored, chained from the writer's tip, leads to an accepted
      log if and only if log and tip were sound. */
  lemma NextBatchDecides(hash: Digest, d: Disk, batch: seq<Payload>)
    requires Keyed(d.table) && batch != [] && Timely(Data(ScanOf(d.table)) + batch)
    requires Insertable(d.table, Chain(hash, d.tip, batch))
    ensures Accepts(hash, Inserted(d.table, Chain(hash, d.tip, batch))) <==> Sound(hash, d)
  {
    var scan, rows := ScanOf(d.table), Chain(hash, d.tip, batch);
    var table := Inserted(d.table, rows);
    ChainVerified(hash, d.tip, batch);
    assert Data(scan + rows) == Data(scan) + batch;
    OrderedRows(scan + rows);
    InsertedAfter(d.table, rows);
    VerifiedConcat(hash, "", scan, rows);
    TimelyTable(table);
    NothingHidden(hash, table);
    if Verified(hash, TipOf("", scan), rows) {
      assert Linked(hash, TipOf("", scan), rows, 0) && Linked(hash, d.tip, rows, 0);
    }
  }

  lemma TimelyTable(table: Table)
    requires Keyed(table) && Timely(Data(ScanOf(table)))
    ensures forall id :: id in table ==> table[id].data.ts >= 0
  {
    forall id | id in table ensures table[id].data.ts >= 0 {
      var i := RowPosition(table, id);
      assert Data(ScanOf(table))[i] == table[id].data;
    }
  }

  /** A step that keeps to the order: events are sent with nonnegative timestamps
      and after everything stored, batched or queued; retention completes; a
      restart can read the tip. */
  predicate Orderly(ops: DiskOps, r: Retention, cfg: Config, s: State, step: Step)
    requires Enabled(cfg, s, step)
  {
    match step
    case Send(i) => Timely(Data(ScanOf(s.disk.table)) + (s.batch + s.queue) + [s.waiting[i]])
    case RetentionTick(dbOk, u) => Completes(r, Flushed(ops, s, dbOk).disk.table, u)
    case Restart(loadOk) => loadOk
    case _ => true
  }

  predicate AllOrderly(ops: DiskOps, r: Retention, cfg: Config, s: State, steps: seq<Step>)
    requires Runnable(ops, cfg, s, steps)
    decreases |steps|
  {
    steps == [] ||
    (Orderly(ops, r, cfg, s, steps[0]) && AllOrderly(ops, r, cfg, Next(ops, cfg, s, steps[0]), steps[1..]))
  }

  lemma StepKeepsHealthy(hash: Digest, r: Retention, cfg: Config, s: State, step: Step)
    requires Healthy(hash, s) && Enabled(cfg, s, step) && Orderly(Chained(hash, r), r, cfg, s, step)
    ensures Healthy(hash, Next(Chained(hash, r), cfg, s, step))
  {
    var d := Data(ScanOf(s.disk.table));
    match step
    case Send(i) =>
      assert d + (s.batch + s.queue) + [s.waiting[i]] == d + (s.batch + (s.queue + [s.waiting[i]]));
    case Receive(dbOk) =>
      if s.queue == [] {
        FlushKeepsHealthy(hash, r, s, dbOk);
      } else {
        assert Taken(s).batch + Taken(s).queue == s.batch + s.queue;
        FlushKeepsHealthy(hash, r, Taken(s), dbOk);
      }
    case BatchTick(dbOk) => FlushKeepsHealthy(hash, r, s, dbOk);
    case RetentionTick(dbOk, u) =>
      var t := Flushed(Chained(hash, r), s, dbOk);
      FlushKeepsHealthy(hash, r, s, dbOk);
      CompleteKeepsFit(hash, r, t.disk, t.batch + t.queue, u);
    case Restart(_) => RestartKeepsFit(hash, s.disk, s.batch + s.queue);
    case _ =>
  }

  lemma RestartKeepsFit(hash: Digest, d: Disk, pending: seq<Payload>)
    requires Fit(hash, d, pending)
    ensures Fit(hash, Loaded(d, true), [] + [])
  {
    var es := Data(ScanOf(d.table));
    TimelyPart(es + pending, |es|);
    assert (es + pending)[..|es|] == es + ([] + []);
  }

  /** Every orderly run of flushes (committed or failed), retention runs and
      restarts keeps the log accepted and the writer's tip equal to the stored
      tip. By RetentionDecides and BlindRestartDecides, an incomplete retention
      run that deletes rows, or a restart of a nonempty log that cannot read the
      tip, ends this at once. */
  lemma {:induction false} OrderlyRunStaysHealthy(hash: Digest, r: Retention, cfg: Config, s: State, steps: seq<Step>)
    requires Healthy(hash, s)
    requires Runnable(Chained(hash, r), cfg, s, steps) && AllOrderly(Chained(hash, r), r, cfg, s, steps)
    ensures var t := Run(Chained(hash, r), cfg, s, steps);
      Healthy(hash, t) && Accepts(hash, t.disk.table) && t.disk.tip == LastHashOf(t.disk.table)
    decreases |steps|
  {
    if steps == [] {
      FitAccepted(hash, s.disk, s.batch + s.queue);
    } else {
      StepKeepsHealthy(hash, r, cfg, s, steps[0]);
      OrderlyRunStaysHealthy(hash, r, cfg, Next(Chained(hash, r), cfg, s, steps[0]), steps[1..]);
    }
  }

  /** A restart that cannot read the tip starts over from the empty hash, which
      is right only for an empty log. */
  lemma BlindRestartDecides(hash: Digest, d: Disk)
    requires Sound(hash, d) && NeverEmpty(hash)
    ensures Sound(hash, Loaded(d, false)) <==> d.table == map[]
  {
    ScanLists(d.table);
    if d.table != map[] {
      OnlyFirstIsAnchored(hash, ScanOf(d.table), |ScanOf(d.table)| - 1);
    }
  }
}
