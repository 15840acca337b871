/** Runs of the audit writer with failed batches, retention and restarts in any
    pattern: what the order of arrival says about the stored log, and when a
    reseal repairs it. */
module ArrivalRuns {
  import opened HashChain
  import opened LogIntegrity
  import opened Options
  import opened ScanOrder
  import opened SqliteStore
  import opened WriterModel
  import opened ChainRuns

  /** What has arrived at the table: the committed events in the order of their
      commits, where a reseal puts the stored events in scan order in their place;
      None once rows were hashed from a wrong tip, or deleted without a reseal.
      `tipped` says that the writer's tip is known to be the tip of these. */
  datatype Trace = Trace(arrived: Option<seq<Payload>>, tipped: bool)

  // ---- what a step does to the trace --------------------------------------

  function FlushTraced(ops: DiskOps, s: State, dbOk: bool, t: Trace): Trace
  {
    if s.batch == [] || ops.commit(s.disk, s.batch, dbOk).None? then t
    else t.(arrived := if t.tipped && t.arrived.Some? then Some(t.arrived.value + s.batch) else None)
  }

  function TickTraced(r: Retention, table: Table, u: Upkeep, t: Trace): Trace
  {
    var (pruned, deleted) := Pruned(r, table, u);
    if deleted && u.resealOk then Trace(Some(Data(ScanOf(pruned))), u.reloadOk)
    else if pruned == table then t
    else Trace(if pruned == map[] then Some([]) else None, false)
  }

  function RestartTraced(table: Table, loadOk: bool, t: Trace): Trace
  {
    if table == map[] then Trace(Some([]), true) else t.(tipped := loadOk)
  }

  function StepTraced(ops: DiskOps, r: Retention, cfg: Config, s: State, step: Step, t: Trace): Trace
    requires Enabled(cfg, s, step)
  {
    match step
    case Receive(dbOk) =>
      if s.queue == [] then FlushTraced(ops, s, dbOk, t)
      else if |s.batch| + 1 >= cfg.batchMax then FlushTraced(ops, Taken(s), dbOk, t)
      else t
    case BatchTick(dbOk) => FlushTraced(ops, s, dbOk, t)
    case RetentionTick(dbOk, u) =>
      TickTraced(r, Flushed(ops, s, dbOk).disk.table, u, FlushTraced(ops, s, dbOk, t))
    case Restart(loadOk) => RestartTraced(s.disk.table, loadOk, t)
    case _ => t
  }

  function Traced(ops: DiskOps, r: Retention, cfg: Config, s: State, t: Trace, steps: seq<Step>): Trace
    requires Runnable(ops, cfg, s, steps)
    decreases |steps|
  {
    if steps == [] then t
    else Traced(ops, r, cfg, Next(ops, cfg, s, steps[0]), StepTraced(ops, r, cfg, s, steps[0], t), steps[1..])
  }

  /** The trace that a run starts with: nothing has arrived at an empty log, and
      of any other nothing is known. */
  function Origin(d: Disk): Trace
  {
    if d == EMPTY then Trace(Some([]), true) else Trace(None, false)
  }

  // ---- what the trace says about the disk ---------------------------------

  /** The table is the chain of events that arrived in order. */
  ghost predicate Straight(hash: Digest, d: Disk, es: seq<Payload>, tipped: bool)
  {
    && DifferentIds(es) && InOrder(es)
    && d.table == Written(hash, es)
    && (tipped ==> d.tip == TipOf("", Chain(hash, "", es)))
  }

  /** The table holds the chain of the first n arrivals, and they came out of
      order. */
  ghost predicate CrookedAt(hash: Digest, table: Table, es: seq<Payload>, n: int)
  {
    && 0 <= n <= |es| && !InOrder(es[..n])
    && forall e :: e in Chain(hash, "", es[..n]) ==> IsRow(table, e)
  }

  ghost predicate Crooked(hash: Digest, table: Table, es: seq<Payload>)
  {
    exists n :: CrookedAt(hash, table, es, n)
  }

  ghost predicate Tracks(hash: Digest, d: Disk, t: Trace)
  {
    && Keyed(d.table)
    && (t.arrived.Some? ==>
        Straight(hash, d, t.arrived.value, t.tipped) || Crooked(hash, d.table, t.arrived.value))
  }

  // ---- every step keeps to its trace --------------------------------------

  lemma StraightOn(hash: Digest, r: Retention, d: Disk, es: seq<Payload>, batch: seq<Payload>, dbOk: bool)
    requires Straight(hash, d, es, true) && batch != []
    requires Chained(hash, r).commit(d, batch, dbOk).Some?
    ensures Tracks(hash, Chained(hash, r).commit(d, batch, dbOk).value, Trace(Some(es + batch), true))
  {
    var d', all := Chained(hash, r).commit(d, batch, dbOk).value, es + batch;
    CommitExtendsChain(hash, r, d, es, batch, dbOk);
    WrittenRows(hash, all);
    if !InOrder(all) {
      assert all[..|all|] == all;
      assert CrookedAt(hash, d'.table, all, |all|);
    }
  }

  lemma CrookedOn(hash: Digest, table: Table, es: seq<Payload>, batch: seq<Payload>, rows: seq<StoredEvent>)
    requires Keyed(table) && Crooked(hash, table, es) && Insertable(table, rows)
    ensures Crooked(hash, Inserted(table, rows), es + batch)
  {
    var n :| CrookedAt(hash, table, es, n);
    InsertedRows(table, rows);
    assert (es + batch)[..n] == es[..n];
    assert CrookedAt(hash, Inserted(table, rows), es + batch, n);
  }

  lemma FlushTracks(hash: Digest, r: Retention, s: State, dbOk: bool, t: Trace)
    requires Tracks(hash, s.disk, t)
    ensures Tracks(hash, Flushed(Chained(hash, r), s, dbOk).disk, FlushTraced(Chained(hash, r), s, dbOk, t))
  {
    if s.batch != [] && Chained(hash, r).commit(s.disk, s.batch, dbOk).Some? {
      var rows := Chain(hash, s.disk.tip, s.batch);
      InsertedRows(s.disk.table, rows);
      if t.tipped && t.arrived.Some? {
        if Straight(hash, s.disk, t.arrived.value, true) {
          StraightOn(hash, r, s.disk, t.arrived.value, s.batch, dbOk);
        } else {
          CrookedOn(hash, s.disk.table, t.arrived.value, s.batch, rows);
        }
      }
    }
  }

  lemma ScannedData(table: Table)
    requires Keyed(table)
    ensures DifferentIds(Data(ScanOf(table))) && InOrder(Data(ScanOf(table)))
  {
    var scan := ScanOf(table);
    forall i, j | 0 <= i < j < |scan|
      ensures Data(scan)[i].eventId != Data(scan)[j].eventId && Before(Data(scan)[i], Data(scan)[j])
    {
      ScanPair(table, i, j);
      ScanRow(table, i);
      ScanRow(table, j);
      BeforeTotal(scan[i].data, scan[j].data);
    }
  }

  /** A reseal straightens any table. */
  lemma {:induction false} ResealStraightens(hash: Digest, table: Table, tip: string)
    requires Keyed(table)
    ensures var resealed := Resealed(hash, table);
      && Keyed(resealed)
      && Straight(hash, Disk(resealed, LastHashOf(resealed)), Data(ScanOf(table)), true)
      && Straight(hash, Disk(resealed, tip), Data(ScanOf(table)), false)
  {
    ScannedData(table);
    ResealedScan(hash, table);
  }

  lemma NothingArrived(hash: Digest, tip: string)
    ensures Straight(hash, Disk(map[], tip), [], false) && Straight(hash, EMPTY, [], true)
  {
  }

  lemma TickTracks(hash: Digest, r: Retention, d: Disk, u: Upkeep, t: Trace)
    requires Tracks(hash, d, t)
    ensures Tracks(hash, Retained(hash, true, r, d, u), TickTraced(r, d.table, u, t))
  {
    var (pruned, deleted) := Pruned(r, d.table, u);
    var n := PrunedScan(r, d.table, u);
    if deleted && u.resealOk {
      ResealStraightens(hash, pruned, d.tip);
    } else if pruned == map[] {
      NothingArrived(hash, d.tip);
    }
  }

  /** Arrivals in order are read back in that order. */
  lemma StraightScan(hash: Digest, es: seq<Payload>)
    requires DifferentIds(es) && InOrder(es)
    ensures ScanOf(Written(hash, es)) == Chain(hash, "", es)
  {
    WrittenRows(hash, es);
    ScanIs(Written(hash, es), Chain(hash, "", es));
  }

  lemma RestartTracks(hash: Digest, d: Disk, loadOk: bool, t: Trace)
    requires Tracks(hash, d, t)
    ensures Tracks(hash, Loaded(d, loadOk), RestartTraced(d.table, loadOk, t))
  {
    if d.table == map[] {
      NothingArrived(hash, "");
    } else if t.arrived.Some? && Straight(hash, d, t.arrived.value, t.tipped) {
      StraightScan(hash, t.arrived.value);
    }
  }

  lemma StepTracks(hash: Digest, r: Retention, cfg: Config, s: State, step: Step, t: Trace)
    requires Tracks(hash, s.disk, t) && Enabled(cfg, s, step)
    ensures Tracks(hash, Next(Chained(hash, r), cfg, s, step).disk, StepTraced(Chained(hash, r), r, cfg, s, step, t))
  {
    match step
    case Receive(dbOk) => FlushTracks(hash, r, if s.queue == [] then s else Taken(s), dbOk, t);
    case BatchTick(dbOk) => FlushTracks(hash, r, s, dbOk, t);
    case RetentionTick(dbOk, u) =>
      FlushTracks(hash, r, s, dbOk, t);
      TickTracks(hash, r, Flushed(Chained(hash, r), s, dbOk).disk, u, FlushTraced(Chained(hash, r), s, dbOk, t));
    case Restart(loadOk) => RestartTracks(hash, s.disk, loadOk, t);
    case _ =>
  }

  lemma {:induction false} RunTracks(hash: Digest, r: Retention, cfg: Config, s: State, t: Trace, steps: seq<Step>)
    requires Tracks(hash, s.disk, t) && Runnable(Chained(hash, r), cfg, s, steps)
    ensures Tracks(hash, Run(Chained(hash, r), cfg, s, steps).disk, Traced(Chained(hash, r), r, cfg, s, t, steps))
    decreases |steps|
  {
    if steps != [] {
      var ops := Chained(hash, r);
      StepTracks(hash, r, cfg, s, steps[0], t);
      RunTracks(hash, r, cfg, Next(ops, cfg, s, steps[0]), StepTraced(ops, r, cfg, s, steps[0], t), steps[1..]);
    }
  }

  // ---- what the order of arrival decides ----------------------------------

  predicate Visible(es: seq<Payload>)
  {
    forall i :: 0 <= i < |es| ==> es[i].ts >= 0
  }

  lemma StraightAccepted(hash: Digest, d: Disk, es: seq<Payload>, tipped: bool)
    requires Straight(hash, d, es, tipped) && Visible(es)
    ensures Accepts(hash, d.table)
  {
    assert ReadBackAt(es, |es|);
    OrderSuffices(hash, es, |es|);
    ChainVerified(hash, "", es);
    assert Chain(hash, "", es)[..|es|] == Chain(hash, "", es);
  }

  /** A stored chain whose log is accepted was chained in scan order. */
  lemma AcceptedInOrder(hash: Digest, table: Table, es: seq<Payload>)
    requires Keyed(table) && Accepts(hash, table) && Visible(es)
    requires forall e :: e in Chain(hash, "", es) ==> IsRow(table, e)
    requires NeverEmpty(hash) && CollisionFree(hash, ScanOf(From(table, 0)))
    ensures InOrder(es)
  {
    var c, p := Chain(hash, "", es), ScanOf(From(table, 0));
    ChainVerified(hash, "", es);
    assert forall i :: 0 <= i < |es| ==> Data(c)[i] == c[i].data == es[i];
    ScanLists(From(table, 0));
    forall e | e in c ensures e in p {
      var i :| 0 <= i < |c| && c[i] == e;
      assert IsRow(table, e) && IsRow(From(table, 0), e);
    }
    VerifiedSelection(hash, p, c);
    forall i, j | 0 <= i < j < |es| ensures Before(es[i], es[j]) {
      assert Before(p[i].data, p[j].data) && c[i] == p[i] && c[j] == p[j];
    }
  }

  lemma FrontInOrder(es: seq<Payload>, n: nat)
    requires n <= |es|
    ensures InOrder(es) ==> InOrder(es[..n])
    ensures Visible(es) ==> Visible(es[..n])
  {
  }

  /** Arrivals that came out of order make the log unacceptable as long as they
      are stored as they came, whatever was stored before, between or after. */
  lemma CrookedRejected(hash: Digest, table: Table, es: seq<Payload>)
    requires Keyed(table) && Crooked(hash, table, es) && Visible(es)
    requires NeverEmpty(hash) && CollisionFree(hash, ScanOf(From(table, 0)))
    ensures !InOrder(es) && !Accepts(hash, table)
  {
    var n :| CrookedAt(hash, table, es, n);
    FrontInOrder(es, n);
    if Accepts(hash, table) {
      AcceptedInOrder(hash, table, es[..n]);
    }
  }

  /** For every run, from any log, with failed batches, retention runs and restarts
      of every outcome: where the trace is known at the end, VerifyChain accepts
      the table if and only if what has arrived since the last reseal arrived in
      scan order. A completed reseal makes the trace known whatever went before. */
  lemma TracedRunDecides(hash: Digest, r: Retention, cfg: Config, d: Disk, steps: seq<Step>)
    requires Keyed(d.table) && Runnable(Chained(hash, r), cfg, Start(d), steps)
    requires var t := Traced(Chained(hash, r), r, cfg, Start(d), Origin(d), steps);
      t.arrived.Some? && Visible(t.arrived.value)
    requires NeverEmpty(hash)
    requires CollisionFree(hash, ScanOf(From(Run(Chained(hash, r), cfg, Start(d), steps).disk.table, 0)))
    ensures Accepts(hash, Run(Chained(hash, r), cfg, Start(d), steps).disk.table) <==>
      InOrder(Traced(Chained(hash, r), r, cfg, Start(d), Origin(d), steps).arrived.value)
  {
    var s := Run(Chained(hash, r), cfg, Start(d), steps);
    var t := Traced(Chained(hash, r), r, cfg, Start(d), Origin(d), steps);
    NothingArrived(hash, "");
    RunTracks(hash, r, cfg, Start(d), Origin(d), steps);
    if Straight(hash, s.disk, t.arrived.value, t.tipped) {
      StraightAccepted(hash, s.disk, t.arrived.value, t.tipped);
    } else {
      CrookedRejected(hash, s.disk.table, t.arrived.value);
    }
  }

  // ---- runs in which nothing goes wrong but order -------------------------

  /** A retention run that is known to have deleted completes its reseal and reload,
      and otherwise leaves the table alone; a restart can read the tip. */
  predicate Settled(ops: DiskOps, r: Retention, cfg: Config, s: State, step: Step)
    requires Enabled(cfg, s, step)
  {
    match step
    case RetentionTick(dbOk, u) =>
      var table := Flushed(ops, s, dbOk).disk.table;
      var (pruned, deleted) := Pruned(r, table, u);
      if deleted then u.resealOk && u.reloadOk else pruned == table
    case Restart(loadOk) => loadOk
    case _ => true
  }

  predicate AllSettled(ops: DiskOps, r: Retention, cfg: Config, s: State, steps: seq<Step>)
    requires Runnable(ops, cfg, s, steps)
    decreases |steps|
  {
    steps == [] ||
    (Settled(ops, r, cfg, s, steps[0]) && AllSettled(ops, r, cfg, Next(ops, cfg, s, steps[0]), steps[1..]))
  }

  lemma {:induction false} SettledKnown(
    ops: DiskOps, r: Retention, cfg: Config, s: State, t: Trace, steps: seq<Step>)
    requires Runnable(ops, cfg, s, steps) && AllSettled(ops, r, cfg, s, steps)
    requires t.arrived.Some? && t.tipped
    ensures var t' := Traced(ops, r, cfg, s, t, steps); t'.arrived.Some? && t'.tipped
    decreases |steps|
  {
    if steps != [] {
      SettledKnown(ops, r, cfg, Next(ops, cfg, s, steps[0]), StepTraced(ops, r, cfg, s, steps[0], t), steps[1..]);
    }
  }

  /** The arrivals of a settled run from an empty log. */
  function Arrivals(ops: DiskOps, r: Retention, cfg: Config, steps: seq<Step>): seq<Payload>
    requires Runnable(ops, cfg, Start(EMPTY), steps) && AllSettled(ops, r, cfg, Start(EMPTY), steps)
  {
    SettledKnown(ops, r, cfg, Start(EMPTY), Origin(EMPTY), steps);
    Traced(ops, r, cfg, Start(EMPTY), Origin(EMPTY), steps).arrived.value
  }

  /** Every settled run from an empty log, with callers, failed batches, retention
      and restarts in any pattern: what is stored is accepted if and only if it
      arrived in scan order. */
  lemma RunOrderDecides(hash: Digest, r: Retention, cfg: Config, steps: seq<Step>)
    requires Runnable(Chained(hash, r), cfg, Start(EMPTY), steps)
    requires AllSettled(Chained(hash, r), r, cfg, Start(EMPTY), steps)
    requires Visible(Arrivals(Chained(hash, r), r, cfg, steps))
    requires NeverEmpty(hash)
    requires CollisionFree(hash, ScanOf(From(Run(Chained(hash, r), cfg, Start(EMPTY), steps).disk.table, 0)))
    ensures Accepts(hash, Run(Chained(hash, r), cfg, Start(EMPTY), steps).disk.table) <==>
      InOrder(Arrivals(Chained(hash, r), r, cfg, steps))
  {
    SettledKnown(Chained(hash, r), r, cfg, Start(EMPTY), Origin(EMPTY), steps);
    TracedRunDecides(hash, r, cfg, EMPTY, steps);
  }
}
