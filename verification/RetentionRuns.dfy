/** What the writer's retention leaves of the log: which rows, in which order, and
    when the chain is hashed afresh. */
module RetentionRuns {
  import opened ChainRuns
  import opened HashChain
  import opened LogIntegrity
  import opened Options
  import opened ScanOrder
  import opened SqliteStore
  import opened WriterModel

  /** How many rows are older than this. */
  function OlderThan(table: Table, cutoff: int): nat
  {
    |set id | id in table && table[id].data.ts < cutoff|
  }

  predicate SameEvents(was: Table, table: Table)
  {
    forall id :: id in table ==> id in was && table[id].data == was[id].data
  }

  predicate SameRowsIn(was: Table, table: Table)
  {
    forall id :: id in table ==> id in was && table[id] == was[id]
  }

  /** Nothing older than the cutoff is left. */
  predicate NoneOlder(table: Table, cutoff: int)
  {
    forall id :: id in table ==> table[id].data.ts >= cutoff
  }

  /** Exactly the rows from the cutoff on are left. */
  predicate KeepsFrom(was: Table, table: Table, cutoff: int)
  {
    forall id :: id in was ==> (id in table <==> was[id].data.ts >= cutoff)
  }

  /** How many rows the two deletions take. */
  function Gone(ages: bool, trims: bool, cutoff: int, chunks: nat, was: Table): nat
  {
    (if ages then OlderThan(was, cutoff) else 0) + (if trims then 100 * chunks else 0)
  }

  /** What becomes of the rows: with an age limit and a working database those older
      than it go, and no others unless the database is over its size; then the
      oldest of the rest go, a hundred at a time. */
  ghost predicate RowsRetained(r: Retention, was: Table, u: Upkeep, table: Table)
  {
    var ages, trims := r.maxAge > 0 && u.deleteOk, r.maxSizeBytes > 0 && u.dbSize > r.maxSizeBytes;
    var cutoff := Cutoff(r, u);
    && cutoff == u.now - r.maxAge
    && Keyed(table) && SameEvents(was, table)
    && (ages ==> NoneOlder(table, cutoff))
    && (ages && !trims ==> KeepsFrom(was, table, cutoff))
    && (!ages && !trims ==> table.Keys == was.Keys)
    && Data(ScanOf(table)) == Drop(Data(ScanOf(was)), Gone(ages, trims, cutoff, u.chunks, was))
  }

  /** What becomes of the chain: if chaining is on and a deletion is known to have
      taken place, every row is hashed afresh and the tip read anew, as far as the
      database allows; else no row and no tip changes. */
  ghost predicate ChainRetained(hash: Digest, chaining: bool, r: Retention, was: Disk, u: Upkeep, d: Disk)
  {
    var aged := r.maxAge > 0 && u.deleteOk && OlderThan(was.table, Cutoff(r, u)) > 0;
    var trimmed := r.maxSizeBytes > 0 && u.dbSize > r.maxSizeBytes && u.trimOk;
    if (aged || trimmed) && chaining && u.resealOk then
      Verified(hash, "", ScanOf(d.table)) && d.tip == if u.reloadOk then LastHashOf(d.table) else was.tip
    else SameRowsIn(was.table, d.table) && d.tip == was.tip
  }

  // ---- one retention run --------------------------------------------------

  lemma DroppedData(s: seq<StoredEvent>, n: nat)
    ensures Data(Drop(s, n)) == Drop(Data(s), n)
  {
  }

  /** The age cut removes as many rows as are older. */
  lemma AgedCount(table: Table, cutoff: int)
    requires Keyed(table)
    ensures OlderCount(ScanOf(table), cutoff) == OlderThan(table, cutoff)
  {
    var kept := From(table, cutoff);
    var older := set id | id in table && table[id].data.ts < cutoff;
    FromIsSuffix(table, cutoff);
    ScanLists(table);
    ScanLists(kept);
    assert table.Keys == kept.Keys + older && kept.Keys * older == {};
    assert |table| == |table.Keys| && |kept| == |kept.Keys|;
  }

  lemma {:induction false} RowsAre(chunk: nat, chunks: nat)
    ensures Rows(chunk, chunks) == chunk * chunks
    decreases chunks
  {
    if chunks > 0 {
      RowsAre(chunk, chunks - 1);
    }
  }

  /** After the age cut. */
  lemma AgedRows(table: Table, ages: bool, cutoff: int, aged: Table)
    requires Keyed(table) && aged == if ages then From(table, cutoff) else table
    ensures Keyed(aged) && SameRowsIn(table, aged)
    ensures ages ==> NoneOlder(aged, cutoff) && KeepsFrom(table, aged, cutoff)
    ensures ScanOf(aged) == Drop(ScanOf(table), if ages then OlderThan(table, cutoff) else 0)
  {
    AgedCount(table, cutoff);
    FromIsSuffix(table, cutoff);
    DropNone(ScanOf(table));
  }

  /** After the size cut: an end of the scan is left. */
  lemma TrimmedRows(aged: Table, trims: bool, chunks: nat, trimmed: Table)
    requires Keyed(aged) && trimmed == if trims then Trimmed(aged, CHUNK, chunks) else aged
    ensures Keyed(trimmed) && SameRowsIn(aged, trimmed)
    ensures ScanOf(trimmed) == Drop(ScanOf(aged), if trims then 100 * chunks else 0)
  {
    if trims {
      TrimmedScan(aged, CHUNK, chunks);
      RowsAre(CHUNK, chunks);
      EndIsWithin(aged, trimmed, 100 * chunks);
    } else {
      DropNone(ScanOf(aged));
    }
  }

  lemma EndIsWithin(rows: Table, r: Table, n: nat)
    requires Keyed(rows) && Keyed(r) && ScanOf(r) == Drop(ScanOf(rows), n)
    ensures SameRowsIn(rows, r)
  {
    ScanLists(rows);
    ScanLists(r);
    forall id | id in r ensures id in rows && r[id] == rows[id] {
      assert IsRow(r, r[id]) && r[id] in ScanOf(r);
      assert r[id] in ScanOf(rows) && IsRow(rows, r[id]);
    }
  }

  lemma CutScan(table: Table, aged: Table, trimmed: Table, m: nat, n: nat)
    requires ScanOf(aged) == Drop(ScanOf(table), m) && ScanOf(trimmed) == Drop(ScanOf(aged), n)
    ensures Data(ScanOf(trimmed)) == Drop(Data(ScanOf(table)), m + n)
  {
    DropTwice(ScanOf(table), m, n);
    DroppedData(ScanOf(table), m + n);
  }

  /** Both cuts, one after the other. */
  lemma BothCuts(table: Table, ages: bool, cutoff: int, trims: bool, chunks: nat, aged: Table, trimmed: Table)
    requires Keyed(table) && aged == if ages then From(table, cutoff) else table
    requires trimmed == if trims then Trimmed(aged, CHUNK, chunks) else aged
    ensures Keyed(trimmed) && SameRowsIn(table, trimmed) && (ages ==> NoneOlder(trimmed, cutoff))
    ensures !trims ==> if ages then KeepsFrom(table, trimmed, cutoff) else trimmed == table
    ensures Data(ScanOf(trimmed)) == Drop(Data(ScanOf(table)), Gone(ages, trims, cutoff, chunks, table))
  {
    AgedRows(table, ages, cutoff, aged);
    TrimmedRows(aged, trims, chunks, trimmed);
    CutScan(table, aged, trimmed, if ages then OlderThan(table, cutoff) else 0, if trims then 100 * chunks else 0);
  }

  lemma PrunedRows(r: Retention, table: Table, u: Upkeep)
    requires Keyed(table)
    ensures RowsRetained(r, table, u, Pruned(r, table, u).0) && SameRowsIn(table, Pruned(r, table, u).0)
  {
    var ages, trims := r.maxAge > 0 && u.deleteOk, r.maxSizeBytes > 0 && u.dbSize > r.maxSizeBytes;
    var aged := if ages then From(table, Cutoff(r, u)) else table;
    BothCuts(table, ages, Cutoff(r, u), trims, u.chunks, aged, Pruned(r, table, u).0);
  }

  lemma ResealedRows(hash: Digest, r: Retention, was: Table, u: Upkeep, pruned: Table)
    requires Keyed(was) && RowsRetained(r, was, u, pruned)
    ensures RowsRetained(r, was, u, Resealed(hash, pruned)) && Verified(hash, "", ScanOf(Resealed(hash, pruned)))
  {
    ResealedScan(hash, pruned);
  }

  /** What one retention run does, for every outcome of its parts. */
  lemma RetentionMeans(hash: Digest, chaining: bool, r: Retention, d: Disk, u: Upkeep)
    requires Keyed(d.table)
    ensures RowsRetained(r, d.table, u, Retained(hash, chaining, r, d, u).table)
    ensures ChainRetained(hash, chaining, r, d, u, Retained(hash, chaining, r, d, u))
  {
    var (pruned, deleted) := Pruned(r, d.table, u);
    PrunedRows(r, d.table, u);
    AgedCount(d.table, Cutoff(r, u));
    if deleted && chaining && u.resealOk {
      ResealedRows(hash, r, d.table, u, pruned);
    }
  }

  // ---- in every run -------------------------------------------------------

  lemma StampedIds(hash: Digest, chaining: bool, d: Disk, batch: seq<Payload>, dbOk: bool)
    requires Keyed(d.table) && Commit(hash, chaining, d, batch, dbOk).Some?
    ensures Keyed(Commit(hash, chaining, d, batch, dbOk).value.table)
  {
    InsertedRows(d.table, Stamped(hash, chaining, d.tip, batch));
  }

  lemma FlushKeyed(hash: Digest, chaining: bool, r: Retention, s: State, dbOk: bool)
    requires Keyed(s.disk.table)
    ensures Keyed(Flushed(Sqlite(hash, chaining, r), s, dbOk).disk.table)
  {
    if s.batch != [] && Commit(hash, chaining, s.disk, s.batch, dbOk).Some? {
      StampedIds(hash, chaining, s.disk, s.batch, dbOk);
    }
  }

  lemma StepKeyed(hash: Digest, chaining: bool, r: Retention, cfg: Config, s: State, step: Step)
    requires Keyed(s.disk.table) && Enabled(cfg, s, step)
    ensures Keyed(Next(Sqlite(hash, chaining, r), cfg, s, step).disk.table)
  {
    match step
    case Receive(dbOk) => FlushKeyed(hash, chaining, r, if s.queue == [] then s else Taken(s), dbOk);
    case BatchTick(dbOk) => FlushKeyed(hash, chaining, r, s, dbOk);
    case RetentionTick(dbOk, u) =>
      FlushKeyed(hash, chaining, r, s, dbOk);
      RetentionMeans(hash, chaining, r, Flushed(Sqlite(hash, chaining, r), s, dbOk).disk, u);
    case _ =>
  }

  lemma {:induction false} RunKeyed(
    hash: Digest, chaining: bool, r: Retention, cfg: Config, s: State, steps: seq<Step>)
    requires Keyed(s.disk.table) && Runnable(Sqlite(hash, chaining, r), cfg, s, steps)
    ensures Keyed(Run(Sqlite(hash, chaining, r), cfg, s, steps).disk.table)
    decreases |steps|
  {
    if steps != [] {
      StepKeyed(hash, chaining, r, cfg, s, steps[0]);
      RunKeyed(hash, chaining, r, cfg, Next(Sqlite(hash, chaining, r), cfg, s, steps[0]), steps[1..]);
    }
  }

  /** Every retention tick of every run, after whatever flushes, failures, restarts
      and retention runs: the batch is flushed first, and then rows and chain are
      what one retention run makes of them. */
  lemma TickRetains(
    hash: Digest, chaining: bool, r: Retention, cfg: Config, steps: seq<Step>, dbOk: bool, u: Upkeep)
    requires Runnable(Sqlite(hash, chaining, r), cfg, Start(EMPTY), steps)
    requires Enabled(cfg, Run(Sqlite(hash, chaining, r), cfg, Start(EMPTY), steps), RetentionTick(dbOk, u))
    ensures var ops := Sqlite(hash, chaining, r);
      var s := Run(ops, cfg, Start(EMPTY), steps);
      var flushed, d := Flushed(ops, s, dbOk).disk, Next(ops, cfg, s, RetentionTick(dbOk, u)).disk;
      RowsRetained(r, flushed.table, u, d.table) && ChainRetained(hash, chaining, r, flushed, u, d)
  {
    var ops := Sqlite(hash, chaining, r);
    var s := Run(ops, cfg, Start(EMPTY), steps);
    RunKeyed(hash, chaining, r, cfg, Start(EMPTY), steps);
    FlushKeyed(hash, chaining, r, s, dbOk);
    RetentionMeans(hash, chaining, r, Flushed(ops, s, dbOk).disk, u);
  }

  // ---- with chaining off --------------------------------------------------

  predicate Unchained(hash: Digest, table: Table)
  {
    forall id :: id in table ==> table[id].prevHash == "" && table[id].eventHash == hash("", table[id].data)
  }

  lemma FlushUnchained(hash: Digest, r: Retention, s: State, dbOk: bool)
    requires Keyed(s.disk.table) && Unchained(hash, s.disk.table)
    ensures Unchained(hash, Flushed(Sqlite(hash, false, r), s, dbOk).disk.table)
  {
    if s.batch != [] && Commit(hash, false, s.disk, s.batch, dbOk).Some? {
      var rows := Stamped(hash, false, s.disk.tip, s.batch);
      var table := Inserted(s.disk.table, rows);
      InsertedRows(s.disk.table, rows);
      forall id | id in table ensures table[id].prevHash == "" && table[id].eventHash == hash("", table[id].data) {
        assert IsRow(table, table[id]);
        assert IsRow(s.disk.table, table[id]) || table[id] in rows;
      }
    }
  }

  lemma StepUnchained(hash: Digest, r: Retention, cfg: Config, s: State, step: Step)
    requires Keyed(s.disk.table) && Unchained(hash, s.disk.table) && Enabled(cfg, s, step)
    ensures Unchained(hash, Next(Sqlite(hash, false, r), cfg, s, step).disk.table)
  {
    match step
    case Receive(dbOk) => FlushUnchained(hash, r, if s.queue == [] then s else Taken(s), dbOk);
    case BatchTick(dbOk) => FlushUnchained(hash, r, s, dbOk);
    case RetentionTick(dbOk, u) =>
      FlushKeyed(hash, false, r, s, dbOk);
      FlushUnchained(hash, r, s, dbOk);
      RetentionMeans(hash, false, r, Flushed(Sqlite(hash, false, r), s, dbOk).disk, u);
    case _ =>
  }

  lemma {:induction false} RunUnchained(hash: Digest, r: Retention, cfg: Config, s: State, steps: seq<Step>)
    requires Keyed(s.disk.table) && Unchained(hash, s.disk.table) && Runnable(Sqlite(hash, false, r), cfg, s, steps)
    ensures Unchained(hash, Run(Sqlite(hash, false, r), cfg, s, steps).disk.table)
    decreases |steps|
  {
    if steps != [] {
      StepKeyed(hash, false, r, cfg, s, steps[0]);
      StepUnchained(hash, r, cfg, s, steps[0]);
      RunUnchained(hash, r, cfg, Next(Sqlite(hash, false, r), cfg, s, steps[0]), steps[1..]);
    }
  }

  /** Every run with chaining off, with retention and restarts: no row is linked to
      another, and the log is accepted if and only if at most one row is visible. */
  lemma UnchainedRunDecides(hash: Digest, r: Retention, cfg: Config, steps: seq<Step>)
    requires NeverEmpty(hash) && Runnable(Sqlite(hash, false, r), cfg, Start(EMPTY), steps)
    ensures var table := Run(Sqlite(hash, false, r), cfg, Start(EMPTY), steps).disk.table;
      Unchained(hash, table) && (Accepts(hash, table) <==> |From(table, 0)| <= 1)
  {
    RunKeyed(hash, false, r, cfg, Start(EMPTY), steps);
    RunUnchained(hash, r, cfg, Start(EMPTY), steps);
    UnchainedAcceptance(hash, Run(Sqlite(hash, false, r), cfg, Start(EMPTY), steps).disk.table);
  }
}
