/** SQLiteAuditLogger of internal/audit/logger.go. Every method is one step of
    the machine in WriterModel, run on the table of SqliteStore. Log is split at
    its blocking point: EnterLog is the part up to the select, TrySend and GiveUp
    are the two ways in which the select ends. */
module AuditLogger {
  import opened ChainRuns
  import opened HashChain
  import opened LogReturns
  import opened Options
  import opened ScanOrder
  import opened SqliteStore
  import opened WriterModel

  /** What Log returns to the gateway. */
  datatype LogResult = Logged | ErrAuditFull

  /** The close of the channel, then receives. */
  predicate Closes(steps: seq<Step>)
  {
    steps != [] && steps[0] == CloseLog && forall i :: 0 < i < |steps| ==> steps[i].Receive?
  }

  class SQLiteAuditLogger {
    const hash: Digest
    const chaining: bool
    const retention: Retention
    const cfg: Config
    const store: Store

    var waiting: seq<Payload>
    var ch: seq<Payload>
    var batch: seq<Payload>
    var lastHash: string
    var dbFailed: bool
    var dropped: nat
    var closed: bool
    var done: bool
    ghost var log: History

    ghost predicate Valid()
      reads this, store
    {
      store.Valid()
    }

    ghost function Ops(): DiskOps
    {
      Sqlite(hash, chaining, retention)
    }

    ghost function Abs(): State
      reads this, store
    {
      State(Disk(store.rows, lastHash), waiting, ch, batch, dbFailed, dropped, closed, done, log)
    }

    constructor (hash: Digest, chaining: bool, retention: Retention, cfg: Config, store: Store, loadOk: bool)
      requires store.Valid()
      ensures Valid() && this.store == store && this.cfg == cfg
      ensures this.hash == hash && this.chaining == chaining && this.retention == retention
      ensures Abs() == Start(Loaded(Disk(store.rows, ""), loadOk))
    {
      this.hash, this.chaining, this.retention, this.cfg, this.store := hash, chaining, retention, cfg, store;
      waiting, ch, batch, lastHash := [], [], [], "";
      dbFailed, dropped, closed, done := false, 0, false, false;
      log := History(0, 0, [], []);
      new;
      if loadOk {
        lastHash := store.LastHash();
      }
    }

    /** Log up to its select: in fail_closed mode the latch refuses the call. */
    method EnterLog(e: Payload) returns (r: LogResult)
      requires Valid() && Enabled(cfg, Abs(), Call(e))
      modifies this
      ensures Valid() && Abs() == Next(Ops(), cfg, old(Abs()), Call(e))
      ensures r.ErrAuditFull? <==> Returned(cfg, old(Abs()), Call(e)) == [Return(e, false)]
      ensures r.ErrAuditFull? <==> cfg.mode.FailClosed? && old(dbFailed)
    {
      log := log.(calls := log.calls + 1);
      if cfg.mode.FailClosed? && dbFailed {
        log := log.(refused := log.refused + 1);
        return ErrAuditFull;
      }
      waiting := waiting + [e];
      return Logged;
    }

    /** The select takes `l.ch <- event`. */
    method TrySend(i: nat) returns (r: LogResult)
      requires Valid() && Enabled(cfg, Abs(), Send(i))
      modifies this
      ensures Valid() && Abs() == Next(Ops(), cfg, old(Abs()), Send(i)) && r == Logged
      ensures Returned(cfg, old(Abs()), Send(i)) == [Return(old(waiting)[i], true)]
    {
      var e := waiting[i];
      waiting := waiting[..i] + waiting[i + 1..];
      ch := ch + [e];
      log := log.(enqueued := log.enqueued + [e]);
      return Logged;
    }

    /** The select takes ctx.Done, the timer, or default: only fail_closed tells
        the caller. */
    method GiveUpSend(i: nat) returns (r: LogResult)
      requires Valid() && Enabled(cfg, Abs(), GiveUp(i))
      modifies this
      ensures Valid() && Abs() == Next(Ops(), cfg, old(Abs()), GiveUp(i))
      ensures Returned(cfg, old(Abs()), GiveUp(i)) == [Return(old(waiting)[i], r.Logged?)]
      ensures r.ErrAuditFull? <==> cfg.mode.FailClosed?
    {
      waiting := waiting[..i] + waiting[i + 1..];
      dropped := dropped + 1;
      return if cfg.mode.FailClosed? then ErrAuditFull else Logged;
    }

    /** The stamping loop of flushBatch, on a local copy of the tip. */
    method Stamp() returns (stored: seq<StoredEvent>, tip: string)
      ensures stored == Stamped(hash, chaining, lastHash, batch)
      ensures tip == if chaining then TipOf(lastHash, stored) else lastHash
    {
      stored, tip := [], lastHash;
      ghost var rows := Stamped(hash, chaining, lastHash, batch);
      ghost var c := Chain(hash, lastHash, batch);
      ChainVerified(hash, lastHash, batch);
      for i := 0 to |batch|
        invariant stored == rows[..i]
        invariant tip == if chaining then Expected(lastHash, c, i) else lastHash
      {
        var e := batch[i];
        if chaining {
          assert Linked(hash, lastHash, c, i) && Data(c)[i] == e;
          var h := hash(tip, e);
          stored := stored + [StoredEvent(e, tip, h)];
          tip := h;
        } else {
          stored := stored + [StoredEvent(e, "", hash("", e))];
        }
        assert stored[i] == rows[i];
      }
      assert rows[..|batch|] == rows;
    }

    /** flushBatch, with the empty-batch guard of its caller. */
    method FlushBatch(dbOk: bool)
      requires Valid()
      modifies this, store
      ensures Valid() && Abs() == Flushed(Ops(), old(Abs()), dbOk)
    {
      if batch == [] {
        return;
      }
      var stored, tip := Stamp();
      var ok := store.InsertBatch(stored, dbOk);
      log := log.(flushes := log.flushes + [Flush(batch, ok)]);
      if !ok {
        dropped := dropped + |batch|;
        dbFailed := true;
      } else {
        dbFailed := false;
        lastHash := tip;
      }
      batch := [];
    }

    /** One receive of the writer's loop; on a closed and drained channel it
        flushes what is left and returns from run. */
    method Receive(dbOk: bool)
      requires Valid() && Enabled(cfg, Abs(), Step.Receive(dbOk))
      modifies this, store
      ensures Valid() && Abs() == Next(Ops(), cfg, old(Abs()), Step.Receive(dbOk))
    {
      if ch == [] {
        FlushBatch(dbOk);
        done := true;
        return;
      }
      batch := batch + [ch[0]];
      ch := ch[1..];
      if |batch| >= cfg.batchMax {
        FlushBatch(dbOk);
      }
    }

    method BatchTick(dbOk: bool)
      requires Valid() && Enabled(cfg, Abs(), Step.BatchTick(dbOk))
      modifies this, store
      ensures Valid() && Abs() == Next(Ops(), cfg, old(Abs()), Step.BatchTick(dbOk))
    {
      FlushBatch(dbOk);
    }

    /** The retention tick: flush first, then runRetention. The trimming loop
        meets the sizes and errors that the environment gives it; how many
        chunks it took, and how it ended, is reported in the ghost result. */
    method RetentionTick(dbOk: bool, u: Upkeep, size: nat -> Option<int>, trims: nat -> bool)
      returns (ghost seen: Upkeep)
      requires Valid() && cfg.retention && !done
      modifies this, store
      ensures Valid()
      ensures Abs() == Next(Ops(), cfg, old(Abs()), Step.RetentionTick(dbOk, seen))
      ensures seen == u.(chunks := seen.chunks, trimOk := seen.trimOk)
    {
      FlushBatch(dbOk);
      seen := RunRetention(u, size, trims);
    }

    /** runRetention: only what the two deletions report decides about a reseal. */
    method RunRetention(u: Upkeep, size: nat -> Option<int>, trims: nat -> bool) returns (ghost seen: Upkeep)
      requires Valid()
      modifies this`lastHash, store
      ensures Valid()
      ensures Disk(store.rows, lastHash) == Retained(hash, chaining, retention, old(Disk(store.rows, lastHash)), seen)
      ensures seen == u.(chunks := seen.chunks, trimOk := seen.trimOk)
    {
      var deleted;
      deleted, seen := Prune(u, size, trims);
      if deleted && chaining {
        var ok := store.ResealChain(hash, u.resealOk);
        if !ok {
          return;
        }
        if u.reloadOk {
          lastHash := store.LastHash();
        }
      }
    }

    method Prune(u: Upkeep, size: nat -> Option<int>, trims: nat -> bool) returns (deleted: bool, ghost seen: Upkeep)
      requires Valid()
      modifies store
      ensures Valid()
      ensures (store.rows, deleted) == Pruned(retention, old(store.rows), seen)
      ensures seen == u.(chunks := seen.chunks, trimOk := seen.trimOk)
    {
      seen := u;
      deleted := DeleteAged(u);
      if retention.maxSizeBytes > 0 && u.dbSize > retention.maxSizeBytes {
        var ok, chunks := store.TrimToSize(retention.maxSizeBytes, size, trims);
        seen := u.(chunks := chunks, trimOk := ok);
        if ok {
          deleted := true;
        }
      }
    }

    method DeleteAged(u: Upkeep) returns (deleted: bool)
      requires Valid()
      modifies store
      ensures Valid()
      ensures var ages := retention.maxAge > 0 && u.deleteOk;
        && store.rows == (if ages then From(old(store.rows), Cutoff(retention, u)) else old(store.rows))
        && deleted == (ages && OlderCount(ScanOf(old(store.rows)), Cutoff(retention, u)) > 0)
    {
      if retention.maxAge > 0 {
        var ok, n := store.DeleteBefore(Cutoff(retention, u), u.deleteOk);
        return ok && n > 0;
      }
      return false;
    }

    /** `close(l.ch)`. */
    method CloseChannel()
      requires Valid() && Enabled(cfg, Abs(), CloseLog)
      modifies this
      ensures Valid() && Abs() == Next(Ops(), cfg, old(Abs()), CloseLog)
    {
      closed := true;
    }

    /** Close: closes the channel and waits for the writer, which drains it in its
        remaining turns. `dbOk` is what the database answers in each. When Close
        returns nothing is queued or batched. */
    method Close(dbOk: nat -> bool) returns (ghost steps: seq<Step>)
      requires Valid() && Enabled(cfg, Abs(), CloseLog) && !done
      modifies this, store
      ensures Valid() && done && ch == [] && batch == []
      ensures Runnable(Ops(), cfg, old(Abs()), steps) && Abs() == Run(Ops(), cfg, old(Abs()), steps)
      ensures Closes(steps)
    {
      ghost var s := Abs();
      CloseChannel();
      steps := [] + [CloseLog];
      OneMoreStep(Ops(), cfg, s, [], s, CloseLog);
      var turn := 0;
      while !done
        invariant Valid() && closed && turn >= 0 && (done ==> ch == [] && batch == [])
        invariant Runnable(Ops(), cfg, s, steps) && Abs() == Run(Ops(), cfg, s, steps)
        invariant Closes(steps)
        decreases if done then 0 else |ch| + 1
      {
        ghost var before, step := Abs(), Step.Receive(dbOk(turn));
        Receive(dbOk(turn));
        OneMoreStep(Ops(), cfg, s, steps, before, step);
        steps := steps + [step];
        turn := turn + 1;
      }
    }
  }
}
