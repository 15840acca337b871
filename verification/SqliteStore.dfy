/** The ordered audit table of internal/audit/sqlite_store.go. A statement or a
    transaction is one atomic step that takes effect or leaves the table alone;
    whether the database fails it is a parameter. */
module SqliteStore {
  import opened HashChain
  import opened Options
  import opened ScanOrder

  const CHUNK: nat := 100

  // ---- what the operations mean -------------------------------------------

  /** VerifyChain scans `ts_unix_nano >= 0` and checks what it sees. */
  ghost predicate Accepts(hash: Digest, rows: Table)
  {
    Verified(hash, "", ScanOf(From(rows, 0)))
  }

  function LastHashOf(rows: Table): string
  {
    TipOf("", ScanOf(rows))
  }

  predicate DistinctIds(s: seq<StoredEvent>)
  {
    forall i, j :: 0 <= i < j < |s| ==> s[i].data.eventId != s[j].data.eventId
  }

  /** The primary key accepts the batch. */
  predicate Insertable(rows: Table, batch: seq<StoredEvent>)
  {
    DistinctIds(batch) && forall i :: 0 <= i < |batch| ==> batch[i].data.eventId !in rows
  }

  function Inserted(rows: Table, batch: seq<StoredEvent>): Table
    decreases |batch|
  {
    if batch == [] then rows
    else
      var n := |batch| - 1;
      Inserted(rows, batch[..n])[batch[n].data.eventId := batch[n]]
  }

  /** The table after ResealChain: the same events, hashed afresh in scan order. */
  function Resealed(hash: Digest, rows: Table): Table
  {
    Inserted(map[], Chain(hash, "", Data(ScanOf(rows))))
  }

  /** An inserted batch is added to the rows, and nothing else changes. */
  lemma {:induction false} InsertedRows(rows: Table, batch: seq<StoredEvent>)
    requires Keyed(rows) && Insertable(rows, batch)
    ensures Keyed(Inserted(rows, batch))
    ensures forall e :: IsRow(Inserted(rows, batch), e) <==> IsRow(rows, e) || e in batch
    ensures |Inserted(rows, batch)| == |rows| + |batch|
    decreases |batch|
  {
    if batch != [] {
      var n := |batch| - 1;
      var front, last := batch[..n], batch[n];
      var r := Inserted(rows, front);
      InsertedRows(rows, front);
      if last.data.eventId in r {
        assert IsRow(r, r[last.data.eventId]);
        assert false;
      }
      assert batch == front + [last];
      assert forall e :: IsRow(r[last.data.eventId := last], e) <==> IsRow(r, e) || e == last;
    }
  }

  /** Inserting two batches is inserting their concatenation. */
  lemma {:induction false} InsertedConcat(rows: Table, a: seq<StoredEvent>, b: seq<StoredEvent>)
    ensures Inserted(Inserted(rows, a), b) == Inserted(rows, a + b)
    decreases |b|
  {
    if b == [] {
      assert a + b == a;
    } else {
      var n := |b| - 1;
      InsertedConcat(rows, a, b[..n]);
      assert (a + b)[..|a + b| - 1] == a + b[..n];
      assert (a + b)[|a + b| - 1] == b[n];
    }
  }

  lemma TableIsItsScan(rows: Table, r: Table)
    requires Keyed(rows) && Keyed(r) && ScanOf(rows) == ScanOf(r)
    ensures rows == r
  {
    ScanLists(rows);
    ScanLists(r);
    forall id | id in rows ensures id in r && rows[id] == r[id] {
      assert IsRow(rows, rows[id]) && rows[id] in ScanOf(r);
    }
    forall id | id in r ensures id in rows {
      assert IsRow(r, r[id]) && r[id] in ScanOf(rows);
    }
  }

  /** A batch that sorts after every row extends the scan at its end. */
  lemma InsertedAfter(rows: Table, batch: seq<StoredEvent>)
    requires Keyed(rows) && Insertable(rows, batch) && Sorted(ScanOf(rows) + batch)
    ensures Keyed(Inserted(rows, batch))
    ensures ScanOf(Inserted(rows, batch)) == ScanOf(rows) + batch
  {
    InsertedRows(rows, batch);
    ScanLists(rows);
    ScanIs(Inserted(rows, batch), ScanOf(rows) + batch);
  }

  lemma ChainKeepsIds(hash: Digest, rows: Table)
    requires Keyed(rows)
    ensures var c := Chain(hash, "", Data(ScanOf(rows)));
      Sorted(c) && DistinctIds(c) && forall i :: 0 <= i < |c| ==> c[i].data == ScanOf(rows)[i].data
  {
    var s := ScanOf(rows);
    var c := Chain(hash, "", Data(s));
    ChainVerified(hash, "", Data(s));
    ScanLists(rows);
    forall i | 0 <= i < |c| ensures c[i].data == s[i].data {
      assert Data(c)[i] == Data(s)[i];
    }
    forall i, j | 0 <= i < j < |c| ensures c[i].data.eventId != c[j].data.eventId {
      ScanRow(rows, i);
      ScanRow(rows, j);
      BeforeTotal(s[i].data, s[j].data);
      assert Before(s[i].data, s[j].data);
    }
  }

  /** Resealing keeps every event and its place, and makes the whole scan one
      verified chain. */
  lemma ResealedScan(hash: Digest, rows: Table)
    requires Keyed(rows)
    ensures Keyed(Resealed(hash, rows)) && Resealed(hash, rows).Keys == rows.Keys
    ensures ScanOf(Resealed(hash, rows)) == Chain(hash, "", Data(ScanOf(rows)))
    ensures Verified(hash, "", ScanOf(Resealed(hash, rows)))
    ensures Data(ScanOf(Resealed(hash, rows))) == Data(ScanOf(rows))
    ensures forall id :: id in rows ==> Resealed(hash, rows)[id].data == rows[id].data
  {
    var s, r := ScanOf(rows), Resealed(hash, rows);
    var c := Chain(hash, "", Data(s));
    ChainVerified(hash, "", Data(s));
    ChainKeepsIds(hash, rows);
    ScanLists(rows);
    InsertedRows(map[], c);
    ScanIs(r, c);
    forall id | id in rows ensures id in r && r[id].data == rows[id].data {
      assert IsRow(rows, rows[id]) && rows[id] in s;
      var i :| 0 <= i < |s| && s[i] == rows[id];
      assert c[i] in c && IsRow(r, c[i]);
    }
    forall id | id in r ensures id in rows {
      assert IsRow(r, r[id]) && r[id] in c;
      var i :| 0 <= i < |c| && c[i] == r[id];
      ScanRow(rows, i);
    }
  }

  predicate InsertedSoFar(rows: Table, events: seq<StoredEvent>, i: nat, tx: Table)
    requires i <= |events|
  {
    Insertable(rows, events[..i]) && tx == Inserted(rows, events[..i])
  }

  /** One insert of a transaction: a taken key means that the batch cannot go in. */
  lemma InsertOne(rows: Table, events: seq<StoredEvent>, i: nat, tx: Table)
    requires Keyed(rows) && i < |events| && InsertedSoFar(rows, events, i, tx)
    ensures if events[i].data.eventId in tx then !Insertable(rows, events)
      else InsertedSoFar(rows, events, i + 1, tx[events[i].data.eventId := events[i]])
  {
    var id, front := events[i].data.eventId, events[..i];
    InsertedRows(rows, front);
    assert events[..i + 1][..i] == front;
    if id in tx {
      TakenKey(rows, events, i, tx);
    } else {
      FreshKey(rows, events, i, tx);
    }
  }

  lemma TakenKey(rows: Table, events: seq<StoredEvent>, i: nat, tx: Table)
    requires i < |events| && Keyed(tx) && events[i].data.eventId in tx
    requires forall e :: IsRow(tx, e) <==> IsRow(rows, e) || e in events[..i]
    ensures !Insertable(rows, events)
  {
    var e := tx[events[i].data.eventId];
    assert IsRow(tx, e);
    if e in events[..i] {
      var k :| 0 <= k < i && events[..i][k] == e;
      assert events[k].data.eventId == events[i].data.eventId;
    }
  }

  lemma FreshKey(rows: Table, events: seq<StoredEvent>, i: nat, tx: Table)
    requires Keyed(rows) && i < |events| && Insertable(rows, events[..i]) && events[i].data.eventId !in tx
    requires forall e :: IsRow(tx, e) <==> IsRow(rows, e) || e in events[..i]
    ensures Insertable(rows, events[..i + 1])
  {
    var id, front, more := events[i].data.eventId, events[..i], events[..i + 1];
    assert id in rows ==> IsRow(rows, rows[id]);
    forall k | 0 <= k < i ensures more[k] == front[k] && more[k].data.eventId != id {
      assert front[k] in front && IsRow(tx, front[k]);
    }
  }

  // ---- the table as an object ---------------------------------------------

  class Store {
    var rows: Table

    ghost predicate Valid()
      reads this
    {
      Keyed(rows)
    }

    constructor ()
      ensures Valid() && rows == map[]
    {
      rows := map[];
    }

    /** InsertBatch: one transaction, rolled back at the first duplicate key. */
    method InsertBatch(events: seq<StoredEvent>, dbOk: bool) returns (ok: bool)
      requires Valid()
      modifies this
      ensures Valid()
      ensures ok <==> events == [] || (dbOk && Insertable(old(rows), events))
      ensures rows == if ok then Inserted(old(rows), events) else old(rows)
    {
      if events == [] {
        return true;
      }
      if !dbOk {
        return false;
      }
      var tx := rows;
      for i := 0 to |events|
        invariant Valid() && rows == old(rows) && InsertedSoFar(rows, events, i, tx)
      {
        var e := events[i];
        InsertOne(rows, events, i, tx);
        if e.data.eventId in tx {
          return false;
        }
        tx := tx[e.data.eventId := e];
      }
      assert events[..|events|] == events;
      InsertedRows(rows, events);
      rows := tx;
      return true;
    }

    method LastHash() returns (h: string)
      requires Valid()
      ensures h == LastHashOf(rows)
    {
      var s := ScanOf(rows);
      return if s == [] then "" else s[|s| - 1].eventHash;
    }

    /** Scan: rows with ts >= since, 0 when no start is given, in scan order. */
    method Scan(since: Option<int>) returns (events: seq<StoredEvent>)
      requires Valid()
      ensures Lists(events, From(rows, if since.Some? then since.value else 0))
      ensures forall e :: e in events ==> IsRow(rows, e) && e.data.ts >= if since.Some? then since.value else 0
      ensures events == ScanOf(From(rows, if since.Some? then since.value else 0))
    {
      var sinceNano := 0;
      if since.Some? {
        sinceNano := since.value;
      }
      events := ScanOf(From(rows, sinceNano));
      ScanLists(From(rows, sinceNano));
    }

    /** VerifyChain accepts exactly the tables whose visible scan is one chain. */
    method VerifyChain(hash: Digest) returns (r: VerifyResult)
      requires Valid()
      ensures r.Intact? <==> Accepts(hash, rows)
    {
      var events := Scan(None);
      r := VerifyRows(hash, events);
    }

    /** DeleteBefore: the rows older than the cutoff go, the rest of the scan stays. */
    method DeleteBefore(cutoff: int, dbOk: bool) returns (ok: bool, n: nat)
      requires Valid()
      modifies this
      ensures Valid() && ok == dbOk
      ensures rows == if ok then From(old(rows), cutoff) else old(rows)
      ensures n == if ok then OlderCount(ScanOf(old(rows)), cutoff) else 0
      ensures ScanOf(rows) == ScanOf(old(rows))[n..]
    {
      if !dbOk {
        return false, 0;
      }
      FromIsSuffix(rows, cutoff);
      var kept := From(rows, cutoff);
      ScanLists(rows);
      ScanLists(kept);
      n := |rows| - |kept|;
      rows := kept;
      ok := true;
    }

    /** TrimToSize: deletes the oldest rows a chunk at a time. `size` and
        `deleteOk` are what the environment answers in each round. However it
        ends, a suffix of the scan is left; when it reports success the size
        read last is within the limit or no row is left. */
    method TrimToSize(maxBytes: int, size: nat -> Option<int>, deleteOk: nat -> bool)
      returns (ok: bool, ghost chunks: nat)
      requires Valid()
      modifies this
      ensures Valid()
      ensures rows == Trimmed(old(rows), CHUNK, chunks)
      ensures ok ==> rows == map[] || (size(chunks).Some? && size(chunks).value <= maxBytes)
      ensures forall k :: 0 <= k < chunks ==> size(k).Some? && size(k).value > maxBytes && deleteOk(k)
      ensures !ok ==> size(chunks).None? || (size(chunks).value > maxBytes && !deleteOk(chunks))
    {
      ghost var before := rows;
      var chunk: nat := CHUNK;
      var round := 0;
      while true
        invariant Valid()
        invariant rows == Trimmed(before, chunk, round)
        invariant forall k :: 0 <= k < round ==> size(k).Some? && size(k).value > maxBytes && deleteOk(k)
        decreases |rows|
      {
        if size(round).None? {
          return false, round;
        }
        if size(round).value <= maxBytes {
          return true, round;
        }
        if !deleteOk(round) {
          return false, round;
        }
        var fewer := WithoutOldest(rows, chunk);
        WithoutOldestIsSuffix(rows, chunk);
        ScanLists(rows);
        ScanLists(fewer);
        if |rows| - |fewer| == 0 {
          return true, round;
        }
        rows := fewer;
        round := round + 1;
      }
    }

    /** ResealChain: reads the events in scan order and rewrites the two hash
        columns, all in one transaction. */
    method ResealChain(hash: Digest, dbOk: bool) returns (ok: bool)
      requires Valid()
      modifies this
      ensures Valid() && ok == dbOk
      ensures rows == if ok then Resealed(hash, old(rows)) else old(rows)
    {
      if !dbOk {
        return false;
      }
      var before := rows;
      var events := ScanOf(before);
      ghost var c := Chain(hash, "", Data(events));
      ChainVerified(hash, "", Data(events));
      ChainKeepsIds(hash, before);
      var tx := before;
      var prevHash := "";
      for i := 0 to |events|
        invariant tx.Keys == before.Keys
        invariant prevHash == Expected("", c, i)
        invariant forall k :: 0 <= k < i ==> IsRow(tx, c[k])
      {
        assert Linked(hash, "", c, i);
        var e := events[i];
        ScanRow(before, i);
        var h := hash(prevHash, e.data);
        tx := Update(tx, StoredEvent(e.data, prevHash, h), c, i);
        prevHash := h;
      }
      ResealedScan(hash, before);
      SameRows(tx, Resealed(hash, before), c);
      rows := tx;
      return true;
    }
  }

  /** The UPDATE of one row; the rows already rewritten keep their contents. */
  function Update(tx: Table, e: StoredEvent, ghost c: seq<StoredEvent>, ghost i: nat): (r: Table)
    requires i < |c| && c[i] == e && DistinctIds(c) && e.data.eventId in tx
    requires forall k :: 0 <= k < i ==> IsRow(tx, c[k])
    ensures r.Keys == tx.Keys
    ensures forall k :: 0 <= k <= i ==> IsRow(r, c[k])
  {
    var r := tx[e.data.eventId := e];
    assert forall k :: 0 <= k <= i ==> IsRow(r, c[k]) by {
      forall k | 0 <= k <= i ensures IsRow(r, c[k]) {
        assert k < i ==> IsRow(tx, c[k]) && c[k].data.eventId != c[i].data.eventId;
      }
    }
    r
  }

  /** Two tables over the same keys, one of which holds every row of the other. */
  lemma SameRows(a: Table, b: Table, scan: seq<StoredEvent>)
    requires Keyed(b) && a.Keys == b.Keys && ScanOf(b) == scan
    requires forall i :: 0 <= i < |scan| ==> IsRow(a, scan[i])
    ensures a == b
  {
    ScanLists(b);
    forall id | id in b ensures a[id] == b[id] {
      assert IsRow(b, b[id]) && b[id] in scan;
    }
  }

  /** The table after TrimToSize has deleted this many chunks of this size. */
  function Trimmed(rows: Table, chunk: nat, chunks: nat): Table
    decreases chunks
  {
    if chunks == 0 then rows else WithoutOldest(Trimmed(rows, chunk, chunks - 1), chunk)
  }

  /** The number of rows in this many full chunks. */
  function Rows(chunk: nat, chunks: nat): nat
    decreases chunks
  {
    if chunks == 0 then 0 else Rows(chunk, chunks - 1) + chunk
  }

  predicate IsRest(rows: Table, r: Table, n: nat)
  {
    Keyed(r) && ScanOf(r) == Drop(ScanOf(rows), n)
  }

  /** However many chunks went, what is left is a suffix of the scan. */
  lemma {:induction false} TrimmedScan(rows: Table, chunk: nat, chunks: nat)
    requires Keyed(rows)
    ensures IsRest(rows, Trimmed(rows, chunk, chunks), Rows(chunk, chunks))
    decreases chunks
  {
    if chunks == 0 {
      DropNone(ScanOf(rows));
    } else {
      TrimmedScan(rows, chunk, chunks - 1);
      TrimmedMore(rows, chunk, chunks);
    }
  }

  lemma TrimmedMore(rows: Table, chunk: nat, chunks: nat)
    requires chunks > 0 && IsRest(rows, Trimmed(rows, chunk, chunks - 1), Rows(chunk, chunks - 1))
    ensures IsRest(rows, Trimmed(rows, chunk, chunks), Rows(chunk, chunks))
  {
    NextChunkScan(rows, Trimmed(rows, chunk, chunks - 1), Rows(chunk, chunks - 1), chunk);
  }

  lemma NextChunkScan(rows: Table, r: Table, n: nat, chunk: nat)
    requires Keyed(r) && ScanOf(r) == Drop(ScanOf(rows), n)
    ensures Keyed(WithoutOldest(r, chunk))
    ensures ScanOf(WithoutOldest(r, chunk)) == Drop(ScanOf(rows), n + chunk)
  {
    WithoutOldestIsSuffix(r, chunk);
    DropTwice(ScanOf(rows), n, chunk);
  }
}
