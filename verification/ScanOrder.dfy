/** The order `ORDER BY ts_unix_nano, event_id` of internal/audit/sqlite_store.go,
    and the sequence that a table yields in that order. */
module ScanOrder {
  import opened HashChain

  /** The audit_events table: event_id is the primary key. */
  type Table = map<string, StoredEvent>

  // ---- the order ----------------------------------------------------------

  predicate StringLess(s: string, t: string)
  {
    t != [] && (s == [] || s[0] < t[0] || (s[0] == t[0] && StringLess(s[1..], t[1..])))
  }

  predicate Before(a: Payload, b: Payload)
  {
    a.ts < b.ts || (a.ts == b.ts && StringLess(a.eventId, b.eventId))
  }

  lemma {:induction false} StringLessTransitive(s: string, t: string, u: string)
    requires StringLess(s, t) && StringLess(t, u)
    ensures StringLess(s, u)
  {
    if s != [] && s[0] == t[0] == u[0] {
      StringLessTransitive(s[1..], t[1..], u[1..]);
    }
  }

  lemma {:induction false} StringLessTotal(s: string, t: string)
    ensures !(StringLess(s, t) && StringLess(t, s))
    ensures s != t <==> StringLess(s, t) || StringLess(t, s)
  {
    if s != [] && t != [] {
      assert s == t <==> s[0] == t[0] && s[1..] == t[1..] by {
        assert s == [s[0]] + s[1..] && t == [t[0]] + t[1..];
      }
      StringLessTotal(s[1..], t[1..]);
    }
  }

  lemma BeforeTransitive(a: Payload, b: Payload, c: Payload)
    requires Before(a, b) && Before(b, c)
    ensures Before(a, c)
  {
    if a.ts == b.ts == c.ts {
      StringLessTransitive(a.eventId, b.eventId, c.eventId);
    }
  }

  lemma BeforeTotal(a: Payload, b: Payload)
    ensures !(Before(a, b) && Before(b, a))
    ensures a.eventId != b.eventId ==> Before(a, b) || Before(b, a)
    ensures Before(a, b) ==> a.ts != b.ts || a.eventId != b.eventId
  {
    StringLessTotal(a.eventId, b.eventId);
  }

  /** They agree up to here, where the first has the smaller character or ends. */
  predicate LessAt(s: string, t: string, i: int)
  {
    0 <= i <= |s| && i < |t| && s[..i] == t[..i] && (i == |s| || s[i] < t[i])
  }

  lemma LessLater(s: string, t: string, i: int)
    requires LessAt(s, t, i)
    ensures i > 0 ==> s != [] && t != [] && s[0] == t[0]
  {
    if i > 0 {
      assert s[..i][0] == s[0] && t[..i][0] == t[0];
    }
  }

  /** The order of event ids is by characters, from the left. */
  lemma {:induction false} StringLessMeans(s: string, t: string)
    ensures StringLess(s, t) <==> exists i :: LessAt(s, t, i)
    decreases |s|
  {
    if s != [] && t != [] && s[0] == t[0] {
      StringLessMeans(s[1..], t[1..]);
      if i :| LessAt(s[1..], t[1..], i) {
        assert s[..i + 1] == [s[0]] + s[1..][..i] && t[..i + 1] == [t[0]] + t[1..][..i];
        assert LessAt(s, t, i + 1);
      }
      if i :| LessAt(s, t, i) {
        assert s[..i][0] == t[..i][0];
        assert s[1..][..i - 1] == s[..i][1..] && t[1..][..i - 1] == t[..i][1..];
        assert LessAt(s[1..], t[1..], i - 1);
      }
    } else {
      assert StringLess(s, t) ==> LessAt(s, t, 0);
      forall i | LessAt(s, t, i) ensures i == 0 {
        LessLater(s, t, i);
      }
    }
  }

  /** Rows are scanned by timestamp, and within one by event id. */
  lemma BeforeMeans(a: Payload, b: Payload)
    ensures Before(a, b) <==> a.ts < b.ts || (a.ts == b.ts && exists i :: LessAt(a.eventId, b.eventId, i))
  {
    StringLessMeans(a.eventId, b.eventId);
  }

  // ---- scans --------------------------------------------------------------

  predicate Keyed(rows: Table)
  {
    forall id :: id in rows ==> rows[id].data.eventId == id
  }

  predicate Sorted(s: seq<StoredEvent>)
  {
    forall i, j {:trigger Before(s[i].data, s[j].data)} :: 0 <= i < j < |s| ==> Before(s[i].data, s[j].data)
  }

  predicate IsRow(rows: Table, e: StoredEvent)
  {
    e.data.eventId in rows && rows[e.data.eventId] == e
  }

  /** s lists exactly the rows of the table, each once, in scan order. */
  ghost predicate Lists(s: seq<StoredEvent>, rows: Table)
  {
    && Sorted(s)
    && (forall e :: e in s <==> IsRow(rows, e))
  }

  predicate Precedes(rows: Table, id: string, k: string)
    requires id in rows
  {
    k in rows && k != id ==> Before(rows[id].data, rows[k].data)
  }

  predicate IsFirst(rows: Table, id: string)
  {
    id in rows && forall k {:trigger Precedes(rows, id, k)} | k in rows :: Precedes(rows, id, k)
  }

  lemma {:induction false} FirstExists(rows: Table) returns (first: string)
    requires Keyed(rows) && rows != map[]
    ensures IsFirst(rows, first)
    decreases |rows|
  {
    var id :| id in rows;
    var rest := rows - {id};
    if rest == map[] {
      assert forall k :: k in rows && k != id ==> k in rest;
      first := id;
    } else {
      var m := FirstExists(rest);
      BeforeTotal(rows[id].data, rows[m].data);
      first := if Before(rows[id].data, rows[m].data) then id else m;
      forall k | k in rows ensures Precedes(rows, first, k) {
        if k != id {
          assert Precedes(rest, m, k);
          if k != m && first == id {
            BeforeTransitive(rows[id].data, rows[m].data, rows[k].data);
          }
        }
      }
    }
  }

  predicate HasFirst(rows: Table)
  {
    exists id :: id in rows && IsFirst(rows, id)
  }

  lemma FirstUnique(rows: Table)
    ensures Keyed(rows) && rows != map[] ==> HasFirst(rows)
    ensures forall a, b :: IsFirst(rows, a) && IsFirst(rows, b) ==> a == b
  {
    if Keyed(rows) && rows != map[] {
      var m := FirstExists(rows);
    }
    forall a, b | IsFirst(rows, a) && IsFirst(rows, b) ensures a == b {
      assert Precedes(rows, a, b) && Precedes(rows, b, a);
      BeforeTotal(rows[a].data, rows[b].data);
    }
  }

  lemma FirstThenRest(rows: Table, first: string, tail: seq<StoredEvent>)
    requires Keyed(rows) && IsFirst(rows, first) && Lists(tail, rows - {first})
    ensures Lists([rows[first]] + tail, rows)
  {
    var s, rest := [rows[first]] + tail, rows - {first};
    forall e ensures e in s <==> IsRow(rows, e) {
      assert IsRow(rows, e) <==> e == rows[first] || IsRow(rest, e);
    }
    forall i, j | 0 <= i < j < |s| ensures Before(s[i].data, s[j].data) {
      assert tail[j - 1] in tail && IsRow(rest, tail[j - 1]);
      assert Precedes(rows, first, tail[j - 1].data.eventId);
      assert i > 0 ==> Before(tail[i - 1].data, tail[j - 1].data);
    }
  }

  /** The key of the row that a scan delivers first. */
  function First(rows: Table): (first: string)
    requires HasFirst(rows)
    ensures first in rows
  {
    FirstUnique(rows);
    var first :| first in rows && IsFirst(rows, first);
    first
  }

  /** The rows of the table in scan order. */
  function ScanOf(rows: Table): (s: seq<StoredEvent>)
    decreases |rows|
  {
    if HasFirst(rows) then [rows[First(rows)]] + ScanOf(rows - {First(rows)}) else []
  }

  /** The scan lists the table. */
  lemma {:induction false} ScanLists(rows: Table)
    requires Keyed(rows)
    ensures Lists(ScanOf(rows), rows) && |ScanOf(rows)| == |rows|
    decreases |rows|
  {
    FirstUnique(rows);
    if HasFirst(rows) {
      var rest := rows - {First(rows)};
      ScanLists(rest);
      FirstThenRest(rows, First(rows), ScanOf(rest));
    }
  }

  /** A table has only one listing in scan order. */
  lemma {:induction false} ListingUnique(s: seq<StoredEvent>, t: seq<StoredEvent>)
    requires Sorted(s) && Sorted(t) && forall e :: e in s <==> e in t
    ensures s == t
  {
    if s == [] {
      assert forall i :: 0 <= i < |t| ==> t[i] in t;
    } else {
      assert s[0] in t && t != [];
      assert t[0] in s;
      var i :| 0 <= i < |t| && t[i] == s[0];
      var j :| 0 <= j < |s| && s[j] == t[0];
      BeforeTotal(s[0].data, t[0].data);
      assert i == 0;
      forall e ensures e in s[1..] <==> e in t[1..] {
        TailElement(s, e);
        TailElement(t, e);
      }
      ListingUnique(s[1..], t[1..]);
      assert s == [s[0]] + s[1..] && t == [t[0]] + t[1..];
    }
  }

  lemma TailElement(s: seq<StoredEvent>, e: StoredEvent)
    requires Sorted(s) && s != []
    ensures e in s[1..] <==> e in s && e != s[0]
  {
    if e in s[1..] {
      var i :| 0 < i < |s| && s[i] == e;
      BeforeTotal(s[0].data, s[i].data);
    }
  }

  /** Any sorted sequence of exactly the table's rows is the scan. */
  lemma ScanIs(rows: Table, s: seq<StoredEvent>)
    requires Keyed(rows) && Lists(s, rows)
    ensures ScanOf(rows) == s
  {
    ScanLists(rows);
    ListingUnique(ScanOf(rows), s);
  }

  // ---- restricting a scan -------------------------------------------------

  /** The rows with `ts_unix_nano >= cutoff`. */
  function From(rows: Table, cutoff: int): Table
  {
    map id | id in rows && rows[id].data.ts >= cutoff :: rows[id]
  }

  /** How many leading rows of a scan are older than the cutoff. */
  function OlderCount(s: seq<StoredEvent>, cutoff: int): (n: nat)
    ensures n <= |s|
    ensures forall i :: 0 <= i < n ==> s[i].data.ts < cutoff
    ensures n < |s| ==> s[n].data.ts >= cutoff
  {
    if s == [] || s[0].data.ts >= cutoff then 0 else 1 + OlderCount(s[1..], cutoff)
  }

  /** A table that keeps exactly the rows from position n of a scan on scans as
      the rest of that scan. */
  lemma SuffixScan(rows: Table, r: Table, n: nat)
    requires Keyed(rows) && Keyed(r) && n <= |ScanOf(rows)|
    requires forall e :: IsRow(r, e) ==> IsRow(rows, e)
    requires forall i :: 0 <= i < |ScanOf(rows)| ==> (IsRow(r, ScanOf(rows)[i]) <==> i >= n)
    ensures ScanOf(r) == ScanOf(rows)[n..]
  {
    var s := ScanOf(rows);
    ScanLists(rows);
    forall e ensures e in s[n..] <==> IsRow(r, e) {
      if e in s[n..] {
        var i :| n <= i < |s| && s[i] == e;
      }
      if IsRow(r, e) {
        assert e in s;
        var i :| 0 <= i < |s| && s[i] == e;
        assert e == s[n..][i - n];
      }
    }
    ScanIs(r, s[n..]);
  }

  lemma ScanRow(rows: Table, i: nat)
    requires Keyed(rows) && i < |ScanOf(rows)|
    ensures IsRow(rows, ScanOf(rows)[i])
  {
    ScanLists(rows);
    assert ScanOf(rows)[i] in ScanOf(rows);
  }

  lemma ScanPair(rows: Table, i: nat, j: nat)
    requires Keyed(rows) && i < j < |ScanOf(rows)|
    ensures Before(ScanOf(rows)[i].data, ScanOf(rows)[j].data)
  {
    ScanLists(rows);
  }

  /** Cutting by age leaves a suffix of the scan. */
  lemma FromIsSuffix(rows: Table, cutoff: int)
    requires Keyed(rows)
    ensures ScanOf(From(rows, cutoff)) == ScanOf(rows)[OlderCount(ScanOf(rows), cutoff)..]
  {
    var s, r := ScanOf(rows), From(rows, cutoff);
    var n := OlderCount(s, cutoff);
    forall i | 0 <= i < |s| ensures IsRow(r, s[i]) <==> i >= n {
      ScanRow(rows, i);
      assert i > n ==> Before(s[n].data, s[i].data) by { ScanLists(rows); }
    }
    SuffixScan(rows, r, n);
  }

  /** The table after `DELETE ... ORDER BY ts_unix_nano, event_id LIMIT n`. */
  function WithoutOldest(rows: Table, n: nat): Table
    decreases |rows|
  {
    if n > 0 && HasFirst(rows) then WithoutOldest(rows - {First(rows)}, n - 1) else rows
  }

  function Drop<T>(s: seq<T>, n: nat): seq<T>
  {
    if n <= |s| then s[n..] else []
  }

  lemma DropNone<T>(s: seq<T>)
    ensures Drop(s, 0) == s
  {
  }

  lemma DropTwice<T>(s: seq<T>, m: nat, n: nat)
    ensures Drop(Drop(s, m), n) == Drop(s, m + n)
  {
  }

  lemma {:induction false} WithoutOldestIsSuffix(rows: Table, n: nat)
    requires Keyed(rows)
    ensures Keyed(WithoutOldest(rows, n))
    ensures ScanOf(WithoutOldest(rows, n)) == Drop(ScanOf(rows), n)
    decreases n
  {
    FirstUnique(rows);
    if n > 0 && HasFirst(rows) {
      WithoutOldestIsSuffix(rows - {First(rows)}, n - 1);
    }
  }
}
