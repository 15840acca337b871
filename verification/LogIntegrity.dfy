/** What VerifyChain decides about a table: order, loss, change and reseal. */
module LogIntegrity {
  import opened HashChain
  import opened ScanOrder
  import opened SqliteStore

  predicate InOrder(es: seq<Payload>)
  {
    forall i, j {:trigger Before(es[i], es[j])} :: 0 <= i < j < |es| ==> Before(es[i], es[j])
  }

  predicate DifferentIds(es: seq<Payload>)
  {
    forall i, j :: 0 <= i < j < |es| ==> es[i].eventId != es[j].eventId
  }

  /** The first k events carry timestamps from 0 on, in scan order; the others
      carry negative timestamps. */
  predicate ReadBackAt(es: seq<Payload>, k: nat)
    requires k <= |es|
  {
    && (forall i, j :: 0 <= i < j < k ==> Before(es[i], es[j]))
    && (forall i :: 0 <= i < k ==> es[i].ts >= 0)
    && (forall i :: k <= i < |es| ==> es[i].ts < 0)
  }

  /** The events read back from timestamp 0 on in the order they are listed in,
      except for a tail that lies before timestamp 0. */
  ghost predicate ReadsBack(es: seq<Payload>)
  {
    exists k :: 0 <= k <= |es| && ReadBackAt(es, k)
  }

  /** The table holding the chain that the writer builds from an empty start. */
  function Written(hash: Digest, es: seq<Payload>): Table
  {
    Inserted(map[], Chain(hash, "", es))
  }

  lemma WrittenRows(hash: Digest, es: seq<Payload>)
    requires DifferentIds(es)
    ensures var c := Chain(hash, "", es); var rows := Written(hash, es);
      && Keyed(rows)
      && (forall i :: 0 <= i < |c| ==> c[i].data == es[i])
      && (forall e :: IsRow(rows, e) <==> e in c)
      && DistinctIds(c) && Verified(hash, "", c)
  {
    var c := Chain(hash, "", es);
    ChainVerified(hash, "", es);
    forall i | 0 <= i < |c| ensures c[i].data == es[i] {
      assert Data(c)[i] == es[i];
    }
    InsertedRows(map[], c);
  }

  // ---- order --------------------------------------------------------------

  lemma OrderSuffices(hash: Digest, es: seq<Payload>, k: nat)
    requires DifferentIds(es) && k <= |es| && ReadBackAt(es, k)
    ensures ScanOf(From(Written(hash, es), 0)) == Chain(hash, "", es)[..k]
  {
    var c, rows := Chain(hash, "", es), Written(hash, es);
    WrittenRows(hash, es);
    forall e ensures e in c[..k] <==> IsRow(From(rows, 0), e) {
      if e in c[..k] {
        var i :| 0 <= i < k && c[i] == e;
        assert c[i] in c;
      }
      if IsRow(From(rows, 0), e) {
        assert e in c;
        var i :| 0 <= i < |c| && c[i] == e;
        assert c[..k][i] == e;
      }
    }
    assert Sorted(c[..k]);
    ScanIs(From(rows, 0), c[..k]);
  }

  lemma OrderNeeded(hash: Digest, es: seq<Payload>)
    requires DifferentIds(es)
    requires ScanOf(From(Written(hash, es), 0)) <= Chain(hash, "", es)
    ensures ReadBackAt(es, |ScanOf(From(Written(hash, es), 0))|)
  {
    var c, r := Chain(hash, "", es), From(Written(hash, es), 0);
    var p := ScanOf(r);
    WrittenRows(hash, es);
    ScanLists(r);
    forall i, j | 0 <= i < j < |p| ensures Before(es[i], es[j]) {
      assert Before(p[i].data, p[j].data) && p[i] == c[i] && p[j] == c[j];
    }
    forall i | 0 <= i < |p| ensures es[i].ts >= 0 {
      assert p[i] in p && IsRow(r, p[i]) && p[i] == c[i];
    }
    forall i | |p| <= i < |es| ensures es[i].ts < 0 {
      assert c[i] in c && IsRow(Written(hash, es), c[i]);
      forall j | 0 <= j < |p| ensures p[j] != c[i] {
        assert p[j] == c[j] && c[j].data.eventId != c[i].data.eventId;
      }
      assert c[i] !in p && !IsRow(r, c[i]);
    }
  }

  /** The writer chains events in arrival order and VerifyChain reads them in
      scan order from timestamp 0. The log is accepted exactly when the two
      orders agree: for some k, the first k arrivals are visible and in scan
      order, and all later ones lie before timestamp 0. */
  lemma OrderDecides(hash: Digest, es: seq<Payload>)
    requires NeverEmpty(hash) && DifferentIds(es) && CollisionFree(hash, Chain(hash, "", es))
    ensures Accepts(hash, Written(hash, es)) <==> ReadsBack(es)
  {
    var c, p := Chain(hash, "", es), ScanOf(From(Written(hash, es), 0));
    VisibleRows(hash, es);
    VerifiedSelection(hash, c, p);
    if k :| 0 <= k <= |es| && ReadBackAt(es, k) {
      OrderSuffices(hash, es, k);
    }
    if p <= c {
      OrderNeeded(hash, es);
    }
  }

  lemma VisibleRows(hash: Digest, es: seq<Payload>)
    requires DifferentIds(es)
    ensures Verified(hash, "", Chain(hash, "", es))
    ensures forall e :: e in ScanOf(From(Written(hash, es), 0)) ==> e in Chain(hash, "", es)
  {
    var r := From(Written(hash, es), 0);
    WrittenRows(hash, es);
    ScanLists(r);
    forall e | e in ScanOf(r) ensures e in Chain(hash, "", es) {
      assert IsRow(r, e) && IsRow(Written(hash, es), e);
    }
  }

  /** With timestamps from 0 on, acceptance is exactly sortedness of arrivals. */
  lemma NonNegativeOrderDecides(hash: Digest, es: seq<Payload>)
    requires NeverEmpty(hash) && DifferentIds(es) && CollisionFree(hash, Chain(hash, "", es))
    requires forall i :: 0 <= i < |es| ==> es[i].ts >= 0
    ensures Accepts(hash, Written(hash, es)) <==> InOrder(es)
  {
    OrderDecides(hash, es);
    if k :| 0 <= k <= |es| && ReadBackAt(es, k) {
      assert InOrder(es);
    }
    if InOrder(es) {
      assert ReadBackAt(es, |es|);
    }
  }

  /** The order is not enforced anywhere: a call stamped first but logged second,
      as when its upstream answers later, makes the log unacceptable, unless its
      timestamp is before 0 and it is not seen. */
  lemma LateArrivalDecides(hash: Digest, first: Payload, second: Payload)
    requires NeverEmpty(hash) && first.eventId != second.eventId && Before(first, second)
    requires CollisionFree(hash, Chain(hash, "", [second, first]))
    ensures Accepts(hash, Written(hash, [second, first])) <==> first.ts < 0
  {
    var es := [second, first];
    OrderDecides(hash, es);
    BeforeTotal(first, second);
    assert es[0] == second && es[1] == first && !Before(es[0], es[1]);
    if first.ts < 0 {
      assert ReadBackAt(es, if second.ts < 0 then 0 else 1);
    }
  }

  // ---- loss ---------------------------------------------------------------

  /** If a stays and b goes, then a comes before b. */
  predicate StaysAhead(rows: Table, gone: set<string>, a: string, b: string)
    requires a in rows && b in rows
  {
    a !in gone && b in gone ==> Before(rows[a].data, rows[b].data)
  }

  /** Every row that stays comes before every row that goes, among the visible. */
  ghost predicate OnlyTailGone(rows: Table, gone: set<string>)
  {
    forall a, b {:trigger StaysAhead(rows, gone, a, b)} :: a in From(rows, 0) && b in From(rows, 0) ==>
      StaysAhead(rows, gone, a, b)
  }

  /** Deleting rows from a verified log keeps it verified exactly when what is
      deleted is a tail of the scan. */
  lemma DeletionDecides(hash: Digest, rows: Table, gone: set<string>)
    requires NeverEmpty(hash) && Keyed(rows) && Accepts(hash, rows)
    requires CollisionFree(hash, ScanOf(From(rows, 0)))
    ensures Accepts(hash, rows - gone) <==> OnlyTailGone(rows, gone)
  {
    var c, p := ScanOf(From(rows, 0)), ScanOf(From(rows - gone, 0));
    StillVisible(rows, gone);
    VerifiedSelection(hash, c, p);
    if p <= c {
      TailGoneNeeded(rows, gone);
    }
    if OnlyTailGone(rows, gone) {
      TailGoneSuffices(rows, gone);
    }
  }

  lemma StillVisible(rows: Table, gone: set<string>)
    requires Keyed(rows)
    ensures forall e :: e in ScanOf(From(rows - gone, 0)) <==> e in ScanOf(From(rows, 0)) && e.data.eventId !in gone
  {
    ScanLists(From(rows, 0));
    ScanLists(From(rows - gone, 0));
  }

  lemma TailGoneNeeded(rows: Table, gone: set<string>)
    requires Keyed(rows) && ScanOf(From(rows - gone, 0)) <= ScanOf(From(rows, 0))
    ensures OnlyTailGone(rows, gone)
  {
    var r, r' := From(rows, 0), From(rows - gone, 0);
    var c, p := ScanOf(r), ScanOf(r');
    ScanLists(r);
    ScanLists(r');
    forall a, b | a in r && b in r ensures StaysAhead(rows, gone, a, b) {
      TailPair(rows, gone, a, b);
    }
  }

  lemma TailPair(rows: Table, gone: set<string>, a: string, b: string)
    requires Keyed(rows) && ScanOf(From(rows - gone, 0)) <= ScanOf(From(rows, 0))
    requires a in From(rows, 0) && b in From(rows, 0)
    ensures StaysAhead(rows, gone, a, b)
  {
    if a !in gone && b in gone {
      var r, r' := From(rows, 0), From(rows - gone, 0);
      var i := RowPosition(r', a);
      var j := RowPosition(r, b);
      if j < |ScanOf(r')| {
        ScanRow(r', j);
      }
      ScanPair(r, i, j);
    }
  }

  lemma TailGoneSuffices(rows: Table, gone: set<string>)
    requires Keyed(rows) && OnlyTailGone(rows, gone)
    ensures ScanOf(From(rows - gone, 0)) <= ScanOf(From(rows, 0))
  {
    var c, p := ScanOf(From(rows, 0)), ScanOf(From(rows - gone, 0));
    var k := Kept(c, gone);
    forall e ensures e in c[..k] <==> e in p {
      StillVisible(rows, gone);
      if e in c && e.data.eventId !in gone {
        var i :| 0 <= i < |c| && c[i] == e;
        KeptBeforeGone(rows, gone, i);
        assert c[..k][i] == e;
      }
    }
    assert Sorted(p) && Sorted(c[..k]) by {
      ScanLists(From(rows, 0));
      ScanLists(From(rows - gone, 0));
    }
    ListingUnique(p, c[..k]);
  }

  lemma KeptBeforeGone(rows: Table, gone: set<string>, i: nat)
    requires Keyed(rows) && OnlyTailGone(rows, gone)
    requires i < |ScanOf(From(rows, 0))| && ScanOf(From(rows, 0))[i].data.eventId !in gone
    ensures i < Kept(ScanOf(From(rows, 0)), gone)
  {
    var c := ScanOf(From(rows, 0));
    var k := Kept(c, gone);
    if k < |c| {
      StayingFirst(rows, gone, i, k);
    }
  }

  lemma StayingFirst(rows: Table, gone: set<string>, i: nat, k: nat)
    requires Keyed(rows) && OnlyTailGone(rows, gone)
    requires i < |ScanOf(From(rows, 0))| && ScanOf(From(rows, 0))[i].data.eventId !in gone
    requires k < |ScanOf(From(rows, 0))| && ScanOf(From(rows, 0))[k].data.eventId in gone
    ensures i < k
  {
    var c := ScanOf(From(rows, 0));
    ScanRow(From(rows, 0), i);
    ScanRow(From(rows, 0), k);
    assert StaysAhead(rows, gone, c[i].data.eventId, c[k].data.eventId);
    BeforeTotal(c[i].data, c[k].data);
    if k < i {
      ScanPair(From(rows, 0), k, i);
    }
  }

  /** How many rows at the head of a scan stay. */
  function Kept(s: seq<StoredEvent>, gone: set<string>): (k: nat)
    ensures k <= |s|
    ensures forall i :: 0 <= i < k ==> s[i].data.eventId !in gone
    ensures k < |s| ==> s[k].data.eventId in gone
  {
    if s == [] || s[0].data.eventId in gone then 0 else 1 + Kept(s[1..], gone)
  }

  // ---- change -------------------------------------------------------------

  /** The table after the digested fields of one row were overwritten while its
      two hash columns were kept. */
  function Changed(rows: Table, id: string, q: Payload): Table
    requires id in rows
  {
    (rows - {id})[q.eventId := rows[id].(data := q)]
  }

  /** Changing a visible row without recomputing hashes is noticed, with one
      exception: the scan starts at timestamp 0, so moving the last visible row
      before 0 only hides it, and the rows before it still form a chain. */
  lemma ChangeDecides(hash: Digest, rows: Table, id: string, q: Payload)
    requires NeverEmpty(hash) && Keyed(rows) && Accepts(hash, rows)
    requires id in rows && rows[id].data.ts >= 0 && q != rows[id].data
    requires q.eventId == id || q.eventId !in rows
    requires CollisionFree(hash, ScanOf(From(rows, 0)) + [rows[id].(data := q)])
    ensures Accepts(hash, Changed(rows, id, q)) <==> q.ts < 0 && OnlyTailGone(rows, {id})
  {
    var c, changed := ScanOf(From(rows, 0)), rows[id].(data := q);
    if q.ts < 0 {
      CollisionFreeSubset(hash, c + [changed], c);
      assert From(Changed(rows, id, q), 0) == From(rows - {id}, 0);
      DeletionDecides(hash, rows, {id});
    } else {
      var i := RowPosition(From(rows, 0), id);
      var j := RowPosition(From(Changed(rows, id, q), 0), q.eventId);
      CollisionFreeSubset(hash, c + [changed], [c[i], changed]);
      ChangedRowRejected(hash, c, i, q, ScanOf(From(Changed(rows, id, q), 0)));
    }
  }

  lemma RowPosition(rows: Table, id: string) returns (i: nat)
    requires Keyed(rows) && id in rows
    ensures i < |ScanOf(rows)| && ScanOf(rows)[i] == rows[id]
  {
    ScanLists(rows);
    assert IsRow(rows, rows[id]) && rows[id] in ScanOf(rows);
    i :| 0 <= i < |ScanOf(rows)| && ScanOf(rows)[i] == rows[id];
  }

  // ---- tip ----------------------------------------------------------------

  /** Two verified tables without hidden rows and with the same LastHash are
      the same table. */
  lemma SameTipSameTable(hash: Digest, a: Table, b: Table)
    requires NeverEmpty(hash) && Keyed(a) && Keyed(b)
    requires Verified(hash, "", ScanOf(a)) && Verified(hash, "", ScanOf(b))
    requires CollisionFree(hash, ScanOf(a) + ScanOf(b))
    requires LastHashOf(a) == LastHashOf(b)
    ensures a == b
  {
    TipFixesHistory(hash, ScanOf(a), ScanOf(b));
    TableIsItsScan(a, b);
  }

  /** Without hidden rows, acceptance is verification of the whole scan. */
  lemma NothingHidden(hash: Digest, rows: Table)
    requires forall id :: id in rows ==> rows[id].data.ts >= 0
    ensures Accepts(hash, rows) <==> Verified(hash, "", ScanOf(rows))
  {
    assert From(rows, 0) == rows;
  }

  // ---- reseal -------------------------------------------------------------

  /** After ResealChain the table is accepted exactly when the rows before
      timestamp 0, which VerifyChain does not see, are none or all of them. */
  lemma ResealDecides(hash: Digest, rows: Table)
    requires NeverEmpty(hash) && Keyed(rows)
    ensures Accepts(hash, Resealed(hash, rows)) <==>
      (forall id :: id in rows ==> rows[id].data.ts >= 0) || (forall id :: id in rows ==> rows[id].data.ts < 0)
  {
    var r := Resealed(hash, rows);
    var c := ScanOf(r);
    var n := OlderCount(c, 0);
    ResealedScan(hash, rows);
    FromIsSuffix(r, 0);
    ScanLists(r);
    if n == 0 {
      assert c[0..] == c;
      AllFrom(r, 0, 0);
    } else if n == |c| {
      assert c[n..] == [];
      AllFrom(r, 0, n);
    } else {
      assert Linked(hash, "", c, n) && Linked(hash, "", c, n - 1);
      assert c[n..][0] == c[n] && c[n].prevHash != "";
      assert !Linked(hash, "", c[n..], 0);
      assert c[0] in c && c[n] in c && IsRow(r, c[0]) && IsRow(r, c[n]);
    }
  }

  /** Where the age cut falls says which rows lie on which side. */
  lemma AllFrom(rows: Table, cutoff: int, n: nat)
    requires Keyed(rows) && n == OlderCount(ScanOf(rows), cutoff)
    ensures n == 0 ==> forall id :: id in rows ==> rows[id].data.ts >= cutoff
    ensures n == |ScanOf(rows)| ==> forall id :: id in rows ==> rows[id].data.ts < cutoff
  {
    var s := ScanOf(rows);
    ScanLists(rows);
    forall id | id in rows
      ensures n == 0 ==> rows[id].data.ts >= cutoff
      ensures n == |s| ==> rows[id].data.ts < cutoff
    {
      assert IsRow(rows, rows[id]) && rows[id] in s;
      var i :| 0 <= i < |s| && s[i] == rows[id];
      assert i > 0 ==> Before(s[0].data, s[i].data);
    }
  }

  /** ResealChain leaves a verified chain exactly as it is. */
  lemma ResealKeepsVerified(hash: Digest, rows: Table)
    requires Keyed(rows) && Verified(hash, "", ScanOf(rows))
    ensures Resealed(hash, rows) == rows
  {
    ResealedScan(hash, rows);
    VerifiedUnique(hash, "", ScanOf(Resealed(hash, rows)), ScanOf(rows));
    TableIsItsScan(Resealed(hash, rows), rows);
  }

  // ---- hash_chain: false --------------------------------------------------

  /** Rows written with chaining off carry an empty previous hash, and such a
      table is accepted exactly when at most one row is visible. */
  lemma UnchainedAcceptance(hash: Digest, rows: Table)
    requires NeverEmpty(hash) && Keyed(rows)
    requires forall id :: id in rows ==> rows[id].prevHash == "" && rows[id].eventHash == hash("", rows[id].data)
    ensures Accepts(hash, rows) <==> |From(rows, 0)| <= 1
  {
    var r := From(rows, 0);
    var p := ScanOf(r);
    ScanLists(r);
    assert forall i :: 0 <= i < |p| ==> p[i] in p && IsRow(r, p[i]);
    if |p| > 1 {
      assert !Linked(hash, "", p, 1);
    }
  }
}
