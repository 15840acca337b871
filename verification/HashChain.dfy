/** The tamper-evident chain of internal/audit/hashchain.go. The chain is stated
    over a keyed digest `hash(prevHash, payload)`; module Digests shows that
    SHA-256 over `prevHash ++ canonical JSON` is such a digest. */
module HashChain {

  /** The persisted fields that only the digest looks at. */
  datatype Fields = Fields(
    traceId: string, spanId: string, sessionId: string, requestId: string, clientId: string,
    verb: string, toolName: string, upstreamId: string, decision: string, policyRule: string,
    reason: string, argumentsJson: string, responseJson: string, errorJson: string, durationUs: int)

  /** All seventeen digested fields: the two that order the log, and the rest. */
  datatype Payload = Payload(eventId: string, ts: int, fields: Fields)

  /** A row: the digested fields and the two chain columns. */
  datatype StoredEvent = StoredEvent(data: Payload, prevHash: string, eventHash: string)

  /** ComputeHash: the hash of a payload behind a previous hash. */
  type Digest = (string, Payload) -> string

  datatype VerifyResult = Intact | PrevMismatch(at: nat) | HashMismatch(at: nat)

  /** The digest is never the empty string, which marks the start of a chain. */
  ghost predicate NeverEmpty(hash: Digest)
  {
    forall prev, p :: hash(prev, p) != ""
  }

  /** Different hash inputs with the same digest. */
  predicate Collides(hash: Digest, a: StoredEvent, b: StoredEvent)
  {
    hash(a.prevHash, a.data) == hash(b.prevHash, b.data) && (a.prevHash != b.prevHash || a.data != b.data)
  }

  /** No two of these rows collide. */
  ghost predicate CollisionFree(hash: Digest, s: seq<StoredEvent>)
  {
    forall a, b {:trigger Collides(hash, a, b)} :: a in s && b in s ==> !Collides(hash, a, b)
  }

  // ---- chains -------------------------------------------------------------

  /** The previous hash that row i must carry when the chain starts at `anchor`. */
  function Expected(anchor: string, s: seq<StoredEvent>, i: nat): string
    requires i <= |s|
  {
    if i == 0 then anchor else s[i - 1].eventHash
  }

  function TipOf(anchor: string, s: seq<StoredEvent>): string
  {
    Expected(anchor, s, |s|)
  }

  predicate Linked(hash: Digest, anchor: string, s: seq<StoredEvent>, i: nat)
    requires i < |s|
  {
    && s[i].prevHash == Expected(anchor, s, i)
    && s[i].eventHash == hash(s[i].prevHash, s[i].data)
  }

  /** Every row is linked to the one before it and carries its own digest. */
  predicate Verified(hash: Digest, anchor: string, s: seq<StoredEvent>)
  {
    forall i :: 0 <= i < |s| ==> Linked(hash, anchor, s, i)
  }

  /** The rows the writer produces for events arriving in this order. */
  function Chain(hash: Digest, tip: string, es: seq<Payload>): (s: seq<StoredEvent>)
    ensures |s| == |es|
    decreases |es|
  {
    if es == [] then []
    else
      var h := hash(tip, es[0]);
      [StoredEvent(es[0], tip, h)] + Chain(hash, h, es[1..])
  }

  function Data(s: seq<StoredEvent>): seq<Payload>
  {
    seq(|s|, i requires 0 <= i < |s| => s[i].data)
  }

  lemma {:induction false} ChainVerified(hash: Digest, tip: string, es: seq<Payload>)
    ensures Verified(hash, tip, Chain(hash, tip, es))
    ensures Data(Chain(hash, tip, es)) == es
    decreases |es|
  {
    if es != [] {
      var h := hash(tip, es[0]);
      var s, rest := Chain(hash, tip, es), Chain(hash, h, es[1..]);
      ChainVerified(hash, h, es[1..]);
      forall i | 0 <= i < |s| ensures Linked(hash, tip, s, i) && s[i].data == es[i] {
        if i > 0 {
          assert Linked(hash, h, rest, i - 1) && s[i] == rest[i - 1];
          assert Data(rest)[i - 1] == es[1..][i - 1];
        }
      }
    }
  }

  /** A verified sequence is determined by its data. */
  lemma {:induction false} VerifiedUnique(hash: Digest, anchor: string, a: seq<StoredEvent>, b: seq<StoredEvent>)
    requires Verified(hash, anchor, a) && Verified(hash, anchor, b) && Data(a) == Data(b)
    ensures a == b
    decreases |a|
  {
    if a != [] {
      var n := |a| - 1;
      assert |b| == |a| by { assert |Data(a)| == |Data(b)|; }
      assert Data(a[..n]) == Data(a)[..n] == Data(b)[..n] == Data(b[..n]);
      assert Verified(hash, anchor, a[..n]) && Verified(hash, anchor, b[..n]) by {
        VerifiedPrefix(hash, anchor, a, n);
        VerifiedPrefix(hash, anchor, b, n);
      }
      VerifiedUnique(hash, anchor, a[..n], b[..n]);
      assert Expected(anchor, a, n) == Expected(anchor, a[..n], n);
      assert Expected(anchor, b, n) == Expected(anchor, b[..n], n);
      assert Linked(hash, anchor, a, n) && Linked(hash, anchor, b, n);
      assert Data(a)[n] == Data(b)[n];
      assert a == a[..n] + [a[n]] && b == b[..n] + [b[n]];
    }
  }

  lemma VerifiedPrefix(hash: Digest, anchor: string, s: seq<StoredEvent>, n: nat)
    requires Verified(hash, anchor, s) && n <= |s|
    ensures Verified(hash, anchor, s[..n])
  {
    forall i | 0 <= i < n ensures Linked(hash, anchor, s[..n], i) {
      assert Linked(hash, anchor, s, i);
    }
  }

  /** Two linked stretches join exactly when the second starts at the tip of the first. */
  lemma VerifiedConcat(hash: Digest, anchor: string, a: seq<StoredEvent>, b: seq<StoredEvent>)
    ensures Verified(hash, anchor, a + b)
       <==> Verified(hash, anchor, a) && Verified(hash, TipOf(anchor, a), b)
  {
    var s := a + b;
    assert forall i :: 0 <= i < |a| ==> Expected(anchor, s, i) == Expected(anchor, a, i);
    assert forall i :: 0 <= i < |b| ==> Expected(anchor, s, |a| + i) == Expected(TipOf(anchor, a), b, i);
    if Verified(hash, anchor, s) {
      forall i | 0 <= i < |a| ensures Linked(hash, anchor, a, i) {
        assert Linked(hash, anchor, s, i);
      }
      forall i | 0 <= i < |b| ensures Linked(hash, TipOf(anchor, a), b, i) {
        assert Linked(hash, anchor, s, |a| + i);
      }
    }
    if Verified(hash, anchor, a) && Verified(hash, TipOf(anchor, a), b) {
      forall i | 0 <= i < |s| ensures Linked(hash, anchor, s, i) {
        if i < |a| {
          assert Linked(hash, anchor, a, i);
        } else {
          assert Linked(hash, TipOf(anchor, a), b, i - |a|);
        }
      }
    }
  }

  lemma DataConcat(a: seq<StoredEvent>, b: seq<StoredEvent>)
    ensures Data(a + b) == Data(a) + Data(b)
  {
  }

  /** Cutting a stream into batches does not change the chain. */
  lemma ChainConcat(hash: Digest, tip: string, a: seq<Payload>, b: seq<Payload>)
    ensures Chain(hash, tip, a + b) == Chain(hash, tip, a) + Chain(hash, TipOf(tip, Chain(hash, tip, a)), b)
  {
    var ca := Chain(hash, tip, a);
    var cb := Chain(hash, TipOf(tip, ca), b);
    assert Verified(hash, tip, ca + cb) by {
      ChainVerified(hash, tip, a);
      ChainVerified(hash, TipOf(tip, ca), b);
      VerifiedConcat(hash, tip, ca, cb);
    }
    assert Data(ca + cb) == a + b by {
      ChainVerified(hash, tip, a);
      ChainVerified(hash, TipOf(tip, ca), b);
      DataConcat(ca, cb);
    }
    ChainVerified(hash, tip, a + b);
    VerifiedUnique(hash, tip, Chain(hash, tip, a + b), ca + cb);
  }

  // ---- what the hashes fix ------------------------------------------------

  lemma OnlyFirstIsAnchored(hash: Digest, s: seq<StoredEvent>, i: nat)
    requires NeverEmpty(hash) && Verified(hash, "", s) && i < |s|
    ensures s[i].prevHash == "" <==> i == 0
    ensures s[i].eventHash == hash(s[i].prevHash, s[i].data) && s[i].eventHash != ""
  {
    assert Linked(hash, "", s, i);
    if i > 0 {
      assert Linked(hash, "", s, i - 1);
    }
  }

  /** Rows of verified chains with the same hash are the same row. */
  lemma SameHashSameRow(hash: Digest, a: seq<StoredEvent>, i: nat, b: seq<StoredEvent>, j: nat)
    requires NeverEmpty(hash) && CollisionFree(hash, a + b)
    requires Verified(hash, "", a) && Verified(hash, "", b) && i < |a| && j < |b|
    requires a[i].eventHash == b[j].eventHash
    ensures a[i] == b[j]
  {
    OnlyFirstIsAnchored(hash, a, i);
    OnlyFirstIsAnchored(hash, b, j);
    assert a[i] in a + b && b[j] in a + b && !Collides(hash, a[i], b[j]);
  }

  lemma CollisionFreeSubset(hash: Digest, s: seq<StoredEvent>, t: seq<StoredEvent>)
    requires CollisionFree(hash, s) && forall e :: e in t ==> e in s
    ensures CollisionFree(hash, t)
  {
  }

  /** The tip fixes the history: two verified logs with the same last hash hold
      the same events in the same order. */
  lemma {:induction false} TipFixesHistory(hash: Digest, a: seq<StoredEvent>, b: seq<StoredEvent>)
    requires NeverEmpty(hash) && CollisionFree(hash, a + b)
    requires Verified(hash, "", a) && Verified(hash, "", b)
    requires TipOf("", a) == TipOf("", b)
    ensures a == b
    decreases |a| + |b|
  {
    if a != [] && b != [] {
      var m, n := |a| - 1, |b| - 1;
      SameHashSameRow(hash, a, m, b, n);
      assert Linked(hash, "", a, m) && Linked(hash, "", b, n);
      VerifiedPrefix(hash, "", a, m);
      VerifiedPrefix(hash, "", b, n);
      CollisionFreeSubset(hash, a + b, a[..m] + b[..n]);
      TipFixesHistory(hash, a[..m], b[..n]);
      assert a == a[..m] + [a[m]] && b == b[..n] + [b[n]];
    } else if a != [] {
      OnlyFirstIsAnchored(hash, a, |a| - 1);
    } else if b != [] {
      OnlyFirstIsAnchored(hash, b, |b| - 1);
    }
  }

  /** No hash occurs twice in a verified chain. */
  lemma DistinctHashes(hash: Digest, c: seq<StoredEvent>, i: nat, j: nat)
    requires NeverEmpty(hash) && CollisionFree(hash, c) && Verified(hash, "", c)
    requires i < |c| && j < |c| && c[i].eventHash == c[j].eventHash
    ensures i == j
  {
    var a, b := c[..i + 1], c[..j + 1];
    VerifiedPrefix(hash, "", c, i + 1);
    VerifiedPrefix(hash, "", c, j + 1);
    CollisionFreeSubset(hash, c, a + b);
    TipFixesHistory(hash, a, b);
    assert |a| == |b|;
  }

  /** Rows of a chain, picked and ordered in any way, verify exactly when they
      are a prefix of that chain in the chain's own order. Losing rows,
      repeating them and reordering them are all covered. */
  lemma {:induction false} VerifiedSelection(hash: Digest, c: seq<StoredEvent>, p: seq<StoredEvent>)
    requires NeverEmpty(hash) && CollisionFree(hash, c) && Verified(hash, "", c)
    requires forall e :: e in p ==> e in c
    ensures Verified(hash, "", p) <==> p <= c
    decreases |p|
  {
    if p <= c {
      VerifiedPrefix(hash, "", c, |p|);
      assert p == c[..|p|];
    }
    if Verified(hash, "", p) && p != [] {
      var n := |p| - 1;
      VerifiedPrefix(hash, "", p, n);
      forall e | e in p[..n] ensures e in c { assert e in p; }
      VerifiedSelection(hash, c, p[..n]);
      assert p[n] in p;
      var j :| 0 <= j < |c| && c[j] == p[n];
      assert Linked(hash, "", p, n) && Linked(hash, "", c, j);
      OnlyFirstIsAnchored(hash, p, n);
      OnlyFirstIsAnchored(hash, c, j);
      if n > 0 {
        assert p[n - 1] == p[..n][n - 1] == c[n - 1];
        DistinctHashes(hash, c, n - 1, j - 1);
      }
      assert j == n;
      assert p == p[..n] + [p[n]];
    }
  }

  /** A row whose digested fields were changed while its hash columns were kept
      cannot occur in any log that verifies. */
  lemma ChangedRowRejected(hash: Digest, c: seq<StoredEvent>, i: nat, q: Payload, p: seq<StoredEvent>)
    requires NeverEmpty(hash) && Verified(hash, "", c) && i < |c| && q != c[i].data
    requires CollisionFree(hash, [c[i], c[i].(data := q)])
    requires c[i].(data := q) in p
    ensures !Verified(hash, "", p)
  {
    var changed := c[i].(data := q);
    var k :| 0 <= k < |p| && p[k] == changed;
    assert changed in [c[i], changed] && c[i] in [c[i], changed] && !Collides(hash, c[i], changed);
    if Verified(hash, "", p) {
      OnlyFirstIsAnchored(hash, c, i);
      OnlyFirstIsAnchored(hash, p, k);
    }
  }

  // ---- VerifyChain --------------------------------------------------------

  /** VerifyChain over the rows a scan delivers: accepts exactly the verified
      sequences, and otherwise reports the first row that is not linked. */
  method VerifyRows(hash: Digest, scan: seq<StoredEvent>) returns (r: VerifyResult)
    ensures r.Intact? <==> Verified(hash, "", scan)
    ensures !r.Intact? ==> r.at < |scan| && Verified(hash, "", scan[..r.at]) && !Linked(hash, "", scan, r.at)
    ensures r.PrevMismatch? ==> scan[r.at].prevHash != Expected("", scan, r.at)
    ensures r.HashMismatch? ==>
      scan[r.at].prevHash == Expected("", scan, r.at) &&
      scan[r.at].eventHash != hash(scan[r.at].prevHash, scan[r.at].data)
  {
    var prevHash := "";
    for i := 0 to |scan|
      invariant prevHash == Expected("", scan, i)
      invariant Verified(hash, "", scan[..i])
    {
      var e := scan[i];
      if e.prevHash != prevHash {
        assert !Linked(hash, "", scan, i);
        return PrevMismatch(i);
      }
      var want := hash(prevHash, e.data);
      if e.eventHash != want {
        assert !Linked(hash, "", scan, i);
        return HashMismatch(i);
      }
      prevHash := e.eventHash;
      assert scan[..i + 1] == scan[..i] + [e];
      VerifiedConcat(hash, "", scan[..i], [e]);
      assert Linked(hash, TipOf("", scan[..i]), [e], 0);
    }
    assert scan[..|scan|] == scan;
    return Intact;
  }
}
