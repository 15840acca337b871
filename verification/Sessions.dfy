/** The session cache of internal/gateway/gateway.go: a map with a sliding expiry
    and a cap, and the proof that it behaves as a least-recently-used list.
    Session ids are never empty: the gateway binds freshly generated UUIDs. */
module Sessions {
  import opened Options

  datatype Binding = Binding(client: string, expiresAt: int)

  type Table = map<string, Binding>

  // ---- eviction -----------------------------------------------------------

  /** The bindings that have not expired. */
  function Live(m: Table, now: int): Table
  {
    map id | id in m && m[id].expiresAt > now :: m[id]
  }

  predicate Within(k: Table, m: Table)
  {
    forall id :: id in k ==> id in m && k[id] == m[id]
  }

  /** Everything removed expires no later than everything kept. */
  predicate OldestGone(m: Table, k: Table)
  {
    forall v, s :: v in m && v !in k && s in k ==> m[v].expiresAt <= k[s].expiresAt
  }

  /** k is m without n oldest bindings, or empty if there are not that many. Which
      of several equally old ones go is up to the map's iteration order. */
  predicate Evicts(m: Table, n: int, k: Table)
  {
    && Within(k, m) && OldestGone(m, k)
    && |k| == (if n <= 0 then |m| else if n >= |m| then 0 else |m| - n)
  }

  lemma WithoutOne(m: Table, id: string)
    requires id in m
    ensures |m - {id}| == |m| - 1
  {
  }

  lemma EvictOneMore(m: Table, n: nat, k: Table, id: string)
    requires Evicts(m, n, k) && id in k && forall s :: s in k ==> k[id].expiresAt <= k[s].expiresAt
    ensures Evicts(m, n + 1, k - {id})
  {
  }

  lemma WithinCard(k: Table, m: Table)
    requires Within(k, m)
    ensures |k| <= |m|
    ensures |k| == |m| ==> k == m
  {
    assert k.Keys <= m.Keys;
    SubsetCard(k.Keys, m.Keys);
    assert |k.Keys| == |k| && |m.Keys| == |m|;
  }

  lemma SubsetCard(a: set<string>, b: set<string>)
    requires a <= b
    ensures |a| <= |b|
    ensures |a| == |b| ==> a == b
  {
    assert b == a + (b - a);
    assert |b| == |a| + |b - a|;
  }

  /** How many must go before one more fits. */
  function Excess(size: nat, cap: int): int
  {
    if size >= cap then size - cap + 1 else 0
  }

  ghost predicate BindTo(m: Table, id: string, b: Binding, now: int, cap: int, m': Table)
  {
    exists k :: Evicts(Live(m, now), Excess(|Live(m, now)|, cap), k) && m' == k[id := b]
  }

  function LookupIn(m: Table, id: string, now: int, ttl: int): (r: (Table, Option<string>))
  {
    if id !in m then (m, None)
    else if m[id].expiresAt <= now then (m - {id}, None)
    else (m[id := Binding(m[id].client, now + ttl)], Some(m[id].client))
  }

  class SessionCache {
    var sessions: Table
    var ttl: int
    var maxEntries: int

    predicate Valid()
      reads this
    {
      ttl > 0 && maxEntries > 0 && "" !in sessions
    }

    constructor (ttl: int, maxEntries: int)
      requires ttl > 0 && maxEntries > 0
      ensures Valid() && sessions == map[] && this.ttl == ttl && this.maxEntries == maxEntries
    {
      sessions, this.ttl, this.maxEntries := map[], ttl, maxEntries;
    }

    /** Nonpositive settings are ignored; nothing is evicted here. */
    method SetSessionConfig(ttl: int, maxEntries: int)
      requires Valid()
      modifies this
      ensures Valid() && sessions == old(sessions)
      ensures this.ttl == if ttl > 0 then ttl else old(this.ttl)
      ensures this.maxEntries == if maxEntries > 0 then maxEntries else old(this.maxEntries)
    {
      if ttl > 0 {
        this.ttl := ttl;
      }
      if maxEntries > 0 {
        this.maxEntries := maxEntries;
      }
    }

    method EvictExpired(now: int)
      requires Valid()
      modifies this`sessions
      ensures Valid() && sessions == Live(old(sessions), now)
    {
      var rest := sessions.Keys;
      while rest != {}
        invariant Valid() && rest <= old(sessions).Keys && Within(sessions, old(sessions))
        invariant forall id :: id in rest ==> id in sessions
        invariant forall id :: id in old(sessions) && old(sessions)[id].expiresAt > now ==> id in sessions
        invariant forall id :: id in sessions && id !in rest ==> sessions[id].expiresAt > now
      {
        var id :| id in rest;
        rest := rest - {id};
        if sessions[id].expiresAt <= now {
          sessions := sessions - {id};
        }
      }
    }

    /** One pass for the oldest binding: none if there is no binding at all. */
    method Oldest() returns (oldestId: string)
      requires Valid()
      ensures oldestId == "" <==> sessions == map[]
      ensures oldestId != "" ==> oldestId in sessions
      ensures oldestId != "" ==> forall s :: s in sessions ==> sessions[oldestId].expiresAt <= sessions[s].expiresAt
    {
      oldestId := "";
      var oldest := 0;
      var first := true;
      var rest := sessions.Keys;
      while rest != {}
        invariant rest <= sessions.Keys
        invariant first ==> oldestId == "" && rest == sessions.Keys
        invariant !first ==> oldestId in sessions && sessions[oldestId].expiresAt == oldest
        invariant !first ==> forall s :: s in sessions && s !in rest ==> oldest <= sessions[s].expiresAt
      {
        var id :| id in rest;
        rest := rest - {id};
        if first || sessions[id].expiresAt < oldest {
          oldestId, oldest, first := id, sessions[id].expiresAt, false;
        }
      }
    }

    method EvictOldest(n: int)
      requires Valid()
      modifies this`sessions
      ensures Valid() && Evicts(old(sessions), n, sessions)
    {
      var i := 0;
      while i < n
        invariant 0 <= i && i <= if n >= 0 then n else 0
        invariant Valid() && Evicts(old(sessions), i, sessions)
      {
        var oldestId := Oldest();
        if oldestId == "" {
          assert |sessions| == 0;
          return;
        }
        EvictOneMore(old(sessions), i, sessions, oldestId);
        sessions := sessions - {oldestId};
        i := i + 1;
      }
    }

    /** bindSession reads the clock twice. */
    method Bind(id: string, client: string, now: int, later: int)
      requires Valid() && id != ""
      modifies this`sessions
      ensures Valid()
      ensures BindTo(old(sessions), id, Binding(client, later + ttl), now, maxEntries, sessions)
    {
      EvictExpired(now);
      ghost var live := sessions;
      if |sessions| >= maxEntries {
        EvictOldest(|sessions| - maxEntries + 1);
      }
      ghost var k := sessions;
      assert Evicts(live, Excess(|live|, maxEntries), k);
      sessions := sessions[id := Binding(client, later + ttl)];
    }

    method Lookup(id: string, now: int) returns (client: Option<string>)
      requires Valid()
      modifies this`sessions
      ensures Valid() && (sessions, client) == LookupIn(old(sessions), id, now, ttl)
    {
      if id !in sessions {
        return None;
      }
      var b := sessions[id];
      if b.expiresAt <= now {
        sessions := sessions - {id};
        return None;
      }
      sessions := sessions[id := b.(expiresAt := now + ttl)];
      return Some(b.client);
    }
  }

  lemma InsertCard(k: Table, id: string, b: Binding)
    ensures |k[id := b]| <= |k| + 1
  {
    assert k[id := b].Keys == k.Keys + {id};
    assert |k[id := b]| == |k[id := b].Keys| && |k| == |k.Keys|;
  }

  /** What eviction leaves room for. */
  lemma EvictedFits(live: Table, cap: int, k: Table)
    requires cap > 0 && Evicts(live, Excess(|live|, cap), k)
    ensures |k| <= cap - 1
    ensures |live| < cap ==> k == live
  {
    WithinCard(k, live);
  }

  /** What a bind leaves, whatever was there and whatever the cap was before: the
      new session is in, the size is within the cap, the others are live old
      bindings unchanged, a live session that went expires no later than any that
      stayed, and none goes unless the table was full. */
  lemma BindMeans(m: Table, id: string, b: Binding, now: int, cap: int, m': Table)
    requires cap > 0 && BindTo(m, id, b, now, cap, m')
    ensures id in m' && m'[id] == b
    ensures |m'| <= cap
    ensures forall s :: s in m' && s != id ==> s in m && m'[s] == m[s] && m[s].expiresAt > now
    ensures forall v, s :: v in Live(m, now) && v !in m' && s in m' && s != id ==> m[v].expiresAt <= m[s].expiresAt
    ensures |Live(m, now)| < cap ==> forall v :: v in Live(m, now) ==> v in m'
  {
    var k :| Evicts(Live(m, now), Excess(|Live(m, now)|, cap), k) && m' == k[id := b];
    EvictedFits(Live(m, now), cap, k);
    BoundMeans(m, id, b, now, cap, k);
  }

  /** The survivors of an eviction, and the new session. */
  lemma BoundMeans(m: Table, id: string, b: Binding, now: int, cap: int, k: Table)
    requires Within(k, Live(m, now)) && OldestGone(Live(m, now), k) && |k| <= cap - 1
    ensures |k[id := b]| <= cap
    ensures forall s :: s in k && s != id ==> s in m && k[s] == m[s] && m[s].expiresAt > now
    ensures forall v, s :: v in Live(m, now) && v !in k && s in k ==> m[v].expiresAt <= m[s].expiresAt
  {
    InsertCard(k, id, b);
  }

  // ---- the least-recently-used list ---------------------------------------

  /** A session and when it was last touched. */
  datatype Slot = Slot(id: string, client: string, touched: int)

  /** Least recently touched first. */
  type Lru = seq<Slot>

  function Fresh(l: Lru, now: int, ttl: int): Lru
  {
    if l == [] then []
    else if l[0].touched + ttl > now then [l[0]] + Fresh(l[1..], now, ttl)
    else Fresh(l[1..], now, ttl)
  }

  function Without(l: Lru, id: string): Lru
  {
    if l == [] then []
    else if l[0].id == id then Without(l[1..], id)
    else [l[0]] + Without(l[1..], id)
  }

  function DropOldest(l: Lru, n: int): Lru
  {
    if n <= 0 then l else if n >= |l| then [] else l[n..]
  }

  function Find(l: Lru, id: string): Option<Slot>
  {
    if l == [] then None else if l[0].id == id then Some(l[0]) else Find(l[1..], id)
  }

  /** Calls on the cache, with what the caller saw. The cap is the one in force. */
  datatype Op =
    | BindOp(id: string, client: string, now: int, later: int, cap: int)
    | LookupOp(id: string, now: int, found: Option<string>)

  /** The list after a call. */
  function Applied(l: Lru, op: Op, ttl: int): Lru
  {
    match op
    case BindOp(id, client, now, later, cap) =>
      var live := Fresh(l, now, ttl);
      Without(DropOldest(live, Excess(|live|, cap)), id) + [Slot(id, client, later)]
    case LookupOp(id, now, _) =>
      var s := Find(l, id);
      if s.None? then l
      else if s.value.touched + ttl <= now then Without(l, id)
      else Without(l, id) + [Slot(id, s.value.client, now)]
  }

  /** The reply the list gives. */
  function Reply(l: Lru, op: Op, ttl: int): Option<string>
    requires op.LookupOp?
  {
    var s := Find(l, op.id);
    if s.Some? && s.value.touched + ttl > op.now then Some(s.value.client) else None
  }

  // ---- a list for a table -------------------------------------------------

  function BindingOf(s: Slot, ttl: int): Binding
  {
    Binding(s.client, s.touched + ttl)
  }

  predicate ByTouch(l: Lru)
  {
    forall i, j :: 0 <= i < j < |l| ==> l[i].touched <= l[j].touched
  }

  predicate DistinctIds(l: Lru)
  {
    forall i, j :: 0 <= i < j < |l| ==> l[i].id != l[j].id
  }

  predicate Has(l: Lru, id: string)
  {
    exists i :: 0 <= i < |l| && l[i].id == id
  }

  predicate SlotsIn(m: Table, l: Lru, ttl: int)
  {
    forall i :: 0 <= i < |l| ==> l[i].id in m && m[l[i].id] == BindingOf(l[i], ttl)
  }

  predicate Covers(m: Table, l: Lru)
  {
    forall id {:trigger Has(l, id)} :: id in m ==> Has(l, id)
  }

  /** The list holds exactly the table's sessions, in order of last touch, which
      is order of expiry. */
  predicate Lists(m: Table, l: Lru, ttl: int)
  {
    SlotsIn(m, l, ttl) && Covers(m, l) && DistinctIds(l) && ByTouch(l)
  }

  lemma HasConcat(a: Lru, b: Lru, id: string)
    ensures Has(a + b, id) <==> Has(a, id) || Has(b, id)
  {
    var all := a + b;
    if i :| 0 <= i < |a| && a[i].id == id {
      assert all[i].id == id;
    }
    if i :| 0 <= i < |b| && b[i].id == id {
      assert all[|a| + i].id == id;
    }
    if i :| 0 <= i < |all| && all[i].id == id {
      assert if i < |a| then a[i].id == id else b[i - |a|].id == id;
    }
  }

  predicate Apart(a: Table, b: Table)
  {
    forall id :: id in a ==> id !in b
  }

  predicate Earlier(a: Table, b: Table)
  {
    forall x, y :: x in a && y in b ==> a[x].expiresAt <= b[y].expiresAt
  }

  /** Listings of an older and a younger part make a listing of the whole. */
  lemma ListsConcat(a: Table, x: Lru, b: Table, y: Lru, ttl: int)
    requires Lists(a, x, ttl) && Lists(b, y, ttl) && Apart(a, b) && Earlier(a, b)
    ensures Lists(a + b, x + y, ttl)
  {
    var all := x + y;
    forall i, j | 0 <= i < j < |all| ensures all[i].id != all[j].id && all[i].touched <= all[j].touched {
      if i < |x| && j >= |x| {
        assert all[i] == x[i] && all[j] == y[j - |x|];
        assert a[x[i].id].expiresAt <= b[y[j - |x|].id].expiresAt;
      }
    }
    forall id | id in a + b ensures Has(all, id) {
      HasConcat(x, y, id);
    }
  }

  lemma SingleLists(s: Slot, ttl: int)
    ensures Lists(map[s.id := BindingOf(s, ttl)], [s], ttl)
  {
    assert [s][0].id == s.id;
  }

  /** A session that expires last goes last. */
  lemma AppendLists(m: Table, l: Lru, s: Slot, ttl: int)
    requires Lists(m, l, ttl) && s.id !in m
    requires forall id :: id in m ==> m[id].expiresAt <= s.touched + ttl
    ensures Lists(m[s.id := BindingOf(s, ttl)], l + [s], ttl)
  {
    var one := map[s.id := BindingOf(s, ttl)];
    SingleLists(s, ttl);
    ListsConcat(m, l, one, [s], ttl);
    assert m + one == m[s.id := BindingOf(s, ttl)];
  }

  lemma {:induction false} YoungestOf(m: Table, ids: set<string>) returns (y: string)
    requires ids != {} && ids <= m.Keys
    ensures y in ids && forall id :: id in ids ==> m[id].expiresAt <= m[y].expiresAt
    decreases |ids|
  {
    var x :| x in ids;
    var rest := ids - {x};
    assert ids == rest + {x};
    if rest == {} {
      y := x;
    } else {
      y := YoungestOf(m, rest);
      if m[y].expiresAt < m[x].expiresAt {
        y := x;
      }
    }
  }

  /** Every table has a listing. */
  lemma {:induction false} Listing(m: Table, ttl: int) returns (l: Lru)
    ensures Lists(m, l, ttl)
    decreases |m|
  {
    if m == map[] {
      l := [];
    } else {
      assert m.Keys != {};
      var y := YoungestOf(m, m.Keys);
      WithoutOne(m, y);
      var front := Listing(m - {y}, ttl);
      var s := Slot(y, m[y].client, m[y].expiresAt - ttl);
      l := front + [s];
      AppendLists(m - {y}, front, s, ttl);
      assert (m - {y})[y := m[y]] == m;
    }
  }

  lemma {:induction false} ListLength(m: Table, l: Lru, ttl: int)
    requires Lists(m, l, ttl)
    ensures |l| == |m|
    decreases |l|
  {
    if l == [] {
      assert m.Keys == {} by {
        assert forall id :: id in m ==> Has(l, id);
      }
      assert |m| == |m.Keys|;
    } else {
      var last := l[|l| - 1];
      DropLast(m, l, ttl);
      ListLength(m - {last.id}, l[..|l| - 1], ttl);
      WithoutOne(m, last.id);
    }
  }

  lemma DropLast(m: Table, l: Lru, ttl: int)
    requires Lists(m, l, ttl) && l != []
    ensures Lists(m - {l[|l| - 1].id}, l[..|l| - 1], ttl)
  {
    var front, id := l[..|l| - 1], l[|l| - 1].id;
    assert forall i :: 0 <= i < |front| ==> front[i].id != id;
    forall x | x in m - {id} ensures Has(front, x) {
      assert Has(l, x);
      var i :| 0 <= i < |l| && l[i].id == x;
      assert front[i].id == x;
    }
  }

  // ---- the list operations on listings ------------------------------------

  lemma {:induction false} FreshConcat(a: Lru, b: Lru, now: int, ttl: int)
    ensures Fresh(a + b, now, ttl) == Fresh(a, now, ttl) + Fresh(b, now, ttl)
    decreases |a|
  {
    if a == [] {
      assert a + b == b;
    } else {
      assert (a + b)[1..] == a[1..] + b;
      FreshConcat(a[1..], b, now, ttl);
    }
  }

  lemma {:induction false} FreshIsAll(l: Lru, now: int, ttl: int)
    requires forall i :: 0 <= i < |l| ==> l[i].touched + ttl > now
    ensures Fresh(l, now, ttl) == l
    decreases |l|
  {
    if l != [] {
      FreshIsAll(l[1..], now, ttl);
    }
  }

  lemma {:induction false} FreshIsNone(l: Lru, now: int, ttl: int)
    requires forall i :: 0 <= i < |l| ==> l[i].touched + ttl <= now
    ensures Fresh(l, now, ttl) == []
    decreases |l|
  {
    if l != [] {
      FreshIsNone(l[1..], now, ttl);
    }
  }

  lemma HasTail(l: Lru, id: string)
    requires l != []
    ensures Has(l, id) <==> l[0].id == id || Has(l[1..], id)
  {
  }

  lemma {:induction false} WithoutKeeps(l: Lru, id: string)
    requires !Has(l, id)
    ensures Without(l, id) == l
    decreases |l|
  {
    if l != [] {
      HasTail(l, id);
      WithoutKeeps(l[1..], id);
    }
  }

  /** Removing a listed session splits the list around it. */
  lemma {:induction false} WithoutAt(l: Lru, i: nat)
    requires DistinctIds(l) && i < |l|
    ensures Without(l, l[i].id) == l[..i] + l[i + 1..]
    ensures Find(l, l[i].id) == Some(l[i])
    decreases |l|
  {
    var id := l[i].id;
    if i == 0 {
      assert forall j :: 0 <= j < |l[1..]| ==> l[1..][j].id != id;
      WithoutKeeps(l[1..], id);
    } else {
      assert l[1..][i - 1] == l[i];
      WithoutAt(l[1..], i - 1);
      assert l[0].id != id;
    }
  }

  lemma WithoutLists(m: Table, l: Lru, id: string, ttl: int)
    requires Lists(m, l, ttl)
    ensures Lists(m - {id}, Without(l, id), ttl)
  {
    if id in m {
      assert Has(l, id);
      var i :| 0 <= i < |l| && l[i].id == id;
      WithoutAt(l, i);
      CutLists(m, l, i, ttl);
    } else {
      assert forall i :: 0 <= i < |l| ==> l[i].id != id;
      WithoutKeeps(l, id);
      assert m - {id} == m;
    }
  }

  function Cut(l: Lru, i: nat): (r: Lru)
    requires i < |l|
    ensures |r| == |l| - 1
    ensures forall j :: 0 <= j < |r| ==> r[j] == l[if j < i then j else j + 1]
  {
    l[..i] + l[i + 1..]
  }

  lemma CutCovers(m: Table, l: Lru, i: nat, ttl: int, x: string)
    requires Lists(m, l, ttl) && i < |l| && x in m && x != l[i].id
    ensures Has(Cut(l, i), x)
  {
    assert Has(l, x);
    var j :| 0 <= j < |l| && l[j].id == x;
    assert Cut(l, i)[if j < i then j else j - 1].id == x;
  }

  lemma CutLists(m: Table, l: Lru, i: nat, ttl: int)
    requires Lists(m, l, ttl) && i < |l|
    ensures Lists(m - {l[i].id}, Cut(l, i), ttl)
  {
    var k, cut := m - {l[i].id}, Cut(l, i);
    assert DistinctIds(cut) && ByTouch(cut);
    assert SlotsIn(k, cut, ttl);
    forall x | x in k ensures Has(cut, x) {
      CutCovers(m, l, i, ttl, x);
    }
  }

  lemma FindLists(m: Table, l: Lru, id: string, ttl: int)
    requires Lists(m, l, ttl)
    ensures Find(l, id).Some? <==> id in m
    ensures id in m ==> m[id] == BindingOf(Find(l, id).value, ttl)
  {
    if id in m {
      assert Has(l, id);
      var i :| 0 <= i < |l| && l[i].id == id;
      WithoutAt(l, i);
    } else {
      FindMeans(l, id);
    }
  }

  lemma {:induction false} FindMeans(l: Lru, id: string)
    ensures Find(l, id).Some? ==> exists i :: 0 <= i < |l| && l[i] == Find(l, id).value && l[i].id == id
    decreases |l|
  {
    if l != [] && l[0].id != id {
      FindMeans(l[1..], id);
      if Find(l, id).Some? {
        var i :| 0 <= i < |l[1..]| && l[1..][i] == Find(l, id).value && l[1..][i].id == id;
        assert l[i + 1] == Find(l, id).value;
      }
    }
  }

  predicate TouchedBy(l: Lru, now: int)
  {
    forall i :: 0 <= i < |l| ==> l[i].touched <= now
  }

  /** The list with one more session, after all that were touched by then. */
  function Placed(l: Lru, s: Slot): Lru
  {
    if l == [] || l[|l| - 1].touched <= s.touched then l + [s]
    else Placed(l[..|l| - 1], s) + [l[|l| - 1]]
  }

  lemma LastIsOldest(m: Table, l: Lru, ttl: int, id: string)
    requires Lists(m, l, ttl) && l != [] && id in m
    ensures m[id].expiresAt <= l[|l| - 1].touched + ttl
  {
    assert Has(l, id);
    var i :| 0 <= i < |l| && l[i].id == id;
  }

  lemma {:induction false} PlacedLists(m: Table, l: Lru, s: Slot, ttl: int)
    requires Lists(m, l, ttl) && s.id !in m
    ensures Lists(m[s.id := BindingOf(s, ttl)], Placed(l, s), ttl)
    decreases |l|
  {
    if l == [] || l[|l| - 1].touched <= s.touched {
      forall id | id in m ensures m[id].expiresAt <= s.touched + ttl {
        assert Has(l, id);
        LastIsOldest(m, l, ttl, id);
      }
      AppendLists(m, l, s, ttl);
    } else {
      var last := l[|l| - 1];
      var rest := m - {last.id};
      DropLast(m, l, ttl);
      PlacedLists(rest, l[..|l| - 1], s, ttl);
      forall id | id in rest ensures rest[id].expiresAt <= last.touched + ttl {
        LastIsOldest(m, l, ttl, id);
      }
      AppendLists(rest[s.id := BindingOf(s, ttl)], Placed(l[..|l| - 1], s), last, ttl);
      assert rest[s.id := BindingOf(s, ttl)][last.id := BindingOf(last, ttl)] == m[s.id := BindingOf(s, ttl)];
    }
  }

  /** Touching a session puts it where its reading belongs. */
  lemma TouchLists(m: Table, l: Lru, s: Slot, ttl: int)
    requires Lists(m, l, ttl)
    ensures Lists(m[s.id := BindingOf(s, ttl)], Placed(Without(l, s.id), s), ttl)
  {
    var rest := m - {s.id};
    WithoutLists(m, l, s.id, ttl);
    PlacedLists(rest, Without(l, s.id), s, ttl);
    assert rest[s.id := BindingOf(s, ttl)] == m[s.id := BindingOf(s, ttl)];
  }

  // ---- refinement ---------------------------------------------------------

  /** The same sessions, still in order: only sessions touched at the same instant
      may have changed places. */
  ghost predicate TiesOnly(l: Lru, k: Lru)
  {
    (forall s :: s in l <==> s in k) && DistinctIds(k) && ByTouch(k)
  }

  lemma InListing(m: Table, l: Lru, s: Slot, ttl: int)
    requires Lists(m, l, ttl)
    ensures s in l <==> s.id in m && m[s.id] == BindingOf(s, ttl)
  {
    if s.id in m {
      assert Has(l, s.id);
      var i :| 0 <= i < |l| && l[i].id == s.id;
    }
  }

  /** Any two listings of one table differ in ties only. */
  lemma ListingsTie(m: Table, l: Lru, k: Lru, ttl: int)
    requires Lists(m, l, ttl) && Lists(m, k, ttl)
    ensures TiesOnly(l, k)
  {
    forall s ensures s in l <==> s in k {
      InListing(m, l, s, ttl);
      InListing(m, k, s, ttl);
    }
  }

  /** A listing of the live sessions that puts the victims first. */
  lemma LiveListing(live: Table, k: Table, ttl: int) returns (v: Lru, kept: Lru)
    requires Within(k, live) && OldestGone(live, k)
    ensures Lists(live, v + kept, ttl) && Lists(k, kept, ttl)
    ensures |v + kept| == |live| && |kept| == |k|
  {
    var victims := live - k.Keys;
    v := Listing(victims, ttl);
    kept := Listing(k, ttl);
    ListsConcat(victims, v, k, kept, ttl);
    assert victims + k == live;
    ListLength(live, v + kept, ttl);
    ListLength(k, kept, ttl);
  }

  lemma FreshListing(live: Table, l: Lru, now: int, ttl: int)
    requires Lists(live, l, ttl) && forall id :: id in live ==> live[id].expiresAt > now
    ensures Fresh(l, now, ttl) == l
  {
    FreshIsAll(l, now, ttl);
  }

  /** Any listing of the live sessions extends to one of the whole table, whose
      fresh part it is. */
  lemma AddExpired(m: Table, now: int, x: Lru, ttl: int) returns (l: Lru)
    requires Lists(Live(m, now), x, ttl)
    ensures Lists(m, l, ttl) && Fresh(l, now, ttl) == x
  {
    var live := Live(m, now);
    var dead := m - live.Keys;
    var e := Listing(dead, ttl);
    ListsConcat(dead, e, live, x, ttl);
    assert dead + live == m;
    l := e + x;
    FreshConcat(e, x, now, ttl);
    FreshIsNone(e, now, ttl);
    FreshListing(live, x, now, ttl);
    assert [] + x == x;
  }

  lemma DropToKept(live: Lru, kept: Lru, n: int)
    requires |kept| == (if n <= 0 then |live| else if n >= |live| then 0 else |live| - n)
    requires |kept| <= |live| && live[|live| - |kept|..] == kept
    ensures DropOldest(live, n) == kept
  {
  }

  /** The list after a call, kept in order of the clock readings. */
  function AppliedByReading(l: Lru, op: Op, ttl: int): Lru
  {
    match op
    case BindOp(id, client, now, later, cap) =>
      var live := Fresh(l, now, ttl);
      Placed(Without(DropOldest(live, Excess(|live|, cap)), id), Slot(id, client, later))
    case LookupOp(id, now, _) =>
      var s := Find(l, id);
      if s.None? then l
      else if s.value.touched + ttl <= now then Without(l, id)
      else Placed(Without(l, id), Slot(id, s.value.client, now))
  }

  predicate Replies(l: Lru, op: Op, ttl: int)
  {
    op.LookupOp? ==> op.found == Reply(l, op, ttl)
  }

  ghost predicate TableStep(m: Table, op: Op, m': Table, ttl: int)
  {
    match op
    case BindOp(id, client, now, later, cap) => BindTo(m, id, Binding(client, later + ttl), now, cap, m')
    case LookupOp(id, now, found) => (m', found) == LookupIn(m, id, now, ttl)
  }

  function Start(op: Op): int
  {
    op.now
  }

  function End(op: Op): int
  {
    if op.BindOp? then op.later else op.now
  }

  /** Some listing of the table leads the list's bind to exactly these survivors. */
  lemma BindListing(m: Table, t: Table, op: Op, ttl: int) returns (k: Lru, kept: Lru)
    requires op.BindOp? && Evicts(Live(m, op.now), Excess(|Live(m, op.now)|, op.cap), t)
    ensures Lists(m, k, ttl) && Lists(t, kept, ttl)
    ensures AppliedByReading(k, op, ttl) == Placed(Without(kept, op.id), Slot(op.id, op.client, op.later))
  {
    var live := Live(m, op.now);
    var v;
    v, kept := LiveListing(live, t, ttl);
    k := AddExpired(m, op.now, v + kept, ttl);
    assert (v + kept)[|v|..] == kept;
    DropToKept(v + kept, kept, Excess(|live|, op.cap));
  }

  lemma BindRefines(m: Table, op: Op, m': Table, ttl: int) returns (k: Lru)
    requires op.BindOp? && TableStep(m, op, m', ttl)
    ensures Lists(m, k, ttl) && Lists(m', AppliedByReading(k, op, ttl), ttl)
  {
    var t :| Evicts(Live(m, op.now), Excess(|Live(m, op.now)|, op.cap), t)
      && m' == t[op.id := Binding(op.client, op.later + ttl)];
    var kept;
    k, kept := BindListing(m, t, op, ttl);
    TouchLists(t, kept, Slot(op.id, op.client, op.later), ttl);
  }

  lemma LookupRefines(m: Table, op: Op, m': Table, l: Lru, ttl: int)
    requires op.LookupOp? && Lists(m, l, ttl) && TableStep(m, op, m', ttl)
    ensures Replies(l, op, ttl) && Lists(m', AppliedByReading(l, op, ttl), ttl)
  {
    FindLists(m, l, op.id, ttl);
    if op.id in m {
      if m[op.id].expiresAt <= op.now {
        WithoutLists(m, l, op.id, ttl);
      } else {
        FindMeans(l, op.id);
        TouchLists(m, l, Slot(op.id, m[op.id].client, op.now), ttl);
      }
    }
  }

  /** m can be the table after these calls, from an empty one. */
  ghost predicate TableRun(ops: seq<Op>, m: Table, ttl: int)
    decreases |ops|
  {
    if ops == [] then m == map[]
    else
      var n := |ops| - 1;
      exists m0: Table :: TableRun(ops[..n], m0, ttl) && TableStep(m0, ops[n], m, ttl)
  }

  /** l can be the list after them, kept in order of readings, if equal readings
      may be reordered before each call. */
  ghost predicate ReadingRun(ops: seq<Op>, l: Lru, ttl: int)
    decreases |ops|
  {
    if ops == [] then l == []
    else
      var n := |ops| - 1;
      exists l0: Lru, k: Lru :: ReadingRun(ops[..n], l0, ttl) && TiesOnly(l0, k) && ReadingStep(k, ops[n], l, ttl)
  }

  predicate ReadingStep(l: Lru, op: Op, l': Lru, ttl: int)
  {
    Replies(l, op, ttl) && l' == AppliedByReading(l, op, ttl)
  }

  /** Refinement, for every run with a fixed TTL, whatever the clock readings and
      in whatever order calls get the lock: the table gives the replies of the list
      with expiry that is ordered by the reading of the last touch, and ends as a
      table that the final list lists. Caps may change from call to call. */
  lemma {:induction false} RefinesByReading(ops: seq<Op>, m: Table, ttl: int) returns (l: Lru)
    requires TableRun(ops, m, ttl)
    ensures ReadingRun(ops, l, ttl) && Lists(m, l, ttl)
    decreases |ops|
  {
    if ops == [] {
      l := [];
    } else {
      var front, op := ops[..|ops| - 1], ops[|ops| - 1];
      var m0: Table :| TableRun(front, m0, ttl) && TableStep(m0, op, m, ttl);
      var l0 := RefinesByReading(front, m0, ttl);
      var k := l0;
      if op.BindOp? {
        k := BindRefines(m0, op, m, ttl);
      } else {
        LookupRefines(m0, op, m, l0, ttl);
      }
      ListingsTie(m0, l0, k, ttl);
      l := AppliedByReading(k, op, ttl);
      assert ReadingStep(k, op, l, ttl);
    }
  }

  // ---- readings in lock order ---------------------------------------------

  /** Calls get the lock in the order of their readings: the readings do not go
      back, within a call or between calls. */
  predicate Ticks(ops: seq<Op>)
  {
    && (forall i :: 0 <= i < |ops| ==> Start(ops[i]) <= End(ops[i]))
    && (forall i, j :: 0 <= i < j < |ops| ==> End(ops[i]) <= Start(ops[j]))
  }

  predicate Step(l: Lru, op: Op, l': Lru, ttl: int)
  {
    Replies(l, op, ttl) && l' == Applied(l, op, ttl)
  }

  /** l can be the least-recently-used list after these calls, in which a touched
      session goes last, if ties may be reordered before each call. */
  ghost predicate LruRun(ops: seq<Op>, l: Lru, ttl: int)
    decreases |ops|
  {
    if ops == [] then l == []
    else
      var n := |ops| - 1;
      exists l0: Lru, k: Lru :: LruRun(ops[..n], l0, ttl) && TiesOnly(l0, k) && Step(k, ops[n], l, ttl)
  }

  lemma {:induction false} PartsTouched(l: Lru, now: int, id: string, n: int, t: int, ttl: int)
    requires TouchedBy(l, t)
    ensures TouchedBy(Without(l, id), t) && TouchedBy(Fresh(l, now, ttl), t) && TouchedBy(DropOldest(l, n), t)
    decreases |l|
  {
    if l != [] {
      PartsTouched(l[1..], now, id, 0, t, ttl);
    }
  }

  lemma PlacedLast(l: Lru, s: Slot)
    requires TouchedBy(l, s.touched)
    ensures Placed(l, s) == l + [s] && TouchedBy(l + [s], s.touched)
  {
  }

  /** A call whose readings come after all touches puts its session last. */
  lemma ByReadingIsByCall(l: Lru, op: Op, ttl: int)
    requires TouchedBy(l, Start(op)) && Start(op) <= End(op)
    ensures AppliedByReading(l, op, ttl) == Applied(l, op, ttl) && TouchedBy(Applied(l, op, ttl), End(op))
  {
    match op
    case BindOp(id, client, now, later, cap) =>
      var live := Fresh(l, now, ttl);
      var kept := DropOldest(live, Excess(|live|, cap));
      PartsTouched(l, now, id, 0, later, ttl);
      PartsTouched(live, now, id, Excess(|live|, cap), later, ttl);
      PartsTouched(kept, now, id, 0, later, ttl);
      PlacedLast(Without(kept, id), Slot(id, client, later));
    case LookupOp(id, now, _) =>
      PartsTouched(l, now, id, 0, now, ttl);
      if Find(l, id).Some? {
        PlacedLast(Without(l, id), Slot(id, Find(l, id).value.client, now));
      }
  }

  lemma TiesTouched(l: Lru, k: Lru, now: int)
    requires TiesOnly(l, k) && TouchedBy(l, now)
    ensures TouchedBy(k, now)
  {
    forall i | 0 <= i < |k| ensures k[i].touched <= now {
      assert k[i] in k && k[i] in l;
    }
  }

  lemma {:induction false} OrderedReadings(ops: seq<Op>, l: Lru, ttl: int)
    requires ReadingRun(ops, l, ttl) && Ticks(ops)
    ensures LruRun(ops, l, ttl)
    ensures ops != [] ==> TouchedBy(l, End(ops[|ops| - 1]))
    decreases |ops|
  {
    if ops != [] {
      var n := |ops| - 1;
      var front, op := ops[..n], ops[n];
      var l0: Lru, k: Lru :| ReadingRun(front, l0, ttl) && TiesOnly(l0, k) && ReadingStep(k, op, l, ttl);
      OrderedReadings(front, l0, ttl);
      if n > 0 {
        assert End(ops[n - 1]) <= Start(ops[n]);
      }
      TiesTouched(l0, k, Start(op));
      ByReadingIsByCall(k, op, ttl);
      assert Step(k, op, l, ttl);
    }
  }

  /** Where calls get the lock in the order of their readings, as with one request
      at a time, that list is the least-recently-used list: what is touched goes
      last. */
  lemma RefinesLru(ops: seq<Op>, m: Table, ttl: int) returns (l: Lru)
    requires TableRun(ops, m, ttl) && Ticks(ops)
    ensures LruRun(ops, l, ttl) && Lists(m, l, ttl)
    ensures ops != [] ==> TouchedBy(l, End(ops[|ops| - 1]))
  {
    l := RefinesByReading(ops, m, ttl);
    OrderedReadings(ops, l, ttl);
  }

  lemma RunThen(ops: seq<Op>, m: Table, op: Op, m': Table, ttl: int)
    requires TableRun(ops, m, ttl) && TableStep(m, op, m', ttl)
    ensures TableRun(ops + [op], m', ttl)
  {
    assert (ops + [op])[..|ops|] == ops;
  }

  /** The table with this one session, or these two. */
  function One(id: string, expiresAt: int): Table
  {
    map[id := Binding("c", expiresAt)]
  }

  function Two(a: string, x: int, b: string, y: int): Table
  {
    One(a, x)[b := Binding("c", y)]
  }

  lemma LookupRenews(now: int)
    requires 0 <= now < 100
    ensures TableStep(Two("a", 100, "b", 110), LookupOp("a", now, Some("c")), Two("a", now + 100, "b", 110), 100)
  {
    assert Two("a", 100, "b", 110)["a" := Binding("c", now + 100)] == Two("a", now + 100, "b", 110);
  }

  lemma ThirdEvicts(expiresAt: int)
    requires 11 < expiresAt <= 110
    ensures TableStep(Two("a", expiresAt, "b", 110), BindOp("d", "c", 11, 11, 2), Two("b", 110, "d", 111), 100)
  {
    assert Two("a", expiresAt, "b", 110).Keys == {"a", "b"};
    KeysCard(Two("a", expiresAt, "b", 110));
    EvictsFirst(Two("a", expiresAt, "b", 110), One("b", 110), BindOp("d", "c", 11, 11, 2), Two("b", 110, "d", 111));
  }

  lemma FirstTwo()
    ensures TableStep(map[], BindOp("a", "c", 0, 0, 2), One("a", 100), 100)
    ensures TableStep(One("a", 100), BindOp("b", "c", 10, 10, 2), Two("a", 100, "b", 110), 100)
  {
    BindsInto(map[], map[], BindOp("a", "c", 0, 0, 2), One("a", 100));
    BindsInto(One("a", 100), One("a", 100), BindOp("b", "c", 10, 10, 2), Two("a", 100, "b", 110));
  }

  lemma TwoMore(ops: seq<Op>, m: Table, x: Op, m1: Table, y: Op, m2: Table, ttl: int)
    requires TableRun(ops, m, ttl) && TableStep(m, x, m1, ttl) && TableStep(m1, y, m2, ttl)
    ensures TableRun(ops + [x] + [y], m2, ttl)
  {
    RunThen(ops, m, x, m1, ttl);
    RunThen(ops + [x], m1, y, m2, ttl);
  }

  lemma FourCalls(a: Op, b: Op, c: Op, d: Op, m1: Table, m2: Table, m3: Table, m4: Table, ttl: int)
    requires TableStep(map[], a, m1, ttl) && TableStep(m1, b, m2, ttl)
    requires TableStep(m2, c, m3, ttl) && TableStep(m3, d, m4, ttl)
    ensures TableRun([a, b, c, d], m4, ttl)
  {
    var none: seq<Op> := [];
    TwoMore(none, map[], a, m1, b, m2, ttl);
    TwoMore(none + [a] + [b], m2, c, m3, d, m4, ttl);
    ListOfFour(none, a, b, c, d);
  }

  lemma ListOfFour(none: seq<Op>, a: Op, b: Op, c: Op, d: Op)
    requires none == []
    ensures none + [a] + [b] + [c] + [d] == [a, b, c, d]
  {
  }

  /** A lookup reads the clock before it takes the lock. One that read 5 and got
      the lock after a bind that read 10 renews its session only up to its own
      reading: the next bind evicts it, although it was touched last. */
  lemma LateLookupLoses()
    ensures TableRun(
      [BindOp("a", "c", 0, 0, 2), BindOp("b", "c", 10, 10, 2), LookupOp("a", 5, Some("c")),
       BindOp("d", "c", 11, 11, 2)],
      Two("b", 110, "d", 111), 100)
    ensures "a" !in Two("b", 110, "d", 111)
  {
    FirstTwo();
    LookupRenews(5);
    ThirdEvicts(105);
    FourCalls(BindOp("a", "c", 0, 0, 2), BindOp("b", "c", 10, 10, 2), LookupOp("a", 5, Some("c")),
      BindOp("d", "c", 11, 11, 2), One("a", 100), Two("a", 100, "b", 110), Two("a", 105, "b", 110),
      Two("b", 110, "d", 111), 100);
  }

  lemma BindsInto(m: Table, live: Table, op: Op, m': Table)
    requires op.BindOp? && live == Live(m, op.now) && |live| < op.cap
    requires m' == live[op.id := Binding(op.client, op.later + 100)]
    ensures TableStep(m, op, m', 100)
  {
    assert Evicts(live, Excess(|live|, op.cap), live);
  }

  lemma EvictsFirst(m: Table, k: Table, op: Op, m': Table)
    requires op.BindOp? && Live(m, op.now) == m && |m| == op.cap && Within(k, m) && OldestGone(m, k)
    requires |k| == |m| - 1 && m' == k[op.id := Binding(op.client, op.later + 100)]
    ensures TableStep(m, op, m', 100)
  {
    assert Evicts(Live(m, op.now), Excess(|m|, op.cap), k);
  }

  // ---- without ties the list is determined --------------------------------

  predicate StrictlyByTouch(l: Lru)
  {
    forall i, j :: 0 <= i < j < |l| ==> l[i].touched < l[j].touched
  }

  /** Where no two sessions were touched at the same instant there is nothing to
      reorder: the run of the list is a function of the calls. */
  lemma {:induction false} NoTiesNoChoice(l: Lru, k: Lru)
    requires StrictlyByTouch(l) && TiesOnly(l, k)
    ensures l == k
    decreases |l|
  {
    if l == [] {
      FirstIsIn(k);
    } else {
      var a := l[|l| - 1];
      assert a in l && a in k;
      var n := |k| - 1;
      var b := k[n];
      assert b in k && b in l;
      var i :| 0 <= i < |k| && k[i] == a;
      assert a.touched <= b.touched;
      assert a == b;
      SameFronts(l, k);
      NoTiesNoChoice(l[..|l| - 1], k[..n]);
    }
  }

  lemma FirstIsIn(l: Lru)
    ensures l == [] || l[0] in l
  {
  }

  lemma SameFronts(l: Lru, k: Lru)
    requires l != [] && k != [] && l[|l| - 1] == k[|k| - 1]
    requires StrictlyByTouch(l) && TiesOnly(l, k)
    ensures TiesOnly(l[..|l| - 1], k[..|k| - 1])
  {
    var a, x, y := l[|l| - 1], l[..|l| - 1], k[..|k| - 1];
    assert forall i :: 0 <= i < |x| ==> x[i].touched < a.touched;
    assert forall i :: 0 <= i < |y| ==> y[i].id != a.id;
    forall s ensures s in x <==> s in y {
      assert s in l <==> s in x || s == a;
      assert s in k <==> s in y || s == a;
    }
  }

  // ---- who survives a bind ------------------------------------------------

  /** The other sessions that expire no earlier than v. */
  function NotEarlier(live: Table, v: string): set<string>
    requires v in live
  {
    set s | s in live && s != v && live[s].expiresAt >= live[v].expiresAt
  }

  /** The sessions that expire later than v. */
  function Later(live: Table, v: string): set<string>
    requires v in live
  {
    set s | s in live && live[s].expiresAt > live[v].expiresAt
  }

  lemma KeysCard(m: Table)
    ensures |m| == |m.Keys|
  {
  }

  /** A live session survives a bind if fewer than cap - 1 others expire no earlier,
      and only if fewer than cap - 1 expire later. Without equal expiries the two
      are one condition. */
  lemma SurvivesBind(m: Table, id: string, b: Binding, now: int, cap: int, m': Table, v: string)
    requires cap > 0 && BindTo(m, id, b, now, cap, m') && v in Live(m, now) && v != id
    ensures |NotEarlier(Live(m, now), v)| < cap - 1 ==> v in m'
    ensures v in m' ==> |Later(Live(m, now), v)| < cap - 1
    ensures |Live(m, now)| < cap ==> v in m'
  {
    var live := Live(m, now);
    var k :| Evicts(live, Excess(|live|, cap), k) && m' == k[id := b];
    KeysCard(k);
    if v !in k {
      assert k.Keys <= NotEarlier(live, v);
      SubsetCard(k.Keys, NotEarlier(live, v));
      WithinCard(k, live);
    } else {
      assert Later(live, v) <= k.Keys - {v};
      SubsetCard(Later(live, v), k.Keys - {v});
    }
  }
}
