/** What a touch of a session is worth when calls get the table's lock out of the
    order of their clock readings: its place in the list, and whether the session
    survives the next bind. */
module SessionOrder {
  import opened Options
  import opened Sessions

  // ---- the place of a touch -----------------------------------------------

  /** The call touches its session: a bind, or a lookup that finds it. */
  predicate Touches(l: Lru, op: Op, ttl: int)
  {
    op.BindOp? || Reply(l, op, ttl).Some?
  }

  /** The other sessions that stay. */
  function Others(l: Lru, op: Op, ttl: int): Lru
  {
    match op
    case BindOp(id, _, now, _, cap) =>
      var live := Fresh(l, now, ttl);
      Without(DropOldest(live, Excess(|live|, cap)), id)
    case LookupOp(id, _, _) => Without(l, id)
  }

  predicate TouchedFrom(l: Lru, t: int)
  {
    forall i :: 0 <= i < |l| ==> t <= l[i].touched
  }

  lemma Prepend(s: Slot, l: Lru)
    requires ByTouch(l) && TouchedFrom(l, s.touched)
    ensures ByTouch([s] + l)
  {
  }

  lemma {:induction false} FreshByTouch(l: Lru, now: int, ttl: int, t: int)
    requires ByTouch(l) && TouchedFrom(l, t)
    ensures ByTouch(Fresh(l, now, ttl)) && TouchedFrom(Fresh(l, now, ttl), t)
    decreases |l|
  {
    if l != [] {
      FreshByTouch(l[1..], now, ttl, l[0].touched);
      Prepend(l[0], Fresh(l[1..], now, ttl));
    }
  }

  lemma {:induction false} WithoutByTouch(l: Lru, id: string, t: int)
    requires ByTouch(l) && TouchedFrom(l, t)
    ensures ByTouch(Without(l, id)) && TouchedFrom(Without(l, id), t)
    decreases |l|
  {
    if l != [] {
      WithoutByTouch(l[1..], id, l[0].touched);
      Prepend(l[0], Without(l[1..], id));
    }
  }

  lemma OthersByTouch(l: Lru, op: Op, ttl: int)
    requires ByTouch(l)
    ensures ByTouch(Others(l, op, ttl))
  {
    var t := if l == [] then 0 else l[0].touched;
    WithoutByTouch(l, op.id, t);
    if op.BindOp? {
      var live := Fresh(l, op.now, ttl);
      FreshByTouch(l, op.now, ttl, t);
      WithoutByTouch(DropOldest(live, Excess(|live|, op.cap)), op.id, t);
    }
  }

  lemma PlacedEnds(l: Lru, s: Slot)
    requires ByTouch(l)
    ensures if TouchedBy(l, s.touched) then Placed(l, s) == l + [s]
      else l != [] && Placed(l, s)[|Placed(l, s)| - 1] == l[|l| - 1] && l[|l| - 1].touched > s.touched
  {
  }

  /** A call that touches its session puts it last, as the least-recently-used list
      has it, if and only if no other session that stays has a later reading.
      Otherwise the list ends with the session that it ended with before. */
  lemma TouchGoesLast(l: Lru, op: Op, ttl: int)
    requires ByTouch(l) && Touches(l, op, ttl)
    ensures AppliedByReading(l, op, ttl) == Applied(l, op, ttl) <==> TouchedBy(Others(l, op, ttl), End(op))
    ensures var rest, l' := Others(l, op, ttl), AppliedByReading(l, op, ttl);
      !TouchedBy(rest, End(op)) ==> rest != [] && l' != [] && l'[|l'| - 1] == rest[|rest| - 1]
  {
    var rest := Others(l, op, ttl);
    var s := Slot(op.id, if op.BindOp? then op.client else Find(l, op.id).value.client, End(op));
    OthersByTouch(l, op, ttl);
    assert AppliedByReading(l, op, ttl) == Placed(rest, s) && Applied(l, op, ttl) == rest + [s];
    PlacedEnds(rest, s);
    assert (rest + [s])[|rest + [s]| - 1] == s;
  }

  // ---- the next bind ------------------------------------------------------

  function Restricted(m: Table, ids: set<string>): (r: Table)
    ensures Within(r, m) && r.Keys == ids * m.Keys && |r| == |r.Keys|
  {
    map id | id in m && id in ids :: m[id]
  }

  /** Any number of oldest sessions can go. */
  lemma {:induction false} EvictionExists(m: Table, n: nat) returns (k: Table)
    requires n <= |m|
    ensures Evicts(m, n, k)
  {
    if n == 0 {
      k := m;
    } else {
      var k0 := EvictionExists(m, n - 1);
      KeysCard(k0);
      var gone := OldestOf(k0, k0.Keys);
      EvictOneMore(m, n - 1, k0, gone);
      k := k0 - {gone};
    }
  }

  lemma {:induction false} OldestOf(m: Table, ids: set<string>) returns (x: string)
    requires ids != {} && ids <= m.Keys
    ensures x in ids && forall id :: id in ids ==> m[x].expiresAt <= m[id].expiresAt
    decreases |ids|
  {
    var y :| y in ids;
    var rest := ids - {y};
    assert ids == rest + {y};
    if rest == {} {
      x := y;
    } else {
      x := OldestOf(m, rest);
      if m[y].expiresAt < m[x].expiresAt {
        x := y;
      }
    }
  }

  /** If at least cap - 1 others expire no earlier, those can be the survivors. */
  lemma EvictsThis(live: Table, cap: int, v: string) returns (k: Table)
    requires cap > 0 && v in live && |NotEarlier(live, v)| >= cap - 1
    ensures Evicts(live, Excess(|live|, cap), k) && v !in k
  {
    var ids := NotEarlier(live, v);
    var pool := Restricted(live, ids);
    assert ids * live.Keys == ids;
    SubsetCard(ids + {v}, live.Keys);
    KeysCard(live);
    k := EvictionExists(pool, |pool| - (cap - 1));
    assert Within(k, live);
    forall g, s | g in live && g !in k && s in k ensures live[g].expiresAt <= k[s].expiresAt {
      assert s in pool && (g in pool ==> pool[g].expiresAt <= k[s].expiresAt);
    }
  }

  /** If fewer than cap - 1 expire later, they and v can survive, with the youngest
      of the rest. */
  lemma EvictsOthers(live: Table, cap: int, v: string) returns (k: Table)
    requires cap > 0 && v in live && |Later(live, v)| < cap - 1
    ensures Evicts(live, Excess(|live|, cap), k) && v in k
  {
    if |live| < cap {
      k := live;
    } else {
      var top := Later(live, v) + {v};
      var pool, kept;
      pool, kept, k := EvictedBelow(live, top, |live| - cap + 1);
      forall g, s | g in live && g !in k && s in k ensures live[g].expiresAt <= k[s].expiresAt {
        assert live[g].expiresAt <= live[v].expiresAt;
        assert s in kept ==> pool[g].expiresAt <= kept[s].expiresAt;
      }
    }
  }

  /** n of the oldest outside of these ids go. */
  lemma EvictedBelow(live: Table, top: set<string>, n: nat) returns (pool: Table, kept: Table, k: Table)
    requires top <= live.Keys && n + |top| <= |live|
    ensures pool == Restricted(live, live.Keys - top) && Evicts(pool, n, kept)
    ensures Within(k, live) && k.Keys == top + kept.Keys && |k| == |live| - n
    ensures forall s :: s in kept ==> k[s] == kept[s]
  {
    var young := Restricted(live, top);
    pool := Restricted(live, live.Keys - top);
    KeysCard(live);
    assert (live.Keys - top) * live.Keys == live.Keys - top;
    kept := EvictionExists(pool, n);
    k := Joined(live, top, young, pool, kept);
  }

  lemma Joined(live: Table, top: set<string>, young: Table, pool: Table, kept: Table) returns (k: Table)
    requires top <= live.Keys && young == Restricted(live, top) && pool == Restricted(live, live.Keys - top)
    requires Within(kept, pool)
    ensures Within(k, live) && k.Keys == top + kept.Keys && |k| == |top| + |kept|
    ensures forall s :: s in kept ==> k[s] == kept[s]
  {
    k := young + kept;
    assert k.Keys == top + kept.Keys && top * kept.Keys == {};
    KeysCard(k);
    KeysCard(kept);
  }

  ghost predicate SurvivesAll(m: Table, id: string, b: Binding, now: int, cap: int, v: string)
  {
    forall m' :: BindTo(m, id, b, now, cap, m') ==> v in m'
  }

  ghost predicate SurvivesSome(m: Table, id: string, b: Binding, now: int, cap: int, v: string)
  {
    exists m' :: BindTo(m, id, b, now, cap, m') && v in m'
  }

  lemma BindEvictsThis(m: Table, id: string, b: Binding, now: int, cap: int, v: string) returns (m': Table)
    requires cap > 0 && v in Live(m, now) && v != id && |NotEarlier(Live(m, now), v)| >= cap - 1
    ensures BindTo(m, id, b, now, cap, m') && v !in m'
  {
    var k := EvictsThis(Live(m, now), cap, v);
    m' := k[id := b];
  }

  lemma BindEvictsOthers(m: Table, id: string, b: Binding, now: int, cap: int, v: string) returns (m': Table)
    requires cap > 0 && v in Live(m, now) && v != id && |Later(Live(m, now), v)| < cap - 1
    ensures BindTo(m, id, b, now, cap, m') && v in m'
  {
    var k := EvictsOthers(Live(m, now), cap, v);
    m' := k[id := b];
  }

  /** A live session survives a bind of another, however ties are broken, if and only
      if fewer than cap - 1 others expire no earlier; and it can survive it if and
      only if fewer than cap - 1 expire later. */
  lemma SurvivesExactly(m: Table, id: string, b: Binding, now: int, cap: int, v: string)
    requires cap > 0 && v in Live(m, now) && v != id
    ensures SurvivesAll(m, id, b, now, cap, v) <==> |NotEarlier(Live(m, now), v)| < cap - 1
    ensures SurvivesSome(m, id, b, now, cap, v) <==> |Later(Live(m, now), v)| < cap - 1
  {
    var live := Live(m, now);
    forall m' | BindTo(m, id, b, now, cap, m')
      ensures |NotEarlier(live, v)| < cap - 1 ==> v in m'
      ensures v in m' ==> |Later(live, v)| < cap - 1
    {
      SurvivesBind(m, id, b, now, cap, m', v);
    }
    if |NotEarlier(live, v)| >= cap - 1 {
      var m' := BindEvictsThis(m, id, b, now, cap, v);
    }
    if |Later(live, v)| < cap - 1 {
      var m' := BindEvictsOthers(m, id, b, now, cap, v);
    }
  }

  /** Another live session was last touched by an earlier reading. */
  predicate EarlierRead(live: Table, v: string, reading: int, ttl: int)
  {
    exists s :: s in live && s != v && live[s].expiresAt < reading + ttl
  }

  /** A session is looked up with some reading, and the next bind finds the table
      full. The session, though touched last, survives whatever ties do if and only
      if some other live session was touched by an earlier reading. */
  lemma LastTouchSurvives(
    m: Table, v: string, reading: int, found: Option<string>, m1: Table, ttl: int,
    id: string, b: Binding, now: int, cap: int)
    requires TableStep(m, LookupOp(v, reading, found), m1, ttl) && found.Some?
    requires now < reading + ttl && v != id && cap > 0 && |Live(m1, now)| == cap
    ensures SurvivesAll(m1, id, b, now, cap, v) <==> EarlierRead(Live(m1, now), v, reading, ttl)
  {
    var live := Live(m1, now);
    var others := NotEarlier(live, v);
    SurvivesExactly(m1, id, b, now, cap, v);
    KeysCard(live);
    SubsetCard(others + {v}, live.Keys);
    if EarlierRead(live, v, reading, ttl) {
      var s :| s in live && s != v && live[s].expiresAt < reading + ttl;
      assert s !in others + {v};
    } else {
      assert others + {v} == live.Keys;
    }
  }
}
