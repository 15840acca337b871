/** Calls that the engine evaluates at the same time: each Allow is a step of its
    own, and any interleaving of steps is a run. Rules whose keys coincide may
    share a bucket. */
module EngineSteps {
  import opened Engine
  import opened Options
  import P = Policy
  import R = RateLimit

  // ---- the turns of one bucket --------------------------------------------

  /** One Allow on a bucket, and which call of interest it was for, if any. */
  datatype Turn = Turn(max: int, window: int, now: int, owner: Option<nat>)

  function AfterTurns(ts: seq<Turn>): Option<R.Bucket>
  {
    if ts == [] then None
    else
      var n := |ts| - 1;
      Some(R.Charged(AfterTurns(ts[..n]), ts[n].max, ts[n].window, ts[n].now))
  }

  predicate Admitted(ts: seq<Turn>, k: int)
    requires 0 <= k < |ts|
  {
    R.Admits(AfterTurns(ts[..k]), ts[k].max, ts[k].window, ts[k].now)
  }

  /** The turns of interest that got a token within [from, to). */
  function Hits(ts: seq<Turn>, from: int, to: int): nat
  {
    if ts == [] then 0
    else
      var n := |ts| - 1;
      Hits(ts[..n], from, to) + (if ts[n].owner.Some? && from <= ts[n].now < to && Admitted(ts, n) then 1 else 0)
  }

  /** Whoever shares the bucket has a window no shorter than this. */
  predicate NoShorter(max: int, window: int, ts: seq<Turn>)
  {
    forall i :: 0 <= i < |ts| ==>
      ts[i].max > 0 && ts[i].window >= window && (ts[i].owner.Some? ==> ts[i].max == max && ts[i].window == window)
  }

  predicate TurnsInOrder(ts: seq<Turn>)
  {
    forall i, j :: 0 <= i < j < |ts| ==> ts[i].now <= ts[j].now
  }

  /** How many hits there can be, by where the current window lies. */
  predicate Within(max: int, window: int, b: R.Bucket, last: int, hits: int, from: int)
  {
    && b.windowStart <= last && b.count >= 1 && hits <= 2 * max - 1
    && (last < from ==> hits == 0)
    && (b.windowStart < from ==> hits <= b.count - 1 && hits <= max - 1)
    && (from <= b.windowStart < from + window ==> hits <= max - 1 + b.count)
  }

  function HitBy(b: R.Bucket, t: Turn, from: int, to: int): int
  {
    if t.owner.Some? && from <= t.now < to && R.Admits(Some(b), t.max, t.window, t.now) then 1 else 0
  }

  lemma TurnKeepsWithin(max: int, window: int, b: R.Bucket, last: int, hits: int, from: int, t: Turn)
    requires max > 0 && window > 0 && Within(max, window, b, last, hits, from)
    requires t.max > 0 && t.window >= window && (t.owner.Some? ==> t.max == max && t.window == window) && t.now >= last
    ensures Within(max, window, R.Charged(Some(b), t.max, t.window, t.now), t.now,
      hits + HitBy(b, t, from, from + window), from)
  {
  }

  /** A bucket that is shared with limits of longer windows only keeps the bound of
      its own: whoever opens a new window waits at least as long. */
  lemma {:induction false} SharedWithin(max: int, window: int, ts: seq<Turn>, from: int)
    requires max > 0 && window > 0 && NoShorter(max, window, ts) && TurnsInOrder(ts)
    ensures Hits(ts, from, from + window) <= 2 * max - 1
    ensures ts != [] ==>
      Within(max, window, AfterTurns(ts).value, ts[|ts| - 1].now, Hits(ts, from, from + window), from)
    decreases |ts|
  {
    if ts != [] {
      var n := |ts| - 1;
      var front, t := ts[..n], ts[n];
      SharedWithin(max, window, front, from);
      if n > 0 {
        TurnKeepsWithin(max, window, AfterTurns(front).value, ts[n - 1].now, Hits(front, from, from + window), from, t);
      }
    }
  }

  /** Whose turns they were. */
  function Owners(ts: seq<Turn>, from: int, to: int): set<nat>
  {
    if ts == [] then {}
    else
      var n := |ts| - 1;
      Owners(ts[..n], from, to) +
      (if ts[n].owner.Some? && from <= ts[n].now < to && Admitted(ts, n) then {ts[n].owner.value} else {})
  }

  lemma {:induction false} OwnersCard(ts: seq<Turn>, from: int, to: int)
    ensures |Owners(ts, from, to)| <= Hits(ts, from, to)
    decreases |ts|
  {
    if ts != [] {
      OwnersCard(ts[..|ts| - 1], from, to);
    }
  }

  lemma {:induction false} OwnersBound(max: int, window: int, ts: seq<Turn>, from: int)
    requires max > 0 && window > 0 && NoShorter(max, window, ts) && TurnsInOrder(ts)
    ensures |Owners(ts, from, from + window)| <= 2 * max - 1
  {
    SharedWithin(max, window, ts, from);
    OwnersCard(ts, from, from + window);
  }

  predicate Token(ts: seq<Turn>, k: int, t: nat, now: int)
  {
    0 <= k < |ts| && ts[k].owner == Some(t) && ts[k].now == now && Admitted(ts, k)
  }

  ghost predicate HasToken(ts: seq<Turn>, t: nat, now: int)
  {
    exists k :: Token(ts, k, t, now)
  }

  lemma {:induction false} TokenOwned(ts: seq<Turn>, t: nat, now: int, from: int, to: int)
    requires HasToken(ts, t, now) && from <= now < to
    ensures t in Owners(ts, from, to)
    decreases |ts|
  {
    var n := |ts| - 1;
    var k :| Token(ts, k, t, now);
    if k < n {
      assert ts[..n][..k] == ts[..k];
      assert Token(ts[..n], k, t, now);
      TokenOwned(ts[..n], t, now, from, to);
    }
  }

  ghost predicate Holds(ts: seq<Turn>, t: nat, from: int, to: int)
  {
    exists now :: from <= now < to && HasToken(ts, t, now)
  }

  lemma Cardinality(a: set<nat>, b: set<nat>)
    requires a <= b
    ensures |a| <= |b|
  {
    assert b == a + (b - a);
  }

  /** Calls that each hold a token are no more than the bound. */
  lemma {:induction false} HoldersBound(max: int, window: int, ts: seq<Turn>, from: int, holders: set<nat>)
    requires max > 0 && window > 0 && NoShorter(max, window, ts) && TurnsInOrder(ts)
    requires forall t :: t in holders ==> Holds(ts, t, from, from + window)
    ensures |holders| <= 2 * max - 1
  {
    forall t | t in holders ensures t in Owners(ts, from, from + window) {
      var now :| from <= now < from + window && HasToken(ts, t, now);
      TokenOwned(ts, t, now, from, from + window);
    }
    OwnersBound(max, window, ts, from);
    Cardinality(holders, Owners(ts, from, from + window));
  }

  lemma TokenStays(ts: seq<Turn>, turn: Turn, t: nat, now: int)
    requires HasToken(ts, t, now)
    ensures HasToken(ts + [turn], t, now)
  {
    var k :| Token(ts, k, t, now);
    assert (ts + [turn])[..k] == ts[..k];
    assert Token(ts + [turn], k, t, now);
  }

  // ---- interleaved evaluations --------------------------------------------

  /** A call that the policy allows and that has passed the first rules, or one that
      is decided. */
  datatype Pc = Charging(req: Request, next: nat) | Done(req: Request, allowed: bool)

  datatype State = State(buckets: Buckets, threads: map<nat, Pc>)

  /** A call is put to the policy and reads the clock; it comes to its next rule. */
  datatype Event = Begin(t: nat, req: Request) | Go(t: nat)

  predicate Enabled(s: State, e: Event)
  {
    match e
    case Begin(t, _) => t !in s.threads
    case Go(t) => t in s.threads && s.threads[t].Charging?
  }

  function Move(s: State, t: nat, pc: Pc): State
  {
    s.(threads := s.threads[t := pc])
  }

  /** This step asks for a token of this rule. */
  predicate AsksAt(p: P.CompiledPolicy, s: State, e: Event)
  {
    e.Go? && Enabled(s, e) && s.threads[e.t].next < |p.allowRules| &&
    Limits(p.allowRules[s.threads[e.t].next], s.threads[e.t].req.call.name)
  }

  function Next(env: P.Env, p: P.CompiledPolicy, s: State, e: Event): State
    requires Enabled(s, e)
  {
    match e
    case Begin(t, req) =>
      Move(s, t, if P.Evaluate(env, p, req.call).action == "allow" then Charging(req, 0) else Done(req, false))
    case Go(t) =>
      var req, i := s.threads[t].req, s.threads[t].next;
      if i >= |p.allowRules| then Move(s, t, Done(req, true))
      else if !Limits(p.allowRules[i], req.call.name) then Move(s, t, Charging(req, i + 1))
      else
        var r := p.allowRules[i];
        Move(s, t, if AdmitsBy(r, req, s.buckets) then Charging(req, i + 1) else Done(req, false)).(
          buckets := s.buckets[KeyFor(r, req) := ChargedBy(r, req, s.buckets)])
  }

  function RunFrom(env: P.Env, p: P.CompiledPolicy, s: State, events: seq<Event>): Option<State>
  {
    if events == [] then Some(s)
    else
      var n := |events| - 1;
      var before := RunFrom(env, p, s, events[..n]);
      if before.Some? && Enabled(before.value, events[n]) then Some(Next(env, p, before.value, events[n])) else None
  }

  function Run(env: P.Env, p: P.CompiledPolicy, events: seq<Event>): Option<State>
  {
    RunFrom(env, p, State(map[], map[]), events)
  }

  // ---- the turns of a scope's bucket --------------------------------------

  /** The turn that this step takes at the scope's bucket, if it does. */
  function TurnOf(p: P.CompiledPolicy, s: State, e: Event, sc: Scope): seq<Turn>
    requires sc.rule.limit.Some?
  {
    if !AsksAt(p, s, e) then []
    else
      var req, r := s.threads[e.t].req, p.allowRules[s.threads[e.t].next];
      if KeyFor(r, req) != ScopeKey(sc) then []
      else [Turn(r.limit.value.max, r.limit.value.window, req.now,
                 if r == sc.rule && InScope(sc, req) then Some(e.t) else None)]
  }

  function Turns(env: P.Env, p: P.CompiledPolicy, events: seq<Event>, sc: Scope): seq<Turn>
    requires sc.rule.limit.Some? && Run(env, p, events).Some?
  {
    if events == [] then []
    else
      var n := |events| - 1;
      Turns(env, p, events[..n], sc) + TurnOf(p, Run(env, p, events[..n]).value, events[n], sc)
  }

  lemma StepOnBucket(env: P.Env, p: P.CompiledPolicy, s: State, e: Event, sc: Scope, ts: seq<Turn>)
    requires sc.rule.limit.Some? && Enabled(s, e) && R.Lookup(s.buckets, ScopeKey(sc)) == AfterTurns(ts)
    ensures R.Lookup(Next(env, p, s, e).buckets, ScopeKey(sc)) == AfterTurns(ts + TurnOf(p, s, e, sc))
  {
    var turn := TurnOf(p, s, e, sc);
    if turn == [] {
      assert ts + turn == ts;
    } else {
      assert (ts + turn)[..|ts|] == ts;
    }
  }

  /** Over every interleaving the scope's bucket is what its turns made of it. */
  lemma {:induction false} BucketIsItsTurns(env: P.Env, p: P.CompiledPolicy, events: seq<Event>, sc: Scope)
    requires sc.rule.limit.Some? && Run(env, p, events).Some?
    ensures R.Lookup(Run(env, p, events).value.buckets, ScopeKey(sc)) == AfterTurns(Turns(env, p, events, sc))
    decreases |events|
  {
    if events != [] {
      var n := |events| - 1;
      BucketIsItsTurns(env, p, events[..n], sc);
      StepOnBucket(env, p, Run(env, p, events[..n]).value, events[n], sc, Turns(env, p, events[..n], sc));
    }
  }

  /** The call has passed the scope's rule. */
  predicate Passed(p: P.CompiledPolicy, pc: Pc, sc: Scope)
  {
    (pc.Done? && pc.allowed) ||
    (pc.Charging? && exists i :: 0 <= i < pc.next && i < |p.allowRules| && p.allowRules[i] == sc.rule)
  }

  ghost predicate TokensHeld(p: P.CompiledPolicy, s: State, sc: Scope, ts: seq<Turn>)
    requires sc.rule.limit.Some?
  {
    forall t: nat {:trigger s.threads[t]} ::
      (t in s.threads && InScope(sc, s.threads[t].req) && Passed(p, s.threads[t], sc)) ==>
        HasToken(ts, t, s.threads[t].req.now)
  }

  lemma TokensStay(p: P.CompiledPolicy, s: State, e: Event, sc: Scope, ts: seq<Turn>, t: nat, now: int)
    requires sc.rule.limit.Some? && HasToken(ts, t, now)
    ensures HasToken(ts + TurnOf(p, s, e, sc), t, now)
  {
    var turn := TurnOf(p, s, e, sc);
    if turn == [] {
      assert ts + turn == ts;
    } else {
      TokenStays(ts, turn[0], t, now);
      assert ts + turn == ts + [turn[0]];
    }
  }

  /** A call in scope that passes the scope's rule gets its token by that. */
  lemma MoverHolds(env: P.Env, p: P.CompiledPolicy, s: State, e: Event, sc: Scope, ts: seq<Turn>)
    requires ScopeOf(p, sc) && Enabled(s, e) && TokensHeld(p, s, sc, ts)
    requires R.Lookup(s.buckets, ScopeKey(sc)) == AfterTurns(ts)
    requires var pc := Next(env, p, s, e).threads[e.t]; InScope(sc, pc.req) && Passed(p, pc, sc)
    ensures HasToken(ts + TurnOf(p, s, e, sc), e.t, Next(env, p, s, e).threads[e.t].req.now)
  {
    var pc := s.threads[e.t];
    if Passed(p, pc, sc) {
      TokensStay(p, s, e, sc, ts, e.t, pc.req.now);
    } else {
      assert pc.next < |p.allowRules| by {
        var i :| 0 <= i < |p.allowRules| && p.allowRules[i] == sc.rule;
      }
      assert p.allowRules[pc.next] == sc.rule && KeyFor(sc.rule, pc.req) == ScopeKey(sc);
      var all := ts + TurnOf(p, s, e, sc);
      assert all[..|ts|] == ts;
      assert Token(all, |ts|, e.t, pc.req.now);
    }
  }

  lemma {:induction false} PassedHoldTokens(env: P.Env, p: P.CompiledPolicy, events: seq<Event>, sc: Scope)
    requires ScopeOf(p, sc) && Run(env, p, events).Some?
    ensures TokensHeld(p, Run(env, p, events).value, sc, Turns(env, p, events, sc))
    decreases |events|
  {
    if events != [] {
      var n := |events| - 1;
      var s, e, ts := Run(env, p, events[..n]).value, events[n], Turns(env, p, events[..n], sc);
      var s' := Run(env, p, events).value;
      PassedHoldTokens(env, p, events[..n], sc);
      BucketIsItsTurns(env, p, events[..n], sc);
      forall t: nat | t in s'.threads && InScope(sc, s'.threads[t].req) && Passed(p, s'.threads[t], sc)
        ensures HasToken(Turns(env, p, events, sc), t, s'.threads[t].req.now)
      {
        if t == e.t {
          MoverHolds(env, p, s, e, sc, ts);
        } else {
          assert t in s.threads && s.threads[t] == s'.threads[t];
          TokensStay(p, s, e, sc, ts, t, s.threads[t].req.now);
        }
      }
    }
  }

  // ---- the bound ----------------------------------------------------------

  /** The calls in scope that were allowed with a reading in [from, to). */
  function AllowedIn(s: State, sc: Scope, from: int, to: int): set<nat>
    requires sc.rule.limit.Some?
  {
    set t | t in s.threads && s.threads[t].Done? && s.threads[t].allowed && InScope(sc, s.threads[t].req) &&
      from <= s.threads[t].req.now < to
  }

  /** No limited rule under which this call would charge the scope's bucket has a
      shorter window than the scope's. */
  predicate Spares(p: P.CompiledPolicy, sc: Scope, req: Request)
    requires sc.rule.limit.Some?
  {
    forall i :: 0 <= i < |p.allowRules| && ChargesKey(p.allowRules, req, ScopeKey(sc), i) ==>
      p.allowRules[i].limit.value.max > 0 && p.allowRules[i].limit.value.window >= sc.rule.limit.value.window
  }

  predicate AllSpare(p: P.CompiledPolicy, sc: Scope, events: seq<Event>)
    requires sc.rule.limit.Some?
  {
    forall i :: 0 <= i < |events| && events[i].Begin? ==> Spares(p, sc, events[i].req)
  }

  lemma {:induction false} ThreadsSpare(env: P.Env, p: P.CompiledPolicy, events: seq<Event>, sc: Scope, t: nat)
    requires sc.rule.limit.Some? && AllSpare(p, sc, events) && Run(env, p, events).Some?
    requires t in Run(env, p, events).value.threads
    ensures Spares(p, sc, Run(env, p, events).value.threads[t].req)
    decreases |events|
  {
    var n := |events| - 1;
    var s := Run(env, p, events[..n]).value;
    if t in s.threads {
      ThreadsSpare(env, p, events[..n], sc, t);
    }
  }

  lemma {:induction false} TurnsSpare(env: P.Env, p: P.CompiledPolicy, events: seq<Event>, sc: Scope)
    requires sc.rule.limit.Some? && AllSpare(p, sc, events) && Run(env, p, events).Some?
    ensures NoShorter(sc.rule.limit.value.max, sc.rule.limit.value.window, Turns(env, p, events, sc))
    decreases |events|
  {
    if events != [] {
      var n := |events| - 1;
      var s, e := Run(env, p, events[..n]).value, events[n];
      TurnsSpare(env, p, events[..n], sc);
      if AsksAt(p, s, e) {
        ThreadsSpare(env, p, events[..n], sc, e.t);
        var req, i := s.threads[e.t].req, s.threads[e.t].next;
        assert KeyFor(p.allowRules[i], req) == ScopeKey(sc) ==> ChargesKey(p.allowRules, req, ScopeKey(sc), i);
      }
    }
  }

  /** Every allowed call in scope holds a token of its own. */
  lemma {:induction false} AllowedHold(
    env: P.Env, p: P.CompiledPolicy, events: seq<Event>, sc: Scope, from: int, to: int)
    requires Run(env, p, events).Some? && ScopeOf(p, sc)
    ensures forall t :: t in AllowedIn(Run(env, p, events).value, sc, from, to) ==>
      Holds(Turns(env, p, events, sc), t, from, to)
  {
    var s, ts := Run(env, p, events).value, Turns(env, p, events, sc);
    PassedHoldTokens(env, p, events, sc);
    forall t | t in AllowedIn(s, sc, from, to) ensures Holds(ts, t, from, to) {
      assert Passed(p, s.threads[t], sc);
      assert HasToken(ts, t, s.threads[t].req.now);
    }
  }

  /** The engine's bound for calls evaluated at the same time, whatever names and
      client ids share the scope's bucket, if none of them brings a shorter window,
      and the bucket gets its calls in the order of their clock readings. */
  lemma {:induction false} InterleavedBound(env: P.Env, p: P.CompiledPolicy, events: seq<Event>, sc: Scope, from: int)
    requires Run(env, p, events).Some? && ScopeOf(p, sc) && PositiveLimit(sc.rule.limit.value)
    requires AllSpare(p, sc, events) && TurnsInOrder(Turns(env, p, events, sc))
    ensures |AllowedIn(Run(env, p, events).value, sc, from, from + sc.rule.limit.value.window)|
      <= 2 * sc.rule.limit.value.max - 1
  {
    var to := from + sc.rule.limit.value.window;
    var allowed, ts := AllowedIn(Run(env, p, events).value, sc, from, to), Turns(env, p, events, sc);
    TurnsSpare(env, p, events, sc);
    AllowedHold(env, p, events, sc, from, to);
    HoldersBound(sc.rule.limit.value.max, sc.rule.limit.value.window, ts, from, allowed);
  }

  /** Separable names spare the scope, and so do longer windows whatever the names. */
  lemma WhoSpares(p: P.CompiledPolicy, sc: Scope, req: Request)
    requires ScopeOf(p, sc) && PositiveLimit(sc.rule.limit.value)
    ensures Apart(p, sc, [req]) ==> Spares(p, sc, req)
    ensures (forall i :: 0 <= i < |p.allowRules| && p.allowRules[i].limit.Some? ==>
        p.allowRules[i].limit.value.max > 0 &&
        p.allowRules[i].limit.value.window >= sc.rule.limit.value.window) ==> Spares(p, sc, req)
  {
    if Apart(p, sc, [req]) {
      assert Separable([req][0].client, sc.client);
      var j :| 0 <= j < |p.allowRules| && p.allowRules[j] == sc.rule;
      forall i | 0 <= i < |p.allowRules| && ChargesKey(p.allowRules, req, ScopeKey(sc), i)
        ensures p.allowRules[i] == sc.rule
      {
        KeyInjective(p.allowRules[i], req.call.name, req.client, sc.rule, sc.tool, sc.client);
      }
    }
  }

  // ---- one call alone -----------------------------------------------------

  lemma RunThen(env: P.Env, p: P.CompiledPolicy, s: State, events: seq<Event>, e: Event)
    requires RunFrom(env, p, s, events).Some? && Enabled(RunFrom(env, p, s, events).value, e)
    ensures RunFrom(env, p, s, events + [e]) == Some(Next(env, p, RunFrom(env, p, s, events).value, e))
  {
    assert (events + [e])[..|events|] == events;
  }

  /** Where a call ends up that goes on alone from this rule. */
  function Alone(p: P.CompiledPolicy, s: State, t: nat, req: Request, next: nat): State
    requires next <= |p.allowRules|
  {
    var o := Charge(p.allowRules[next..], req, s.buckets);
    Move(s, t, Done(req, o.refused.None?)).(buckets := o.buckets)
  }

  /** One step of a call alone does not change where it ends up. */
  lemma AloneGoes(env: P.Env, p: P.CompiledPolicy, s: State, t: nat, req: Request, next: nat)
    requires next < |p.allowRules| && t in s.threads && s.threads[t] == Charging(req, next)
    ensures var s' := Next(env, p, s, Go(t));
      if s'.threads[t].Charging?
      then s'.threads[t] == Charging(req, next + 1) && Alone(p, s', t, req, next + 1) == Alone(p, s, t, req, next)
      else s' == Alone(p, s, t, req, next)
  {
    var rules := p.allowRules[next..];
    var s' := Next(env, p, s, Go(t));
    assert rules[0] == p.allowRules[next] && rules[1..] == p.allowRules[next + 1..];
    if s'.threads[t].Charging? {
      MovedTwice(s, t, Charging(req, next + 1), req);
    }
  }

  lemma MovedTwice(s: State, t: nat, pc: Pc, req: Request)
    ensures forall ok :: Move(s, t, pc).threads[t := Done(req, ok)] == s.threads[t := Done(req, ok)]
  {
  }

  lemma {:induction false} AloneEnds(
    env: P.Env, p: P.CompiledPolicy, s: State, events: seq<Event>, t: nat, req: Request, next: nat)
    returns (more: seq<Event>)
    requires RunFrom(env, p, s, events).Some? && next <= |p.allowRules|
    requires var m := RunFrom(env, p, s, events).value; t in m.threads && m.threads[t] == Charging(req, next)
    ensures forall i :: 0 <= i < |more| ==> more[i] == Go(t)
    ensures RunFrom(env, p, s, events + more) == Some(Alone(p, RunFrom(env, p, s, events).value, t, req, next))
    decreases |p.allowRules| - next
  {
    var m := RunFrom(env, p, s, events).value;
    RunThen(env, p, s, events, Go(t));
    if next == |p.allowRules| {
      more := [Go(t)];
      assert p.allowRules[next..] == [];
    } else {
      AloneGoes(env, p, m, t, req, next);
      if Next(env, p, m, Go(t)).threads[t].Charging? {
        var rest := AloneEnds(env, p, s, events + [Go(t)], t, req, next + 1);
        more := [Go(t)] + rest;
        assert events + more == events + [Go(t)] + rest;
      } else {
        more := [Go(t)];
      }
    }
  }

  /** The steps of one call, taken without another in between, amount to Evaluate. */
  lemma AloneIsStep(env: P.Env, p: P.CompiledPolicy, s: State, t: nat, req: Request) returns (events: seq<Event>)
    requires t !in s.threads
    ensures RunFrom(env, p, s, events) == Some(Move(s, t, Done(req, Allowed(env, p, req, s.buckets))).(
      buckets := Step(env, Some(p), req, s.buckets).buckets))
  {
    RunThen(env, p, s, [], Begin(t, req));
    assert [] + [Begin(t, req)] == [Begin(t, req)];
    events := [Begin(t, req)];
    if P.Evaluate(env, p, req.call).action == "allow" {
      RefuserIsLimited(p.allowRules, req, s.buckets);
      var more := AloneEnds(env, p, s, events, t, req, 0);
      events := events + more;
      assert p.allowRules[0..] == p.allowRules;
      MovedTwice(s, t, Charging(req, 0), req);
    }
  }
}
