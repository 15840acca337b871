/** The concurrent cache protocol of internal/upstream/manager.go: single-flight
    warmup through a channel, background refreshes behind a compare-and-swap, and
    invalidation. Every call is a thread that moves from one critical section or
    network answer to the next; any interleaving is a run. */
module UpstreamManager {
  import opened Options
  import T = ToolCache

  datatype Config = Config(entries: seq<T.Entry>, ttl: int)

  /** The fields under the mutex and the atomic flag. A channel is a number. */
  datatype Shared = Shared(cached: Option<T.Cache>, loading: Option<nat>, bgRefresh: bool)

  datatype Outcome = Ready | Got(cache: T.Cache) | NotReady | Cancelled | Failed | Ended

  datatype Role = Leader(ch: nat) | Background

  /** Where a thread stands. */
  datatype Pc =
    // in doRefresh, with these answers so far, and a request out or not
    | Refreshing(role: Role, lists: seq<seq<T.Tool>>, asking: bool)
    | Releasing(ch: nat, ok: bool)                    // doRefresh is over, loading not yet cleared
    | Closing(ch: nat, ok: bool)                      // loading cleared, channel not yet closed
    | Waiting(ch: nat)                                // blocked on another call's channel
    | Woken                                           // channel closed, cache not yet looked at
    | Swapping(stale: T.Cache)                        // stale cache in hand, before the swap
    | Clearing                                        // background refresh over, flag not yet cleared
    | Finished(outcome: Outcome)

  datatype State = State(shared: Shared, threads: map<nat, Pc>, closed: set<nat>, channels: nat)

  datatype Event =
    | Warmup(t: nat)
    | Ask(t: nat)
    | Fetch(t: nat, answer: Option<seq<T.Tool>>)
    | Publish(t: nat, now: int)
    | Release(t: nat)
    | Close(t: nat)
    | Wake(t: nat)
    | GiveUp(t: nat)
    | Check(t: nat, cancelled: bool)
    | Get(t: nat, now: int)
    | Swap(t: nat, child: nat)
    | Clear(t: nat)
    | Invalidate

  // ---- the critical sections ----------------------------------------------

  function EnterWarmup(sh: Shared, channel: nat): (Shared, Pc)
  {
    if sh.cached.Some? then (sh, Finished(Ready))
    else if sh.loading.Some? then (sh, Waiting(sh.loading.value))
    else (sh.(loading := Some(channel)), Refreshing(Leader(channel), [], false))
  }

  function EnterGet(sh: Shared, now: int): Pc
  {
    if sh.cached.None? then Finished(NotReady)
    else if now < sh.cached.value.expiry then Finished(Got(sh.cached.value))
    else Swapping(sh.cached.value)
  }

  function CheckReady(sh: Shared, cancelled: bool): Pc
  {
    Finished(if sh.cached.Some? then Ready else if cancelled then Cancelled else NotReady)
  }

  /** How a refresh ends: a leader goes on to release, the background goroutine
      to clear its flag. */
  function AfterRefresh(role: Role, ok: bool): Pc
  {
    match role
    case Leader(ch) => Releasing(ch, ok)
    case Background => Clearing
  }

  function Fetched(role: Role, lists: seq<seq<T.Tool>>, answer: Option<seq<T.Tool>>): Pc
  {
    if answer.Some? then Refreshing(role, lists + [answer.value], false) else AfterRefresh(role, false)
  }

  class RealManager {
    const cfg: Config
    var cached: Option<T.Cache>
    var loading: Option<nat>
    var bgRefresh: bool
    var channels: nat

    constructor (cfg: Config)
      ensures this.cfg == cfg && Abs() == Shared(None, None, false) && channels == 0
    {
      this.cfg := cfg;
      cached, loading, bgRefresh, channels := None, None, false, 0;
    }

    function Abs(): Shared
      reads this
    {
      Shared(cached, loading, bgRefresh)
    }

    method InvalidateCache()
      modifies this
      ensures Abs() == old(Abs()).(cached := None) && channels == old(channels)
    {
      cached := None;
    }

    /** Warmup up to its first unlock. */
    method BeginWarmup() returns (pc: Pc)
      modifies this
      ensures (Abs(), pc) == EnterWarmup(old(Abs()), old(channels))
      ensures channels == if pc.Refreshing? then old(channels) + 1 else old(channels)
    {
      if cached.Some? {
        return Finished(Ready);
      }
      if loading.Some? {
        return Waiting(loading.value);
      }
      var ch := channels;
      channels := channels + 1;
      loading := Some(ch);
      return Refreshing(Leader(ch), [], false);
    }

    /** A waiter's second critical section. */
    method EndWait(cancelled: bool) returns (pc: Pc)
      ensures pc == CheckReady(Abs(), cancelled)
    {
      if cached.Some? {
        return Finished(Ready);
      }
      if cancelled {
        return Finished(Cancelled);
      }
      return Finished(NotReady);
    }

    /** A leader's second critical section. */
    method ClearLoading()
      modifies this
      ensures Abs() == old(Abs()).(loading := None) && channels == old(channels)
    {
      loading := None;
    }

    method GetCache(now: int) returns (pc: Pc)
      ensures pc == EnterGet(Abs(), now)
    {
      if cached.Some? && now < cached.value.expiry {
        return Finished(Got(cached.value));
      }
      if cached.Some? {
        return Swapping(cached.value);
      }
      return Finished(NotReady);
    }

    /** bgRefresh.CompareAndSwap(false, true). */
    method CompareAndSwap() returns (won: bool)
      modifies this
      ensures won == !old(bgRefresh) && Abs() == old(Abs()).(bgRefresh := true) && channels == old(channels)
    {
      won := !bgRefresh;
      if won {
        bgRefresh := true;
      }
    }

    method ClearFlag()
      modifies this
      ensures Abs() == old(Abs()).(bgRefresh := false) && channels == old(channels)
    {
      bgRefresh := false;
    }

    /** doRefresh: asks every upstream in turn and publishes the whole result,
        or fails and changes nothing. */
    method DoRefresh(answers: seq<Option<seq<T.Tool>>>, now: int) returns (ok: bool)
      requires |answers| == |cfg.entries|
      modifies this
      ensures ok <==> forall i :: 0 <= i < |answers| ==> answers[i].Some?
      ensures Abs() == if ok
        then old(Abs()).(cached := Some(T.CacheOf(cfg.entries, T.Answered(answers), now + cfg.ttl)))
        else old(Abs())
      ensures channels == old(channels)
    {
      var c, _ := T.BuildCache(cfg.entries, answers, now + cfg.ttl);
      if c.None? {
        return false;
      }
      cached := c;
      return true;
    }
  }

  // ---- the step relation --------------------------------------------------

  function Init(): State
  {
    State(Shared(None, None, false), map[], {}, 0)
  }

  predicate At(s: State, t: nat)
  {
    t in s.threads
  }

  predicate Enabled(cfg: Config, s: State, e: Event)
  {
    match e
    case Warmup(t) => t !in s.threads
    case Get(t, _) => t !in s.threads
    case Ask(t) =>
      At(s, t) && s.threads[t].Refreshing? && !s.threads[t].asking && |s.threads[t].lists| < |cfg.entries|
    case Fetch(t, _) => At(s, t) && s.threads[t].Refreshing? && s.threads[t].asking
    case Publish(t, _) =>
      At(s, t) && s.threads[t].Refreshing? && !s.threads[t].asking && |s.threads[t].lists| == |cfg.entries|
    case Release(t) => At(s, t) && s.threads[t].Releasing?
    case Close(t) => At(s, t) && s.threads[t].Closing?
    case Wake(t) => At(s, t) && s.threads[t].Waiting? && s.threads[t].ch in s.closed
    case GiveUp(t) => At(s, t) && s.threads[t].Waiting?
    case Check(t, _) => At(s, t) && s.threads[t].Woken?
    case Swap(t, child) => At(s, t) && s.threads[t].Swapping? && child !in s.threads
    case Clear(t) => At(s, t) && s.threads[t].Clearing?
    case Invalidate => true
  }

  function Move(s: State, t: nat, pc: Pc): State
  {
    s.(threads := s.threads[t := pc])
  }

  function Next(cfg: Config, s: State, e: Event): State
    requires Enabled(cfg, s, e)
  {
    var sh := s.shared;
    match e
    case Warmup(t) =>
      var (sh', pc) := EnterWarmup(sh, s.channels);
      Move(s, t, pc).(shared := sh', channels := if pc.Refreshing? then s.channels + 1 else s.channels)
    case Get(t, now) => Move(s, t, EnterGet(sh, now))
    case Ask(t) => Move(s, t, s.threads[t].(asking := true))
    case Fetch(t, answer) => Move(s, t, Fetched(s.threads[t].role, s.threads[t].lists, answer))
    case Publish(t, now) =>
      Move(s, t, AfterRefresh(s.threads[t].role, true)).(
        shared := sh.(cached := Some(T.CacheOf(cfg.entries, s.threads[t].lists, now + cfg.ttl))))
    case Release(t) =>
      Move(s, t, Closing(s.threads[t].ch, s.threads[t].ok)).(shared := sh.(loading := None))
    case Close(t) =>
      Move(s, t, Finished(if s.threads[t].ok then Ready else Failed)).(closed := s.closed + {s.threads[t].ch})
    case Wake(t) => Move(s, t, Woken)
    case GiveUp(t) => Move(s, t, Finished(Cancelled))
    case Check(t, cancelled) => Move(s, t, CheckReady(sh, cancelled))
    case Swap(t, child) =>
      var back := Move(s, t, Finished(Got(s.threads[t].stale)));
      if sh.bgRefresh then back
      else Move(back, child, Refreshing(Background, [], false)).(shared := sh.(bgRefresh := true))
    case Clear(t) => Move(s, t, Finished(Ended)).(shared := sh.(bgRefresh := false))
    case Invalidate => s.(shared := sh.(cached := None))
  }

  /** The state after these events, if each was enabled in its turn. */
  function RunFrom(cfg: Config, s: State, events: seq<Event>): Option<State>
  {
    if events == [] then Some(s)
    else
      var n := |events| - 1;
      var before := RunFrom(cfg, s, events[..n]);
      if before.Some? && Enabled(cfg, before.value, events[n]) then Some(Next(cfg, before.value, events[n])) else None
  }

  function Run(cfg: Config, events: seq<Event>): Option<State>
  {
    RunFrom(cfg, Init(), events)
  }

  // ---- who holds what -----------------------------------------------------

  /** Inside the load section: between setting loading and clearing it. */
  predicate Loads(pc: Pc, ch: nat)
  {
    (pc.Refreshing? && pc.role == Leader(ch)) || (pc.Releasing? && pc.ch == ch)
  }

  /** Has yet to close the channel. */
  predicate Owns(pc: Pc, ch: nat)
  {
    Loads(pc, ch) || (pc.Closing? && pc.ch == ch)
  }

  predicate InBackground(pc: Pc)
  {
    (pc.Refreshing? && pc.role.Background?) || pc.Clearing?
  }

  predicate Loading(s: State, t: nat, ch: nat)
  {
    t in s.threads && Loads(s.threads[t], ch)
  }

  predicate Owner(s: State, t: nat, ch: nat)
  {
    t in s.threads && Owns(s.threads[t], ch)
  }

  predicate Worker(s: State, t: nat)
  {
    t in s.threads && InBackground(s.threads[t])
  }

  ghost predicate HasLoader(s: State, ch: nat)
  {
    exists t: nat :: Loading(s, t, ch)
  }

  ghost predicate HasOwner(s: State, ch: nat)
  {
    exists t: nat :: Owner(s, t, ch)
  }

  ghost predicate HasWorker(s: State)
  {
    exists t: nat :: Worker(s, t)
  }

  /** loading is set exactly while some thread is in the load section of that
      channel. */
  ghost predicate LoadingTracked(s: State)
  {
    && (forall t: nat, ch: nat :: Loading(s, t, ch) ==> s.shared.loading == Some(ch))
    && (s.shared.loading.Some? ==> HasLoader(s, s.shared.loading.value))
  }

  /** A channel not yet closed has one owner at most, and owned channels are
      open. */
  ghost predicate OneOwner(s: State)
  {
    && (forall t: nat, u: nat, ch: nat :: Owner(s, t, ch) && Owner(s, u, ch) ==> t == u)
    && (forall t: nat, ch: nat :: Owner(s, t, ch) ==> ch < s.channels && ch !in s.closed)
    && (forall ch :: ch in s.closed ==> ch < s.channels)
  }

  predicate Waits(s: State, t: nat, ch: nat)
  {
    t in s.threads && s.threads[t] == Waiting(ch)
  }

  /** No waiter is stranded. */
  ghost predicate WaitersServed(s: State)
  {
    forall t: nat, ch: nat :: Waits(s, t, ch) ==> ch in s.closed || HasOwner(s, ch)
  }

  /** The flag is set exactly while one background refresh exists. */
  ghost predicate OneWorker(s: State)
  {
    && (forall t: nat :: Worker(s, t) ==> s.shared.bgRefresh)
    && (s.shared.bgRefresh ==> HasWorker(s))
    && (forall t: nat, u: nat :: Worker(s, t) && Worker(s, u) ==> t == u)
  }

  ghost predicate Inv(s: State)
  {
    LoadingTracked(s) && OneOwner(s) && WaitersServed(s) && OneWorker(s)
  }

  /** What one step can do to the other threads: nothing, but for the child of a
      swap, which is new. */
  predicate Untouched(s: State, s': State, u: nat)
  {
    (u in s.threads <==> u in s'.threads) && (u in s.threads ==> s'.threads[u] == s.threads[u])
  }

  predicate Touches(e: Event, u: nat)
  {
    !e.Invalidate? && (e.t == u || (e.Swap? && e.child == u))
  }

  lemma Frame(cfg: Config, s: State, e: Event, u: nat)
    requires Enabled(cfg, s, e)
    ensures !Touches(e, u) ==> Untouched(s, Next(cfg, s, e), u)
  {
  }

  lemma StepLoadingTracked(cfg: Config, s: State, e: Event)
    requires Enabled(cfg, s, e) && Inv(s)
    ensures LoadingTracked(Next(cfg, s, e))
  {
    var s' := Next(cfg, s, e);
    forall t: nat, ch: nat | Loading(s', t, ch) ensures s'.shared.loading == Some(ch) {
      if Loading(s, t, ch) {
        if e.Release? {
          assert Loading(s, e.t, s.threads[e.t].ch);
          assert Owner(s, e.t, ch) && Owner(s, t, ch);
        }
      }
    }
    if s'.shared.loading.Some? {
      var ch := s'.shared.loading.value;
      if s.shared.loading.Some? {
        var t: nat :| Loading(s, t, ch);
        Frame(cfg, s, e, t);
        assert Loading(s', t, ch);
      } else {
        assert Loading(s', e.t, ch);
      }
    }
  }

  lemma StepOneOwner(cfg: Config, s: State, e: Event)
    requires Enabled(cfg, s, e) && Inv(s)
    ensures OneOwner(Next(cfg, s, e))
  {
    var s' := Next(cfg, s, e);
    assert e.Close? ==> Owner(s, e.t, s.threads[e.t].ch);
    forall t: nat, ch: nat | Owner(s', t, ch)
      ensures Owner(s, t, ch) || (e == Warmup(t) && ch == s.channels)
      ensures ch < s'.channels && ch !in s'.closed
    {
      Frame(cfg, s, e, t);
    }
  }

  lemma StepWaitersServed(cfg: Config, s: State, e: Event)
    requires Enabled(cfg, s, e) && Inv(s)
    ensures WaitersServed(Next(cfg, s, e))
  {
    var s' := Next(cfg, s, e);
    forall t: nat, ch: nat | Waits(s', t, ch) ensures ch in s'.closed || HasOwner(s', ch) {
      Frame(cfg, s, e, t);
      if !Waits(s, t, ch) {
        var u: nat :| Loading(s, u, ch);
        assert Owner(s', u, ch);
      } else if ch !in s.closed {
        var u: nat :| Owner(s, u, ch);
        Frame(cfg, s, e, u);
        assert e != Close(u) ==> Owner(s', u, ch);
      }
    }
  }

  lemma StepOneWorker(cfg: Config, s: State, e: Event)
    requires Enabled(cfg, s, e) && Inv(s)
    ensures OneWorker(Next(cfg, s, e))
  {
    var s' := Next(cfg, s, e);
    assert e.Clear? ==> Worker(s, e.t);
    forall t: nat | Worker(s', t)
      ensures Worker(s, t) || (e.Swap? && e.child == t && !s.shared.bgRefresh)
      ensures s'.shared.bgRefresh
    {
      Frame(cfg, s, e, t);
      if e.Swap? && e.child == t {
        assert Worker(s', t) && !s.shared.bgRefresh;
      } else {
        assert Worker(s, t);
        assert !e.Clear?;
      }
    }
    if s'.shared.bgRefresh {
      if s.shared.bgRefresh {
        var t: nat :| Worker(s, t);
        Frame(cfg, s, e, t);
        assert Worker(s', t);
      } else {
        assert Worker(s', e.child);
      }
    }
  }

  /** Every reachable state satisfies the protocol's invariants. */
  lemma {:induction false} RunKeepsInv(cfg: Config, events: seq<Event>)
    requires Run(cfg, events).Some?
    ensures Inv(Run(cfg, events).value)
    decreases |events|
  {
    if events != [] {
      var n := |events| - 1;
      RunKeepsInv(cfg, events[..n]);
      var s := Run(cfg, events[..n]).value;
      StepLoadingTracked(cfg, s, events[n]);
      StepOneOwner(cfg, s, events[n]);
      StepWaitersServed(cfg, s, events[n]);
      StepOneWorker(cfg, s, events[n]);
    }
  }

  // ---- what the invariants say --------------------------------------------

  predicate Refreshes(s: State, t: nat)
  {
    t in s.threads && s.threads[t].Refreshing?
  }

  /** In every interleaving: loading is set exactly when one leader is in its load
      section; at most one background refresh exists, exactly when the flag is
      set; so at most two doRefresh runs overlap. */
  lemma SingleFlight(cfg: Config, events: seq<Event>, t: nat, u: nat, v: nat)
    requires Run(cfg, events).Some?
    ensures var s := Run(cfg, events).value;
      && (forall ch: nat :: s.shared.loading == Some(ch) <==> HasLoader(s, ch))
      && (forall a: nat, b: nat, x: nat, y: nat :: Loading(s, a, x) && Loading(s, b, y) ==> a == b && x == y)
      && (s.shared.bgRefresh <==> HasWorker(s))
      && (Worker(s, t) && Worker(s, u) ==> t == u)
      && (Refreshes(s, t) && Refreshes(s, u) && Refreshes(s, v) ==> t == u || u == v || t == v)
  {
    var s := Run(cfg, events).value;
    RunKeepsInv(cfg, events);
    forall a: nat, b: nat, x: nat, y: nat | Loading(s, a, x) && Loading(s, b, y) ensures a == b && x == y {
      assert Owner(s, a, x) && Owner(s, b, x);
    }
    assert forall a: nat :: Refreshes(s, a) ==> Worker(s, a) || Loading(s, a, s.threads[a].role.ch);
  }

  /** Every waiter's channel is closed, or owned by exactly one leader that has
      yet to close it. */
  lemma WaiterHasOneOwner(cfg: Config, events: seq<Event>, t: nat, ch: nat)
    requires Run(cfg, events).Some? && Waits(Run(cfg, events).value, t, ch)
    ensures var s := Run(cfg, events).value;
      (ch in s.closed && !HasOwner(s, ch)) ||
      (ch !in s.closed && exists o: nat :: Owner(s, o, ch) && forall u: nat :: Owner(s, u, ch) ==> u == o)
  {
    var s := Run(cfg, events).value;
    RunKeepsInv(cfg, events);
    if ch !in s.closed {
      var o: nat :| Owner(s, o, ch);
      assert forall u: nat :: Owner(s, u, ch) ==> u == o;
    }
  }

  // ---- a leader always finishes -------------------------------------------

  /** Steps an owner has left, at most. */
  function Remaining(cfg: Config, pc: Pc): int
  {
    match pc
    case Refreshing(_, lists, asking) => 2 * (|cfg.entries| - |lists|) + (if asking then 2 else 3)
    case Releasing(_, _) => 2
    case Closing(_, _) => 1
    case _ => 0
  }

  predicate Fits(cfg: Config, pc: Pc)
  {
    pc.Refreshing? ==> |pc.lists| + (if pc.asking then 1 else 0) <= |cfg.entries|
  }

  predicate AllFit(cfg: Config, s: State)
  {
    forall t :: t in s.threads ==> Fits(cfg, s.threads[t])
  }

  lemma {:induction false} RunKeepsFit(cfg: Config, events: seq<Event>)
    requires Run(cfg, events).Some?
    ensures AllFit(cfg, Run(cfg, events).value)
    decreases |events|
  {
    if events != [] {
      RunKeepsFit(cfg, events[..|events| - 1]);
    }
  }

  /** Whatever an owner's next step finds, it gets closer to closing. */
  lemma OwnerAdvances(cfg: Config, s: State, o: nat, ch: nat, e: Event)
    requires Inv(s) && Owner(s, o, ch) && Enabled(cfg, s, e) && !e.Invalidate? && e.t == o
    requires Fits(cfg, s.threads[o])
    ensures var s' := Next(cfg, s, e);
      (ch in s'.closed && Remaining(cfg, s.threads[o]) == 1) ||
      (Owner(s', o, ch) && Remaining(cfg, s'.threads[o]) < Remaining(cfg, s.threads[o]))
  {
  }

  /** What the owner does next if its upstreams answer like this. */
  function OwnerStep(cfg: Config, s: State, o: nat, answer: Option<seq<T.Tool>>, now: int): Event
    requires o in s.threads
  {
    match s.threads[o]
    case Refreshing(_, lists, asking) =>
      if asking then Fetch(o, answer) else if |lists| < |cfg.entries| then Ask(o) else Publish(o, now)
    case Releasing(_, _) => Release(o)
    case _ => Close(o)
  }

  lemma RunStep(cfg: Config, s: State, es: seq<Event>, e: Event)
    ensures RunFrom(cfg, s, es + [e]) ==
      var m := RunFrom(cfg, s, es); if m.Some? && Enabled(cfg, m.value, e) then Some(Next(cfg, m.value, e)) else None
  {
  }

  /** Only the owner moves, and its upstreams answer like this. */
  predicate OwnSteps(o: nat, answer: nat -> Option<seq<T.Tool>>, from: nat, es: seq<Event>)
  {
    forall k :: 0 <= k < |es| ==>
      !es[k].Invalidate? && es[k].t == o && (es[k].Fetch? ==> es[k].answer == answer(from + k))
  }

  lemma OwnStepsThen(o: nat, answer: nat -> Option<seq<T.Tool>>, from: nat, e: Event, es: seq<Event>)
    requires OwnSteps(o, answer, from, [e]) && OwnSteps(o, answer, from + 1, es)
    ensures OwnSteps(o, answer, from, [e] + es)
  {
  }

  predicate Closed(s: Option<State>, ch: nat)
  {
    s.Some? && ch in s.value.closed
  }

  lemma OwnerMoves(cfg: Config, events: seq<Event>, o: nat, ch: nat, answer: nat -> Option<seq<T.Tool>>, now: int)
    returns (e: Event)
    requires Run(cfg, events).Some? && Owner(Run(cfg, events).value, o, ch)
    ensures OwnSteps(o, answer, |events|, [e])
    ensures Run(cfg, events + [e]).Some?
    ensures Remaining(cfg, Run(cfg, events).value.threads[o]) >= 1
    ensures var s' := Run(cfg, events + [e]).value;
      ch in s'.closed ||
      (Owner(s', o, ch) && Remaining(cfg, s'.threads[o]) < Remaining(cfg, Run(cfg, events).value.threads[o]))
  {
    var s := Run(cfg, events).value;
    RunKeepsInv(cfg, events);
    RunKeepsFit(cfg, events);
    assert Fits(cfg, s.threads[o]);
    e := OwnerStep(cfg, s, o, answer(|events|), now);
    assert Enabled(cfg, s, e);
    OwnerAdvances(cfg, s, o, ch, e);
    RunStep(cfg, Init(), events, e);
  }

  /** From every reachable state in which a channel has an owner, the owner's own
      steps alone, at most two per upstream and three more, lead to the channel
      being closed, whatever the upstreams answer. */
  lemma {:induction false} WaiterIsFreed(
    cfg: Config, events: seq<Event>, o: nat, ch: nat, answer: nat -> Option<seq<T.Tool>>, now: int)
    returns (more: seq<Event>)
    requires Run(cfg, events).Some? && Owner(Run(cfg, events).value, o, ch)
    ensures OwnSteps(o, answer, |events|, more)
    ensures |more| <= Remaining(cfg, Run(cfg, events).value.threads[o]) <= 2 * |cfg.entries| + 3
    ensures Closed(Run(cfg, events + more), ch)
    decreases Remaining(cfg, Run(cfg, events).value.threads[o])
  {
    RunKeepsFit(cfg, events);
    assert Fits(cfg, Run(cfg, events).value.threads[o]);
    var e := OwnerMoves(cfg, events, o, ch, answer, now);
    if ch in Run(cfg, events + [e]).value.closed {
      more := [e];
    } else {
      var rest := WaiterIsFreed(cfg, events + [e], o, ch, answer, now);
      more := [e] + rest;
      OwnStepsThen(o, answer, |events|, e, rest);
      assert events + more == events + [e] + rest;
    }
  }

  // ---- doRefresh step by step ---------------------------------------------

  /** What a thread does in doRefresh when its upstreams give these answers. */
  function OwnRefresh(t: nat, answers: seq<Option<seq<T.Tool>>>, now: int): seq<Event>
  {
    if answers == [] then [Publish(t, now)]
    else if answers[0].None? then [Ask(t), Fetch(t, None)]
    else [Ask(t), Fetch(t, answers[0])] + OwnRefresh(t, answers[1..], now)
  }

  lemma {:induction false} RunConcat(cfg: Config, s: State, a: seq<Event>, b: seq<Event>)
    requires RunFrom(cfg, s, a).Some?
    ensures RunFrom(cfg, s, a + b) == RunFrom(cfg, RunFrom(cfg, s, a).value, b)
    decreases |b|
  {
    if b == [] {
      assert a + b == a;
    } else {
      var n := |b| - 1;
      RunConcat(cfg, s, a, b[..n]);
      assert a + b == a + b[..n] + [b[n]];
      RunStep(cfg, s, a + b[..n], b[n]);
    }
  }

  /** A refresh that has asked for and got one more list. */
  lemma FetchOne(cfg: Config, s: State, t: nat, role: Role, lists: seq<seq<T.Tool>>, answer: Option<seq<T.Tool>>)
    requires t in s.threads && s.threads[t] == Refreshing(role, lists, false) && |lists| < |cfg.entries|
    ensures RunFrom(cfg, s, [Ask(t), Fetch(t, answer)]) == Some(Move(s, t, Fetched(role, lists, answer)))
  {
    assert [Ask(t), Fetch(t, answer)] == [] + [Ask(t)] + [Fetch(t, answer)];
    RunStep(cfg, s, [], Ask(t));
    RunStep(cfg, s, [] + [Ask(t)], Fetch(t, answer));
    var asked := Next(cfg, s, Ask(t));
    assert Next(cfg, asked, Fetch(t, answer)).threads == Move(s, t, Fetched(role, lists, answer)).threads;
  }

  /** How doRefresh ends, as DoRefresh has it: all answers are published at once,
      or a failure changes nothing. */
  function Refreshed(cfg: Config, s: State, t: nat, role: Role, lists: seq<seq<T.Tool>>, now: int): State
    requires |lists| <= |cfg.entries|
  {
    if |lists| < |cfg.entries| then Move(s, t, AfterRefresh(role, false))
    else
      Move(s, t, AfterRefresh(role, true)).(
        shared := s.shared.(cached := Some(T.CacheOf(cfg.entries, lists, now + cfg.ttl))))
  }

  /** The steps of one refresh, taken without another thread in between, amount to
      DoRefresh. */
  lemma {:induction false} RefreshAlone(
    cfg: Config, s: State, t: nat, role: Role, lists: seq<seq<T.Tool>>, answers: seq<Option<seq<T.Tool>>>, now: int)
    requires t in s.threads && s.threads[t] == Refreshing(role, lists, false)
    requires |lists| + |answers| == |cfg.entries|
    ensures RunFrom(cfg, s, OwnRefresh(t, answers, now)) ==
      Some(Refreshed(cfg, s, t, role, lists + T.Answered(answers), now))
    decreases |answers|
  {
    if answers == [] {
      RunStep(cfg, s, [], Publish(t, now));
      assert [] + [Publish(t, now)] == [Publish(t, now)] && lists + T.Answered(answers) == lists;
    } else {
      FetchOne(cfg, s, t, role, lists, answers[0]);
      if answers[0].None? {
        assert lists + T.Answered(answers) == lists;
      } else {
        var s1, more := Move(s, t, Fetched(role, lists, answers[0])), lists + [answers[0].value];
        RefreshAlone(cfg, s1, t, role, more, answers[1..], now);
        RunConcat(cfg, s, [Ask(t), Fetch(t, answers[0])], OwnRefresh(t, answers[1..], now));
        ListsRegroup(lists, answers);
        MovedTwice(cfg, s, t, role, Fetched(role, lists, answers[0]), more + T.Answered(answers[1..]), now);
      }
    }
  }

  lemma {:induction false} ListsRegroup(lists: seq<seq<T.Tool>>, answers: seq<Option<seq<T.Tool>>>)
    requires answers != [] && answers[0].Some?
    ensures lists + T.Answered(answers) == lists + [answers[0].value] + T.Answered(answers[1..])
  {
  }

  lemma MovedTwice(cfg: Config, s: State, t: nat, role: Role, pc: Pc, lists: seq<seq<T.Tool>>, now: int)
    requires |lists| <= |cfg.entries|
    ensures Refreshed(cfg, Move(s, t, pc), t, role, lists, now) == Refreshed(cfg, s, t, role, lists, now)
  {
    assert forall last: Pc :: Move(Move(s, t, pc), t, last).threads == Move(s, t, last).threads;
  }

  // ---- what is ever cached ------------------------------------------------

  /** The lists that thread t has been given. */
  function Answers(t: nat, events: seq<Event>): seq<seq<T.Tool>>
  {
    if events == [] then []
    else
      var n := |events| - 1;
      var e := events[n];
      if e.Fetch? && e.t == t && e.answer.Some? then Answers(t, events[..n]) + [e.answer.value]
      else Answers(t, events[..n])
  }

  /** What the last publication or invalidation left. */
  function LastWrite(cfg: Config, events: seq<Event>): Option<T.Cache>
  {
    if events == [] then None
    else
      var n := |events| - 1;
      match events[n]
      case Publish(t, now) =>
        var lists := Answers(t, events[..n]);
        if |lists| <= |cfg.entries| then Some(T.CacheOf(cfg.entries, lists, now + cfg.ttl)) else None
      case Invalidate => None
      case _ => LastWrite(cfg, events[..n])
  }

  predicate KnowsAnswers(s: State, events: seq<Event>, t: nat)
  {
    && (t in s.threads && s.threads[t].Refreshing? ==> s.threads[t].lists == Answers(t, events))
    && (t !in s.threads ==> Answers(t, events) == [])
  }

  lemma {:induction false} RefreshKnowsAnswers(cfg: Config, events: seq<Event>, t: nat)
    requires Run(cfg, events).Some?
    ensures KnowsAnswers(Run(cfg, events).value, events, t)
    decreases |events|
  {
    if events != [] {
      var n := |events| - 1;
      RefreshKnowsAnswers(cfg, events[..n], t);
      Frame(cfg, Run(cfg, events[..n]).value, events[n], t);
    }
  }

  /** The cache is always what the last publication or invalidation left; a
      publication holds all of its own thread's answers, one per upstream, and a
      failed refresh changes nothing. */
  lemma {:induction false} CacheIsLastWrite(cfg: Config, events: seq<Event>)
    requires Run(cfg, events).Some?
    ensures Run(cfg, events).value.shared.cached == LastWrite(cfg, events)
    decreases |events|
  {
    if events != [] {
      var n := |events| - 1;
      CacheIsLastWrite(cfg, events[..n]);
      if events[n].Publish? {
        RefreshKnowsAnswers(cfg, events[..n], events[n].t);
      }
    }
  }

  /** This cache is the complete result of one successful refresh: event k
      publishes one answer from every upstream, all given to one thread. */
  predicate PublishedAt(cfg: Config, events: seq<Event>, k: int, c: T.Cache)
  {
    && 0 <= k < |events| && events[k].Publish?
    && |Answers(events[k].t, events[..k])| == |cfg.entries|
    && c == T.CacheOf(cfg.entries, Answers(events[k].t, events[..k]), events[k].now + cfg.ttl)
  }

  ghost predicate Complete(cfg: Config, events: seq<Event>, c: T.Cache)
  {
    exists k :: PublishedAt(cfg, events, k, c)
  }

  /** In the thread's hands, or returned by it. */
  predicate Holds(pc: Pc, c: T.Cache)
  {
    pc == Swapping(c) || pc == Finished(Got(c))
  }

  ghost predicate AllComplete(cfg: Config, events: seq<Event>, s: State)
  {
    && (s.shared.cached.Some? ==> Complete(cfg, events, s.shared.cached.value))
    && forall t: nat, c: T.Cache :: t in s.threads && Holds(s.threads[t], c) ==> Complete(cfg, events, c)
  }

  lemma StillComplete(cfg: Config, events: seq<Event>, c: T.Cache)
    requires events != [] && Complete(cfg, events[..|events| - 1], c)
    ensures Complete(cfg, events, c)
  {
    var front := events[..|events| - 1];
    var k :| PublishedAt(cfg, front, k, c);
    assert events[..k] == front[..k];
    assert PublishedAt(cfg, events, k, c);
  }

  /** Every cache that is ever stored, or that any call ever gets, is complete. */
  lemma {:induction false} CachesAreComplete(cfg: Config, events: seq<Event>)
    requires Run(cfg, events).Some?
    ensures AllComplete(cfg, events, Run(cfg, events).value)
    decreases |events|
  {
    if events != [] {
      var n := |events| - 1;
      var front, e := events[..n], events[n];
      var s, s' := Run(cfg, front).value, Run(cfg, events).value;
      CachesAreComplete(cfg, front);
      if e.Publish? {
        RefreshKnowsAnswers(cfg, front, e.t);
        assert PublishedAt(cfg, events, n, s'.shared.cached.value);
      } else if s'.shared.cached.Some? {
        StillComplete(cfg, events, s.shared.cached.value);
      }
      forall t: nat, c: T.Cache | t in s'.threads && Holds(s'.threads[t], c) ensures Complete(cfg, events, c) {
        Frame(cfg, s, e, t);
        assert s.shared.cached == Some(c) || (t in s.threads && Holds(s.threads[t], c));
        StillComplete(cfg, events, c);
      }
    }
  }

  /** Once a cache is there, only an invalidation takes readiness away. */
  lemma {:induction false} ReadyUntilInvalidated(cfg: Config, events: seq<Event>, k: nat)
    requires k <= |events| && LastWrite(cfg, events[..k]).Some?
    requires Run(cfg, events).Some? && forall i :: k <= i < |events| ==> !events[i].Invalidate?
    ensures Run(cfg, events).value.shared.cached.Some?
    decreases |events|
  {
    CacheIsLastWrite(cfg, events);
    if k == |events| {
      assert events[..k] == events;
    } else {
      var front := events[..|events| - 1];
      assert front[..k] == events[..k];
      ReadyUntilInvalidated(cfg, front, k);
    }
  }

  /** A cache handed out without a refresh was published less than a TTL ago. */
  lemma FreshIsRecent(cfg: Config, events: seq<Event>, t: nat, now: int, c: T.Cache) returns (k: int)
    requires Run(cfg, events + [Get(t, now)]).Some?
    requires Run(cfg, events + [Get(t, now)]).value.threads[t] == Finished(Got(c))
    ensures PublishedAt(cfg, events, k, c) && now < events[k].now + cfg.ttl
  {
    RunStep(cfg, Init(), events, Get(t, now));
    CachesAreComplete(cfg, events);
    k :| PublishedAt(cfg, events, k, c);
  }

  /** A call that takes a stale cache leaves a background refresh behind, its own
      or one already there. */
  lemma StaleIsRefreshed(cfg: Config, events: seq<Event>, t: nat, child: nat)
    requires Run(cfg, events + [Swap(t, child)]).Some?
    ensures HasWorker(Run(cfg, events + [Swap(t, child)]).value)
  {
    RunStep(cfg, Init(), events, Swap(t, child));
    RunKeepsInv(cfg, events + [Swap(t, child)]);
  }

  // ---- what invalidation does not promise ---------------------------------

  /** One thread asks for these lists and gets them. */
  function FetchAll(t: nat, lists: seq<seq<T.Tool>>): seq<Event>
  {
    if lists == [] then []
    else FetchAll(t, lists[..|lists| - 1]) + [Ask(t)] + [Fetch(t, Some(lists[|lists| - 1]))]
  }

  /** One leader, with these answers so far, and nothing else. */
  function LeaderAlone(lists: seq<seq<T.Tool>>, asking: bool): State
  {
    State(Shared(None, Some(0), false), map[0 := Refreshing(Leader(0), lists, asking)], {}, 1)
  }

  lemma LeaderStarts(cfg: Config)
    ensures Run(cfg, [Warmup(0)]) == Some(LeaderAlone([], false))
  {
    RunStep(cfg, Init(), [], Warmup(0));
    assert [] + [Warmup(0)] == [Warmup(0)];
  }

  lemma LeaderFetchesOne(cfg: Config, lists: seq<seq<T.Tool>>, list: seq<T.Tool>)
    requires |lists| < |cfg.entries|
    ensures Enabled(cfg, LeaderAlone(lists, false), Ask(0))
    ensures Next(cfg, LeaderAlone(lists, false), Ask(0)) == LeaderAlone(lists, true)
    ensures Enabled(cfg, LeaderAlone(lists, true), Fetch(0, Some(list)))
    ensures Next(cfg, LeaderAlone(lists, true), Fetch(0, Some(list))) == LeaderAlone(lists + [list], false)
  {
  }

  lemma {:induction false} LeaderFetches(cfg: Config, lists: seq<seq<T.Tool>>)
    requires |lists| <= |cfg.entries|
    ensures Run(cfg, [Warmup(0)] + FetchAll(0, lists)) == Some(LeaderAlone(lists, false))
    decreases |lists|
  {
    if lists == [] {
      LeaderStarts(cfg);
      assert [Warmup(0)] + FetchAll(0, lists) == [Warmup(0)];
    } else {
      var n := |lists| - 1;
      var before, e := [Warmup(0)] + FetchAll(0, lists[..n]), Fetch(0, Some(lists[n]));
      assert [Warmup(0)] + FetchAll(0, lists) == before + [Ask(0)] + [e];
      LeaderFetches(cfg, lists[..n]);
      LeaderFetchesOne(cfg, lists[..n], lists[n]);
      assert lists[..n] + [lists[n]] == lists;
      RunStep(cfg, Init(), before, Ask(0));
      RunStep(cfg, Init(), before + [Ask(0)], e);
    }
  }

  lemma LeaderPublishes(cfg: Config, lists: seq<seq<T.Tool>>, now: int)
    requires |lists| == |cfg.entries|
    ensures Next(cfg, LeaderAlone(lists, false), Invalidate) == LeaderAlone(lists, false)
    ensures Enabled(cfg, LeaderAlone(lists, false), Publish(0, now))
    ensures Next(cfg, LeaderAlone(lists, false), Publish(0, now)).shared.cached ==
      Some(T.CacheOf(cfg.entries, lists, now + cfg.ttl))
  {
  }

  /** A refresh that had its answers before an invalidation may publish them
      after it: for all answers there is a run that ends ready with a cache no
      part of which was asked for or fetched since the invalidation. */
  lemma InvalidationOvertaken(cfg: Config, lists: seq<seq<T.Tool>>, now: int)
    returns (events: seq<Event>, k: nat)
    requires |lists| == |cfg.entries|
    ensures Run(cfg, events).Some? && k < |events| && events[k].Invalidate?
    ensures forall i :: k <= i < |events| ==> !events[i].Ask? && !events[i].Fetch?
    ensures Run(cfg, events).value.shared.cached == Some(T.CacheOf(cfg.entries, lists, now + cfg.ttl))
  {
    var before := [Warmup(0)] + FetchAll(0, lists);
    LeaderFetches(cfg, lists);
    RunStep(cfg, Init(), before, Invalidate);
    RunStep(cfg, Init(), before + [Invalidate], Publish(0, now));
    LeaderPublishes(cfg, lists, now);
    events, k := before + [Invalidate] + [Publish(0, now)], |before|;
  }

  // ---- exactly when an invalidation holds ---------------------------------

  lemma StoppedStays(cfg: Config, s: State, e: Event, t: nat)
    requires Enabled(cfg, s, e) && t in s.threads && !s.threads[t].Refreshing?
    ensures t in Next(cfg, s, e).threads && !Next(cfg, s, e).threads[t].Refreshing?
  {
  }

  /** A thread that is not refreshing, or no longer, never refreshes again. */
  lemma {:induction false} StoppedForGood(cfg: Config, events: seq<Event>, more: seq<Event>, t: nat)
    requires Run(cfg, events).Some? && Run(cfg, events + more).Some?
    requires t in Run(cfg, events).value.threads && !Run(cfg, events).value.threads[t].Refreshing?
    ensures t in Run(cfg, events + more).value.threads
    ensures !Run(cfg, events + more).value.threads[t].Refreshing?
    decreases |more|
  {
    if more == [] {
      assert events + more == events;
    } else {
      var n := |more| - 1;
      assert events + more == events + more[..n] + [more[n]];
      RunStep(cfg, Init(), events + more[..n], more[n]);
      StoppedForGood(cfg, events, more[..n], t);
      StoppedStays(cfg, Run(cfg, events + more[..n]).value, more[n], t);
    }
  }

  predicate AsksFor(e: Event, t: nat)
  {
    e.Ask? && e.t == t
  }

  predicate AnyAsked(events: seq<Event>, t: nat, n: nat)
    requires n <= |events|
  {
    exists i :: 0 <= i < n && AsksFor(events[i], t)
  }

  /** Has answers, or a request out. */
  predicate Begun(pc: Pc)
  {
    pc.Refreshing? && (pc.lists != [] || pc.asking)
  }

  /** A thread that is refreshing has made a request exactly if it has begun. */
  predicate KnowsRequests(s: State, events: seq<Event>, t: nat)
  {
    && (t in s.threads && s.threads[t].Refreshing? ==> (AnyAsked(events, t, |events|) <==> Begun(s.threads[t])))
    && (t !in s.threads ==> !AnyAsked(events, t, |events|))
  }

  lemma OneMoreAsked(events: seq<Event>, e: Event, t: nat)
    ensures AnyAsked(events + [e], t, |events| + 1) <==> AnyAsked(events, t, |events|) || AsksFor(e, t)
  {
    var all := events + [e];
    assert all[|events|] == e;
    if i :| 0 <= i < |events| && AsksFor(events[i], t) {
      assert AsksFor(all[i], t);
    }
  }

  lemma {:induction false} RefreshKnowsRequests(cfg: Config, events: seq<Event>, t: nat)
    requires Run(cfg, events).Some?
    ensures KnowsRequests(Run(cfg, events).value, events, t)
    decreases |events|
  {
    if events != [] {
      var n := |events| - 1;
      RefreshKnowsRequests(cfg, events[..n], t);
      Frame(cfg, Run(cfg, events[..n]).value, events[n], t);
      OneMoreAsked(events[..n], events[n], t);
      assert events[..n] + [events[n]] == events;
    }
  }

  /** If event p publishes a cache, none of its requests was made before event n. */
  predicate AskedSince(events: seq<Event>, n: nat, p: int)
    requires n <= |events| && 0 <= p < |events|
  {
    events[p].Publish? ==> !AnyAsked(events, events[p].t, n)
  }

  /** After these events and an invalidation, with these events to follow, every
      publication made all of its requests after the invalidation. */
  predicate FreshFrom(events: seq<Event>, more: seq<Event>)
  {
    var all := events + [Invalidate] + more;
    forall p :: |events| < p < |all| ==> AskedSince(all, |events|, p)
  }

  /** An invalidation taken after these events holds in every continuation. */
  ghost predicate InvalidationHolds(cfg: Config, events: seq<Event>)
  {
    forall more: seq<Event> :: Run(cfg, events + [Invalidate] + more).Some? ==> FreshFrom(events, more)
  }

  predicate InRefresh(s: State, t: nat)
  {
    t in s.threads && Begun(s.threads[t])
  }

  ghost predicate PartWay(s: State)
  {
    exists t: nat :: InRefresh(s, t)
  }

  lemma Prefixes(events: seq<Event>, more: seq<Event>, p: nat)
    requires |events| < p < |events + [Invalidate] + more|
    ensures (events + [Invalidate] + more)[..p] == events + ([Invalidate] + more[..p - |events| - 1])
    ensures forall t: nat :: AnyAsked(events + [Invalidate] + more, t, |events|) <==> AnyAsked(events, t, |events|)
  {
    var all := events + [Invalidate] + more;
    assert forall i :: 0 <= i < |events| ==> all[i] == events[i];
    forall t: nat ensures AnyAsked(all, t, |events|) <==> AnyAsked(events, t, |events|) {
      if i :| 0 <= i < |events| && AsksFor(events[i], t) {
        assert AsksFor(all[i], t);
      }
    }
  }

  lemma {:induction false} RunOfPrefix(cfg: Config, events: seq<Event>, n: nat)
    requires Run(cfg, events).Some? && n <= |events|
    ensures Run(cfg, events[..n]).Some?
    ensures n < |events| ==> Enabled(cfg, Run(cfg, events[..n]).value, events[n])
    decreases |events|
  {
    if n < |events| {
      var m := |events| - 1;
      assert n < m ==> events[..m][..n] == events[..n] && events[..m][n] == events[n];
      if n < m {
        RunOfPrefix(cfg, events[..m], n);
      }
    } else {
      assert events[..n] == events;
    }
  }

  /** With no refresh part way an invalidation holds. */
  lemma InvalidationSuffices(cfg: Config, events: seq<Event>, more: seq<Event>)
    requires Run(cfg, events).Some? && !PartWay(Run(cfg, events).value)
    requires Run(cfg, events + [Invalidate] + more).Some?
    ensures FreshFrom(events, more)
  {
    var all, s := events + [Invalidate] + more, Run(cfg, events).value;
    forall p | |events| < p < |all| ensures AskedSince(all, |events|, p) {
      if all[p].Publish? && AnyAsked(all, all[p].t, |events|) {
        PublisherStarts(cfg, events, more, p);
      }
    }
  }

  /** Whoever publishes after an invalidation and made a request before it was part
      way through its refresh. */
  lemma PublisherStarts(cfg: Config, events: seq<Event>, more: seq<Event>, p: nat)
    requires Run(cfg, events).Some? && Run(cfg, events + [Invalidate] + more).Some?
    requires |events| < p < |events + [Invalidate] + more| && (events + [Invalidate] + more)[p].Publish?
    requires AnyAsked(events + [Invalidate] + more, (events + [Invalidate] + more)[p].t, |events|)
    ensures InRefresh(Run(cfg, events).value, (events + [Invalidate] + more)[p].t)
  {
    var all, s := events + [Invalidate] + more, Run(cfg, events).value;
    var t := all[p].t;
    Prefixes(events, more, p);
    RefreshKnowsRequests(cfg, events, t);
    RunOfPrefix(cfg, all, p);
    if !s.threads[t].Refreshing? {
      StoppedForGood(cfg, events, [Invalidate] + more[..p - |events| - 1], t);
    }
  }

  /** A refresh part way can fetch what is missing and publish. */
  lemma {:induction false} HolderPublishes(cfg: Config, events: seq<Event>, t: nat) returns (more: seq<Event>)
    requires Run(cfg, events).Some? && Refreshes(Run(cfg, events).value, t)
    ensures more != [] && more[|more| - 1] == Publish(t, 0) && Run(cfg, events + more).Some?
    decreases Remaining(cfg, Run(cfg, events).value.threads[t])
  {
    RunKeepsFit(cfg, events);
    assert Fits(cfg, Run(cfg, events).value.threads[t]);
    var e := OwnerStep(cfg, Run(cfg, events).value, t, Some([]), 0);
    RunStep(cfg, Init(), events, e);
    if e.Publish? {
      more := [e];
    } else {
      var rest := HolderPublishes(cfg, events + [e], t);
      more := [e] + rest;
      assert events + more == events + [e] + rest;
    }
  }

  /** With a refresh part way it does not: that refresh may publish. */
  lemma InvalidationFails(cfg: Config, events: seq<Event>, t: nat) returns (more: seq<Event>)
    requires Run(cfg, events).Some? && InRefresh(Run(cfg, events).value, t)
    ensures Run(cfg, events + [Invalidate] + more).Some? && !FreshFrom(events, more)
  {
    RunStep(cfg, Init(), events, Invalidate);
    more := HolderPublishes(cfg, events + [Invalidate], t);
    var all := events + [Invalidate] + more;
    var p := |all| - 1;
    RefreshKnowsRequests(cfg, events, t);
    Prefixes(events, more, p);
    assert all[p] == Publish(t, 0);
    assert !AskedSince(all, |events|, p);
  }

  /** From every reachable state: whatever is published after an invalidation was
      asked for after it, in every continuation, if and only if no refresh holds an
      answer or has a request out when the cache is invalidated. */
  lemma InvalidationDecides(cfg: Config, events: seq<Event>)
    requires Run(cfg, events).Some?
    ensures InvalidationHolds(cfg, events) <==> !PartWay(Run(cfg, events).value)
  {
    if !PartWay(Run(cfg, events).value) {
      forall more: seq<Event> | Run(cfg, events + [Invalidate] + more).Some? ensures FreshFrom(events, more) {
        InvalidationSuffices(cfg, events, more);
      }
    } else {
      var t: nat :| InRefresh(Run(cfg, events).value, t);
      var more := InvalidationFails(cfg, events, t);
    }
  }
}
