/** What a call of the upstream manager is told, over every interleaving: how a
    warmup ends, for its leader, for those that wait for it and for the rest, and
    what a call for the cache gets. */
module WarmupRuns {
  import opened Options
  import opened UpstreamManager
  import T = ToolCache

  // ---- how a leader ends --------------------------------------------------

  predicate PublishOf(e: Event, t: nat)
  {
    e.Publish? && e.t == t
  }

  predicate FailureOf(e: Event, t: nat)
  {
    e.Fetch? && e.t == t && e.answer.None?
  }

  predicate Published(events: seq<Event>, t: nat)
  {
    exists i :: 0 <= i < |events| && PublishOf(events[i], t)
  }

  predicate FetchFailed(events: seq<Event>, t: nat)
  {
    exists i :: 0 <= i < |events| && FailureOf(events[i], t)
  }

  lemma OneMoreEvent(events: seq<Event>, e: Event, t: nat)
    ensures Published(events + [e], t) <==> Published(events, t) || PublishOf(e, t)
    ensures FetchFailed(events + [e], t) <==> FetchFailed(events, t) || FailureOf(e, t)
  {
    var all := events + [e];
    assert all[|events|] == e;
    if i :| 0 <= i < |events| && PublishOf(events[i], t) {
      assert PublishOf(all[i], t);
    }
    if i :| 0 <= i < |events| && FailureOf(events[i], t) {
      assert FailureOf(all[i], t);
    }
  }

  /** A refresh that is still going on has neither published nor failed. */
  predicate Undecided(s: State, events: seq<Event>, t: nat)
  {
    t !in s.threads || s.threads[t].Refreshing? ==> !Published(events, t) && !FetchFailed(events, t)
  }

  lemma {:induction false} RefreshUndecided(cfg: Config, events: seq<Event>, t: nat)
    requires Run(cfg, events).Some?
    ensures Undecided(Run(cfg, events).value, events, t)
    decreases |events|
  {
    if events != [] {
      var n := |events| - 1;
      RefreshUndecided(cfg, events[..n], t);
      OneMoreEvent(events[..n], events[n], t);
      assert events[..n] + [events[n]] == events;
      Frame(cfg, Run(cfg, events[..n]).value, events[n], t);
    }
  }

  predicate Leads(s: State, t: nat)
  {
    t in s.threads && s.threads[t].Refreshing? && s.threads[t].role.Leader?
  }

  /** Where a thread that was a leader stands, and what that tells. */
  predicate LeaderKnows(pc: Pc, events: seq<Event>, t: nat)
  {
    match pc
    case Refreshing(role, _, _) => role.Leader?
    case Releasing(_, ok) => (ok <==> Published(events, t)) && (!ok <==> FetchFailed(events, t))
    case Closing(_, ok) => (ok <==> Published(events, t)) && (!ok <==> FetchFailed(events, t))
    case Finished(outcome) =>
      && (outcome == Ready || outcome == Failed)
      && (outcome == Ready <==> Published(events, t)) && (outcome == Failed <==> FetchFailed(events, t))
    case _ => false
  }

  lemma {:induction false} LeaderGoesOn(cfg: Config, events: seq<Event>, k: nat, t: nat)
    requires Run(cfg, events).Some? && k <= |events|
    requires Run(cfg, events[..k]).Some? && Leads(Run(cfg, events[..k]).value, t)
    ensures t in Run(cfg, events).value.threads && LeaderKnows(Run(cfg, events).value.threads[t], events, t)
    decreases |events|
  {
    if k == |events| {
      assert events[..k] == events;
    } else {
      var n := |events| - 1;
      assert events[..n][..k] == events[..k];
      LeaderGoesOn(cfg, events[..n], k, t);
      RefreshUndecided(cfg, events[..n], t);
      OneMoreEvent(events[..n], events[n], t);
      assert events[..n] + [events[n]] == events;
      LeaderMoves(cfg, Run(cfg, events[..n]).value, events[..n], events[n], t);
    }
  }

  lemma LeaderMoves(cfg: Config, s: State, events: seq<Event>, e: Event, t: nat)
    requires Enabled(cfg, s, e) && t in s.threads && LeaderKnows(s.threads[t], events, t) && Undecided(s, events, t)
    ensures t in Next(cfg, s, e).threads && LeaderKnows(Next(cfg, s, e).threads[t], events + [e], t)
  {
    OneMoreEvent(events, e, t);
    Frame(cfg, s, e, t);
  }

  /** In every interleaving a call that became leader and has come back was told
      "ready" if and only if it published a cache, and was given an error if and only
      if one of its upstreams failed; and one of the two is the case. */
  lemma LeaderOutcome(cfg: Config, events: seq<Event>, k: nat, t: nat)
    requires Run(cfg, events).Some? && k <= |events|
    requires Run(cfg, events[..k]).Some? && Leads(Run(cfg, events[..k]).value, t)
    requires t in Run(cfg, events).value.threads && Run(cfg, events).value.threads[t].Finished?
    ensures Run(cfg, events).value.threads[t].outcome == Ready <==> Published(events, t)
    ensures Run(cfg, events).value.threads[t].outcome == Failed <==> FetchFailed(events, t)
    ensures Published(events, t) != FetchFailed(events, t)
  {
    LeaderGoesOn(cfg, events, k, t);
  }

  // ---- what the others are told -------------------------------------------

  function CachedBefore(cfg: Config, events: seq<Event>, k: nat): Option<T.Cache>
    requires k <= |events|
  {
    var s := Run(cfg, events[..k]); if s.Some? then s.value.shared.cached else None
  }

  /** Event k asked on behalf of call t whether there is a cache, and found one. */
  predicate SawCache(cfg: Config, events: seq<Event>, k: int, t: nat)
  {
    && 0 <= k < |events| && (events[k] == Warmup(t) || (events[k].Check? && events[k].t == t))
    && CachedBefore(cfg, events, k).Some?
  }

  ghost predicate ReadyVouched(cfg: Config, events: seq<Event>, t: nat)
  {
    Published(events, t) || exists k :: SawCache(cfg, events, k, t)
  }

  lemma VouchedOn(cfg: Config, events: seq<Event>, e: Event, t: nat)
    requires ReadyVouched(cfg, events, t)
    ensures ReadyVouched(cfg, events + [e], t)
  {
    OneMoreEvent(events, e, t);
    if k :| SawCache(cfg, events, k, t) {
      assert (events + [e])[..k] == events[..k];
      assert SawCache(cfg, events + [e], k, t);
    }
  }

  /** A thread that is about to be told "ready", or was. */
  predicate ToldReady(pc: Pc)
  {
    pc == Finished(Ready) || ((pc.Releasing? || pc.Closing?) && pc.ok)
  }

  lemma ReadyArises(cfg: Config, events: seq<Event>, e: Event, t: nat)
    requires Run(cfg, events).Some? && Enabled(cfg, Run(cfg, events).value, e)
    requires var s := Run(cfg, events).value; t in s.threads && ToldReady(s.threads[t]) ==> ReadyVouched(cfg, events, t)
    requires var s' := Next(cfg, Run(cfg, events).value, e); t in s'.threads && ToldReady(s'.threads[t])
    ensures ReadyVouched(cfg, events + [e], t)
  {
    var s := Run(cfg, events).value;
    Frame(cfg, s, e, t);
    if t in s.threads && ToldReady(s.threads[t]) {
      VouchedOn(cfg, events, e, t);
    } else {
      OneMoreEvent(events, e, t);
      assert (events + [e])[..|events|] == events && (events + [e])[|events|] == e;
      assert e.Publish? || SawCache(cfg, events + [e], |events|, t);
    }
  }

  /** In every interleaving a call is told "ready" only if it published a cache
      itself, or found one at the step that told it. */
  lemma {:induction false} ReadyMeansCache(cfg: Config, events: seq<Event>, t: nat)
    requires Run(cfg, events).Some? && t in Run(cfg, events).value.threads
    requires ToldReady(Run(cfg, events).value.threads[t])
    ensures ReadyVouched(cfg, events, t)
    decreases |events|
  {
    var n := |events| - 1;
    var s := Run(cfg, events[..n]).value;
    assert events[..n] + [events[n]] == events;
    if t in s.threads && ToldReady(s.threads[t]) {
      ReadyMeansCache(cfg, events[..n], t);
    }
    ReadyArises(cfg, events[..n], events[n], t);
  }

  /** What every step that looks at the cache tells its call: a first look finds a
      cache, a leader at work, or nobody; a woken waiter is told "ready" if there is a
      cache now, else of its own cancellation, else "not ready". */
  lemma LooksTell(cfg: Config, s: State, e: Event)
    requires Enabled(cfg, s, e) && (e.Warmup? || e.Check? || e.GiveUp?)
    ensures var pc := Next(cfg, s, e).threads[e.t];
      && (pc == Finished(Ready) <==> !e.GiveUp? && s.shared.cached.Some?)
      && (e.Check? && s.shared.cached.None? ==> pc == Finished(if e.cancelled then Cancelled else NotReady))
      && (e.GiveUp? ==> pc == Finished(Cancelled))
      && (e.Warmup? && s.shared.cached.None? ==>
          if s.shared.loading.Some? then pc == Waiting(s.shared.loading.value)
          else pc == Refreshing(Leader(s.channels), [], false))
  {
  }

  // ---- one warmup alone ---------------------------------------------------

  predicate AllAnswer(answers: seq<Option<seq<T.Tool>>>)
  {
    forall i :: 0 <= i < |answers| ==> answers[i].Some?
  }

  function WarmupSteps(t: nat, answers: seq<Option<seq<T.Tool>>>, now: int): seq<Event>
  {
    [Warmup(t)] + OwnRefresh(t, answers, now) + [Release(t)] + [Close(t)]
  }

  lemma RunFromStep(cfg: Config, s: State, es: seq<Event>, e: Event, m: State)
    requires RunFrom(cfg, s, es) == Some(m) && Enabled(cfg, m, e)
    ensures RunFrom(cfg, s, es + [e]) == Some(Next(cfg, m, e))
  {
    RunStep(cfg, s, es, e);
  }

  lemma AnsweredAll(answers: seq<Option<seq<T.Tool>>>)
    ensures |T.Answered(answers)| == |answers| <==> AllAnswer(answers)
  {
  }

  /** A call that finds neither cache nor leader, with no other thread in between: it
      is told "ready" and leaves the cache of all answers if every upstream answers,
      and else is given the error and leaves no cache; either way nobody is loading
      and the channel is closed. */
  lemma {:induction false} WarmupAlone(
    cfg: Config, s: State, t: nat, answers: seq<Option<seq<T.Tool>>>, now: int) returns (s': State)
    requires t !in s.threads && s.shared.cached.None? && s.shared.loading.None? && |answers| == |cfg.entries|
    ensures RunFrom(cfg, s, WarmupSteps(t, answers, now)) == Some(s')
    ensures s'.threads.Keys == s.threads.Keys + {t}
    ensures s'.threads[t] == Finished(if AllAnswer(answers) then Ready else Failed)
    ensures s'.shared.cached == if AllAnswer(answers)
      then Some(T.CacheOf(cfg.entries, T.Answered(answers), now + cfg.ttl)) else None
    ensures s'.shared.loading.None? && s.channels in s'.closed
  {
    var s2 := WarmupRefreshes(cfg, s, t, answers, now);
    s' := ReleaseAndClose(cfg, s, [Warmup(t)] + OwnRefresh(t, answers, now), s2, t, s.channels, AllAnswer(answers));
  }

  lemma {:induction false} WarmupRefreshes(
    cfg: Config, s: State, t: nat, answers: seq<Option<seq<T.Tool>>>, now: int) returns (s2: State)
    requires t !in s.threads && s.shared.cached.None? && s.shared.loading.None? && |answers| == |cfg.entries|
    ensures RunFrom(cfg, s, [Warmup(t)] + OwnRefresh(t, answers, now)) == Some(s2)
    ensures s2.threads.Keys == s.threads.Keys + {t} && s2.threads[t] == Releasing(s.channels, AllAnswer(answers))
    ensures s2.shared.cached == if AllAnswer(answers)
      then Some(T.CacheOf(cfg.entries, T.Answered(answers), now + cfg.ttl)) else None
  {
    var s1 := Next(cfg, s, Warmup(t));
    RunFromStep(cfg, s, [], Warmup(t), s);
    assert [] + [Warmup(t)] == [Warmup(t)];
    RefreshAlone(cfg, s1, t, Leader(s.channels), [], answers, now);
    assert [] + T.Answered(answers) == T.Answered(answers);
    RunConcat(cfg, s, [Warmup(t)], OwnRefresh(t, answers, now));
    s2 := Refreshed(cfg, s1, t, Leader(s.channels), T.Answered(answers), now);
    RefreshEnds(cfg, s1, t, s.channels, answers, now);
  }

  lemma {:induction false} RefreshEnds(
    cfg: Config, s1: State, t: nat, ch: nat, answers: seq<Option<seq<T.Tool>>>, now: int)
    requires |answers| == |cfg.entries| && s1.shared.cached.None?
    ensures var s2 := Refreshed(cfg, s1, t, Leader(ch), T.Answered(answers), now);
      && s2.threads == s1.threads[t := Releasing(ch, AllAnswer(answers))]
      && s2.shared.cached == if AllAnswer(answers)
        then Some(T.CacheOf(cfg.entries, T.Answered(answers), now + cfg.ttl)) else None
  {
    AnsweredAll(answers);
  }

  lemma ReleaseAndClose(cfg: Config, s: State, start: seq<Event>, s2: State, t: nat, ch: nat, ok: bool)
    returns (s': State)
    requires RunFrom(cfg, s, start) == Some(s2) && t in s2.threads && s2.threads[t] == Releasing(ch, ok)
    ensures RunFrom(cfg, s, start + [Release(t)] + [Close(t)]) == Some(s')
    ensures s'.threads.Keys == s2.threads.Keys && s'.threads[t] == Finished(if ok then Ready else Failed)
    ensures s'.shared == s2.shared.(loading := None) && s'.closed == s2.closed + {ch}
  {
    var s3 := Next(cfg, s2, Release(t));
    RunFromStep(cfg, s, start, Release(t), s2);
    s' := Next(cfg, s3, Close(t));
    RunFromStep(cfg, s, start + [Release(t)], Close(t), s3);
  }

  // ---- what a call for the cache gets -------------------------------------

  /** The publication behind the cache that is there now. */
  lemma {:induction false} LastPublication(cfg: Config, events: seq<Event>) returns (k: int)
    requires Run(cfg, events).Some? && Run(cfg, events).value.shared.cached.Some?
    ensures PublishedAt(cfg, events, k, Run(cfg, events).value.shared.cached.value)
    ensures forall i :: k < i < |events| ==> !events[i].Publish? && !events[i].Invalidate?
    decreases |events|
  {
    var n := |events| - 1;
    var front, e := events[..n], events[n];
    if e.Publish? {
      RefreshKnowsAnswers(cfg, front, e.t);
      k := n;
    } else {
      k := LastPublication(cfg, front);
      assert events[..k] == front[..k];
    }
  }

  /** In every run: a call for the cache gets "not ready" if and only if nothing was
      published since the last invalidation; else it goes by the last publication,
      and gets that cache at once if and only if it is less than a TTL old, and with a
      refresh in the background if it is older. */
  lemma GetDecides(cfg: Config, events: seq<Event>, t: nat, now: int)
    requires Run(cfg, events).Some? && Enabled(cfg, Run(cfg, events).value, Get(t, now))
    ensures var s := Run(cfg, events).value;
      var pc := Next(cfg, s, Get(t, now)).threads[t];
      if LastWrite(cfg, events).None? then pc == Finished(NotReady)
      else exists k ::
        && PublishedAt(cfg, events, k, LastWrite(cfg, events).value)
        && (forall i :: k < i < |events| ==> !events[i].Publish? && !events[i].Invalidate?)
        && pc == if now < events[k].now + cfg.ttl then Finished(Got(LastWrite(cfg, events).value))
                 else Swapping(LastWrite(cfg, events).value)
  {
    CacheIsLastWrite(cfg, events);
    if LastWrite(cfg, events).Some? {
      var k := LastPublication(cfg, events);
    }
  }

  /** What a published cache lists: every tool of every answer that its refresh got,
      upstream by upstream, under its prefixed name, with its description and schema,
      and nothing else. */
  lemma PublishedTools(cfg: Config, events: seq<Event>, k: int, c: T.Cache, i: nat, j: nat)
    requires PublishedAt(cfg, events, k, c)
    requires i < |cfg.entries| && j < |Answers(events[k].t, events[..k])[i]|
    ensures var lists := Answers(events[k].t, events[..k]);
      && |c.tools| == T.Total(lists) && T.Total(lists[..i]) + j < |c.tools|
      && T.ShownAs(cfg.entries[i], lists[i][j], c.tools[T.Total(lists[..i]) + j])
      && c.expiry == events[k].now + cfg.ttl
  {
    T.CacheLists(cfg.entries, Answers(events[k].t, events[..k]), events[k].now + cfg.ttl, i, j);
  }
}
