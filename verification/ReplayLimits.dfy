/** Replay against a policy with rate limits: exactly which policies replay every
    record of their own as it was. */
module ReplayLimits {
  import opened Options
  import opened Gateway
  import opened Replay
  import opened SessionRuns
  import P = Policy
  import R = RateLimit
  import E = Engine
  import GR = GatewayRuns
  import S = Sessions

  /** The events that Log accepted. */
  function AcceptedIn(es: seq<Effect>): multiset<Event>
  {
    if es == [] then multiset{}
    else if es[0].Audit? && es[0].ok then multiset{es[0].event} + AcceptedIn(es[1..])
    else AcceptedIn(es[1..])
  }

  function Accepted(log: seq<GR.Served>): multiset<Event>
  {
    if log == [] then multiset{} else Accepted(log[..|log| - 1]) + AcceptedIn(log[|log| - 1].effects)
  }

  /** Events recorded in a run under this policy, each as often as it was recorded
      at most, in any order, without sessions rejected on a tools/call. */
  ghost predicate RecordOf(
    codec: Codec, env: P.Env, p: P.CompiledPolicy, log: seq<GR.Served>, s: State, events: seq<Event>)
  {
    && GR.Reaches(log, s) && GR.OnePolicy(env, p, log) && multiset(events) <= Accepted(log)
    && forall i :: 0 <= i < |events| ==> Survives(codec, events[i].arguments) && !RejectedCall(events[i])
  }

  predicate Unchanged(codec: Codec, env: P.Env, p: P.CompiledPolicy, events: seq<Event>, clock: nat -> int)
  {
    !AnyChanged(Replayed(codec, env, Some(p), RowsOf(codec, events), clock, map[]).lines)
  }

  /** Every record of the policy's own replays against it without a CHANGED. */
  ghost predicate ReplaysItself(codec: Codec, env: P.Env, p: P.CompiledPolicy)
  {
    forall log: seq<GR.Served>, s: State, events: seq<Event>, clock: nat -> int ::
      RecordOf(codec, env, p, log, s, events) ==> Unchanged(codec, env, p, events, clock)
  }

  predicate Replayable(codec: Codec, call: P.Call)
  {
    call.name != "" && Survives(codec, call.arguments)
  }

  /** No limited rule covers a call that the policy allows. */
  ghost predicate LimitsIdle(codec: Codec, env: P.Env, p: P.CompiledPolicy)
  {
    forall call: P.Call :: Replayable(codec, call) ==> Free(env, p, call)
  }

  // ---- no limit at work: nothing changes ----------------------------------

  lemma {:induction false} AcceptedEffect(es: seq<Effect>, e: Event)
    requires e in AcceptedIn(es)
    ensures Audit(e, true) in es
    decreases |es|
  {
    if es[0] != Audit(e, true) {
      AcceptedEffect(es[1..], e);
    }
  }

  lemma {:induction false} AcceptedAudited(log: seq<GR.Served>, e: Event)
    requires e in Accepted(log)
    ensures AuditedIn(log, e)
    decreases |log|
  {
    var n := |log| - 1;
    if e in AcceptedIn(log[n].effects) {
      AcceptedEffect(log[n].effects, e);
    } else {
      AcceptedAudited(log[..n], e);
      var i, k :| 0 <= i < n && 0 <= k < |log[..n][i].effects| && log[..n][i].effects[k] == Audit(e, true);
      assert log[i].effects[k] == Audit(e, true);
    }
  }

  lemma IdleUnchanged(
    codec: Codec, env: P.Env, p: P.CompiledPolicy, log: seq<GR.Served>, s: State, events: seq<Event>,
    clock: nat -> int)
    requires LimitsIdle(codec, env, p) && RecordOf(codec, env, p, log, s, events)
    ensures Unchanged(codec, env, p, events, clock)
  {
    var rows := RowsOf(codec, events);
    forall i | 0 <= i < |rows| && rows[i].verb == "tools/call"
      ensures Free(env, p, CallOf(codec, rows[i])) && !Differs(codec, env, p, rows[i])
    {
      assert events[i] in multiset(events) && events[i] in Accepted(log);
      IdleRow(codec, env, p, log, s, events[i]);
    }
    ChangedExactly(codec, env, p, rows, clock, map[]);
  }

  lemma IdleRow(codec: Codec, env: P.Env, p: P.CompiledPolicy, log: seq<GR.Served>, s: State, e: Event)
    requires LimitsIdle(codec, env, p) && GR.Reaches(log, s) && GR.OnePolicy(env, p, log) && e in Accepted(log)
    requires Survives(codec, e.arguments) && !RejectedCall(e) && e.verb == "tools/call"
    ensures Free(env, p, CallOf(codec, RowOf(codec, e))) && !Differs(codec, env, p, RowOf(codec, e))
  {
    AcceptedAudited(log, e);
    var j, k :| 0 <= j < |log| && 0 <= k < |log[j].effects| && log[j].effects[k] == Audit(e, true);
    GatewayRecords(log, s, j, k);
    assert GR.Under(env, p, log[j]);
    assert Replayable(codec, P.Call(e.tool, e.arguments));
    assert Free(env, p, P.Call(e.tool, e.arguments));
    FreeRecords(env, p, e);
  }

  // ---- calls far enough apart are all allowed -----------------------------

  /** What an allowed call leaves in the bucket of a rule that limits it. */
  lemma AllowedCharges(env: P.Env, p: P.CompiledPolicy, req: E.Request, b: E.Buckets, i: nat)
    requires E.UniqueNames(p.allowRules) && i < |p.allowRules| && E.Limits(p.allowRules[i], req.call.name)
    requires E.Allowed(env, p, req, b)
    ensures E.AdmitsBy(p.allowRules[i], req, b)
    ensures R.Lookup(E.Step(env, Some(p), req, b).buckets, E.KeyFor(p.allowRules[i], req)) ==
      Some(E.ChargedBy(p.allowRules[i], req, b))
  {
    E.AllowedMeans(env, p, req, b);
    E.ChargeRefuses(p.allowRules, req, b);
    E.RefuserIsLimited(p.allowRules, req, b);
    E.ChargeCharges(p.allowRules, req, b, i);
  }

  predicate PositiveLimits(p: P.CompiledPolicy)
  {
    forall i :: 0 <= i < |p.allowRules| && p.allowRules[i].limit.Some? ==> E.PositiveLimit(p.allowRules[i].limit.value)
  }

  function Widest(rules: seq<P.Rule>): (w: nat)
    ensures forall i :: 0 <= i < |rules| && rules[i].limit.Some? ==> rules[i].limit.value.window <= w
  {
    if rules == [] then 0
    else
      var w, n := Widest(rules[..|rules| - 1]), |rules| - 1;
      if rules[n].limit.Some? && rules[n].limit.value.window > w then rules[n].limit.value.window else w
  }

  /** Every bucket of a rule that limits the call is unused since this time. */
  predicate Rested(p: P.CompiledPolicy, req: E.Request, b: E.Buckets, since: int)
  {
    forall i :: 0 <= i < |p.allowRules| && E.Limits(p.allowRules[i], req.call.name) ==>
      var c := R.Lookup(b, E.KeyFor(p.allowRules[i], req)); c.Some? ==> c.value.windowStart <= since
  }

  lemma RestedAllowed(env: P.Env, p: P.CompiledPolicy, req: E.Request, b: E.Buckets)
    requires E.UniqueNames(p.allowRules) && PositiveLimits(p)
    requires P.Evaluate(env, p, req.call).action == "allow" && Rested(p, req, b, req.now - Widest(p.allowRules))
    ensures E.Allowed(env, p, req, b)
    ensures Rested(p, req, E.Step(env, Some(p), req, b).buckets, req.now)
  {
    E.AllowedMeans(env, p, req, b);
    var after := E.Step(env, Some(p), req, b).buckets;
    forall i | 0 <= i < |p.allowRules| && E.Limits(p.allowRules[i], req.call.name)
      ensures R.Lookup(after, E.KeyFor(p.allowRules[i], req)).Some?
      ensures R.Lookup(after, E.KeyFor(p.allowRules[i], req)).value.windowStart <= req.now
    {
      AllowedCharges(env, p, req, b, i);
    }
  }

  function Ticks(gap: int, n: nat): int
  {
    if n == 0 then 0 else Ticks(gap, n - 1) + gap
  }

  /** The session was renewed at this time, and the buckets not used since. */
  predicate Ready(setup: Setup, p: P.CompiledPolicy, client: string, id: string, call: P.Call, s: State, last: int)
  {
    && s.sessions == map[id := S.Binding(client, last + setup.ttl)]
    && Rested(p, E.Request(call, client, last), s.buckets, last)
  }

  /** A policy with sound limits that allows this call, and a session that outlives
      the gap. */
  predicate Suits(setup: Setup, p: P.CompiledPolicy, call: P.Call, gap: int)
  {
    && setup.policy == Some(p) && setup.cap > 0 && setup.ttl > gap >= Widest(p.allowRules)
    && E.UniqueNames(p.allowRules) && PositiveLimits(p) && call.name != ""
    && P.Evaluate(setup.env, p, call).action == "allow"
  }

  lemma ReadyCall(
    setup: Setup, p: P.CompiledPolicy, client: string, id: string, call: P.Call, gap: int, s0: State, last: int)
    returns (s: State)
    requires Suits(setup, p, call, gap) && id != "" && Ready(setup, p, client, id, call, s0, last)
    ensures GR.Serving(s0, CallAt(setup, client, id, call, "", last + gap), s)
    ensures Ready(setup, p, client, id, call, s, last + gap)
  {
    var req := E.Request(call, client, last + gap);
    assert Rested(p, req, s0.buckets, req.now - Widest(p.allowRules)) by {
      forall i | 0 <= i < |p.allowRules|
        ensures E.KeyFor(p.allowRules[i], req) == E.KeyFor(p.allowRules[i], E.Request(call, client, last))
      {
      }
    }
    RestedAllowed(setup.env, p, req, s0.buckets);
    CallServed(setup, s0, client, id, call, "", last + gap);
    s := State(s0.sessions[id := S.Binding(client, last + gap + setup.ttl)],
      E.Step(setup.env, setup.policy, req, s0.buckets).buckets);
  }

  lemma OpenEffects(client: string, id: string, es: seq<Effect>, e: Event)
    requires es == [Audit(InitEvent(client, id), true), Publish(id, client), Send(Initialized(id))]
    requires e.verb == "tools/call"
    ensures AcceptedIn(es)[e] == 0
  {
    assert AcceptedIn(es[1..][1..][1..]) == multiset{};
    assert AcceptedIn(es[1..][1..]) == multiset{};
    assert AcceptedIn(es[1..]) == multiset{};
  }

  lemma CallEffectsOf(client: string, id: string, call: P.Call, es: seq<Effect>, e: Event)
    requires es == [CallUpstream(client, id, call), Audit(e, true), Send(ToolResult(""))]
    ensures AcceptedIn(es)[e] == 1
  {
    assert AcceptedIn(es[1..][1..][1..]) == multiset{};
    assert AcceptedIn(es[1..][1..]) == multiset{};
    assert AcceptedIn(es[1..]) == multiset{e};
  }

  lemma AcceptedMore(log: seq<GR.Served>, v: GR.Served)
    ensures Accepted(log + [v]) == Accepted(log) + AcceptedIn(v.effects)
  {
    assert (log + [v])[..|log|] == log;
  }

  lemma OnePolicyMore(env: P.Env, p: P.CompiledPolicy, log: seq<GR.Served>, v: GR.Served)
    requires GR.OnePolicy(env, p, log) && GR.Under(env, p, v)
    ensures GR.OnePolicy(env, p, log + [v])
  {
    forall i | 0 <= i < |log + [v]| ensures GR.Under(env, p, (log + [v])[i]) {
      assert i < |log| ==> GR.Under(env, p, log[i]);
    }
  }

  /** The session and n calls in it, this far apart. */
  function Recording(setup: Setup, client: string, id: string, call: P.Call, gap: int, n: nat): seq<GR.Served>
  {
    if n == 0 then [OpenAt(setup, client, id)]
    else Recording(setup, client, id, call, gap, n - 1) + [CallAt(setup, client, id, call, "", Ticks(gap, n))]
  }

  lemma SessionCalls(
    setup: Setup, p: P.CompiledPolicy, client: string, id: string, call: P.Call, gap: int, log: seq<GR.Served>,
    states: seq<State>, last: int) returns (s: State)
    requires Linked(log, states) && id != ""
    requires Suits(setup, p, call, gap) && Ready(setup, p, client, id, call, states[|log|], last)
    ensures Linked(log + [CallAt(setup, client, id, call, "", last + gap)], states + [s])
    ensures Ready(setup, p, client, id, call, s, last + gap)
  {
    s := ReadyCall(setup, p, client, id, call, gap, states[|log|], last);
    LinkedMore(log, states, CallAt(setup, client, id, call, "", last + gap), s);
  }

  lemma {:induction false} RecordingLinked(
    setup: Setup, p: P.CompiledPolicy, client: string, id: string, call: P.Call, gap: int, n: nat)
    returns (states: seq<State>)
    requires Suits(setup, p, call, gap) && id != ""
    ensures Linked(Recording(setup, client, id, call, gap, n), states)
    ensures Ready(setup, p, client, id, call, states[|states| - 1], Ticks(gap, n))
    decreases n
  {
    if n == 0 {
      states := [State(map[], map[]), State(map[id := S.Binding(client, setup.ttl)], map[])];
      OpenLinks(setup, client, id);
    } else {
      var before := RecordingLinked(setup, p, client, id, call, gap, n - 1);
      var log := Recording(setup, client, id, call, gap, n - 1);
      var s := SessionCalls(setup, p, client, id, call, gap, log, before, Ticks(gap, n - 1));
      states := before + [s];
    }
  }

  /** Every request of the recording is under the policy, and every call leaves its
      event. */
  lemma {:induction false} RecordingAudits(
    setup: Setup, p: P.CompiledPolicy, client: string, id: string, call: P.Call, gap: int, n: nat)
    requires setup.policy == Some(p)
    ensures GR.OnePolicy(setup.env, p, Recording(setup, client, id, call, gap, n))
    ensures Accepted(Recording(setup, client, id, call, gap, n))[ResultEvent(client, id, call, "")] == n
    decreases n
  {
    var e := ResultEvent(client, id, call, "");
    if n == 0 {
      var v := OpenAt(setup, client, id);
      OnePolicyMore(setup.env, p, [], v);
      AcceptedMore([], v);
      OpenEffects(client, id, v.effects, e);
      assert [] + [v] == [v];
    } else {
      var log, v := Recording(setup, client, id, call, gap, n - 1), CallAt(setup, client, id, call, "", Ticks(gap, n));
      RecordingAudits(setup, p, client, id, call, gap, n - 1);
      OnePolicyMore(setup.env, p, log, v);
      AcceptedMore(log, v);
      CallEffectsOf(client, id, call, v.effects, e);
    }
  }

  // ---- replayed with a standing clock -------------------------------------

  const STANDING: nat -> int := _ => 0

  /** While nothing is reported, every copy of the row takes a token of the same
      window. */
  lemma {:induction false} StandingReplay(
    codec: Codec, env: P.Env, p: P.CompiledPolicy, row: Row, i: nat, n: nat)
    requires E.UniqueNames(p.allowRules) && PositiveLimits(p)
    requires row.verb == "tools/call" && row.decision == "allow"
    requires i < |p.allowRules| && E.Limits(p.allowRules[i], row.tool)
    ensures var report := Replayed(codec, env, Some(p), R.Repeat(n, row), STANDING, map[]);
      AnyChanged(report.lines) ||
      (n <= p.allowRules[i].limit.value.max &&
       R.Lookup(report.buckets, E.Key(p.allowRules[i], row.tool, row.client)) ==
         if n == 0 then None else Some(R.Bucket(0, n)))
    decreases n
  {
    if n > 0 {
      var before := Replayed(codec, env, Some(p), R.Repeat(n - 1, row), STANDING, map[]);
      var req := E.Request(CallOf(codec, row), row.client, 0);
      StandingReplay(codec, env, p, row, i, n - 1);
      ReplayThen(codec, env, Some(p), R.Repeat(n - 1, row), row, STANDING, map[]);
      OneMoreLine(before.lines, LineFor(row, E.Step(env, Some(p), req, before.buckets).decision));
      if E.Allowed(env, p, req, before.buckets) {
        AllowedCharges(env, p, req, before.buckets, i);
      }
    }
  }

  lemma {:induction false} CopiesCount<T>(n: nat, x: T)
    ensures multiset(R.Repeat(n, x)) == multiset{}[x := n]
    decreases n
  {
    if n > 0 {
      CopiesCount(n - 1, x);
    }
  }

  lemma CopiedRows(codec: Codec, n: nat, e: Event)
    ensures RowsOf(codec, R.Repeat(n, e)) == R.Repeat(n, RowOf(codec, e))
  {
  }

  /** A limit at work on some allowed call: a record of calls far apart, all
      allowed, replays in an instant with a CHANGED. */
  lemma WorkingLimitChanges(codec: Codec, env: P.Env, p: P.CompiledPolicy, call: P.Call)
    returns (log: seq<GR.Served>, s: State, events: seq<Event>)
    requires E.UniqueNames(p.allowRules) && PositiveLimits(p)
    requires Replayable(codec, call) && !Free(env, p, call)
    ensures RecordOf(codec, env, p, log, s, events) && !Unchanged(codec, env, p, events, STANDING)
  {
    var i :| 0 <= i < |p.allowRules| && E.Limits(p.allowRules[i], call.name);
    assert E.PositiveLimit(p.allowRules[i].limit.value);
    var n, gap := p.allowRules[i].limit.value.max + 1, Widest(p.allowRules);
    var e := ResultEvent("c", "s", call, "");
    log, s := WorkingRecord(env, p, call, gap, n);
    events := R.Repeat(n, e);
    CopiesRecorded(codec, env, p, log, s, n, e);
    CopiedRows(codec, n, e);
    StandingReplay(codec, env, p, RowOf(codec, e), i, n);
  }

  lemma WorkingRecord(env: P.Env, p: P.CompiledPolicy, call: P.Call, gap: int, n: nat)
    returns (log: seq<GR.Served>, s: State)
    requires Suits(Setup(env, Some(p), gap + 1, 1), p, call, gap)
    ensures GR.Reaches(log, s) && GR.OnePolicy(env, p, log)
    ensures Accepted(log)[ResultEvent("c", "s", call, "")] == n
  {
    var setup := Setup(env, Some(p), gap + 1, 1);
    log := Recording(setup, "c", "s", call, gap, n);
    var states := RecordingLinked(setup, p, "c", "s", call, gap, n);
    LinkedReaches(log, states);
    s := states[|log|];
    RecordingAudits(setup, p, "c", "s", call, gap, n);
  }

  lemma CopiesRecorded(
    codec: Codec, env: P.Env, p: P.CompiledPolicy, log: seq<GR.Served>, s: State, n: nat, e: Event)
    requires GR.Reaches(log, s) && GR.OnePolicy(env, p, log) && Accepted(log)[e] == n
    requires Survives(codec, e.arguments) && !RejectedCall(e)
    ensures RecordOf(codec, env, p, log, s, R.Repeat(n, e))
  {
    CopiesCount(n, e);
  }

  /** A policy replays every record of its own unchanged, whatever the clock reads
      during the replay, if and only if no limited rule covers a call that it
      allows. */
  lemma LimitedReplayDecides(codec: Codec, env: P.Env, p: P.CompiledPolicy)
    requires E.UniqueNames(p.allowRules) && PositiveLimits(p)
    ensures ReplaysItself(codec, env, p) <==> LimitsIdle(codec, env, p)
  {
    if LimitsIdle(codec, env, p) {
      forall log: seq<GR.Served>, s: State, events: seq<Event>, clock: nat -> int |
        RecordOf(codec, env, p, log, s, events)
        ensures Unchanged(codec, env, p, events, clock)
      {
        IdleUnchanged(codec, env, p, log, s, events, clock);
      }
    } else {
      var call: P.Call :| Replayable(codec, call) && !Free(env, p, call);
      var log, s, events := WorkingLimitChanges(codec, env, p, call);
    }
  }
}
