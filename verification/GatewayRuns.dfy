/** What must have happened before: theorems over every run of requests through
    the gateway, with the policy, the TTL and the cap free to change between
    requests. */
module GatewayRuns {
  import opened Options
  import opened Gateway
  import P = Policy
  import E = Engine
  import R = RateLimit
  import S = Sessions

  /** One served request. */
  datatype Served = Served(setup: Setup, req: Request, io: Io, effects: seq<Effect>)

  ghost predicate Serving(s: State, v: Served, s': State)
  {
    Serves(v.setup, s, v.req, v.io, v.effects, s')
  }

  /** s can be the state after these requests, from no sessions and no buckets. */
  ghost predicate Reaches(log: seq<Served>, s: State)
    decreases |log|
  {
    if log == [] then s == State(map[], map[])
    else
      var n := |log| - 1;
      exists s0: State :: Reaches(log[..n], s0) && Serving(s0, log[n], s)
  }

  // ---- what an upstream call presupposes ----------------------------------

  /** This request was an initialize by this client: its audit event was accepted
      by Log, then the session published and the client told. */
  predicate Opened(v: Served, session: string, client: string)
  {
    && v.req.verb == "initialize" && !v.req.notification && v.req.client == Some(client)
    && v.effects == [Audit(Event("initialize", "", "allow", "", "", client, session, map[], Greeting), true),
      Publish(session, client), Send(Initialized(session))]
  }

  predicate OpenedIn(log: seq<Served>, session: string, client: string)
  {
    exists j :: 0 <= j < |log| && Opened(log[j], session, client)
  }

  predicate AllOpened(log: seq<Served>, m: S.Table)
  {
    forall id {:trigger m[id]} :: id in m ==> OpenedIn(log, id, m[id].client)
  }

  lemma OpenedStays(log: seq<Served>, session: string, client: string)
    requires log != [] && OpenedIn(log[..|log| - 1], session, client)
    ensures OpenedIn(log, session, client)
  {
  }

  lemma BoundClients(m: S.Table, newId: string, b: S.Binding, now: int, cap: int, m': S.Table, id: string)
    requires S.BindTo(m, newId, b, now, cap, m') && id in m'
    ensures if id == newId then m'[id] == b else id in m && m'[id] == m[id]
  {
  }

  /** Serving a request changes no session's client, and adds none but by an
      initialize whose audit event was accepted. */
  lemma ClientsKept(s: State, v: Served, s': State, id: string)
    requires Serving(s, v, s') && id in s'.sessions
    ensures (id in s.sessions && s.sessions[id].client == s'.sessions[id].client) ||
      Opened(v, id, s'.sessions[id].client)
  {
    if Binds(v.req, v.io) {
      BoundClients(s.sessions, v.io.newId, S.Binding(v.req.client.value, v.io.clock.bound + v.setup.ttl),
        v.io.clock.evicted, v.setup.cap, s'.sessions, id);
    } else {
      HandledKeepsClients(v.setup, s, v.req, v.io, id);
    }
  }

  lemma HandledKeepsClients(setup: Setup, s: State, req: Request, io: Io, id: string)
    requires id in Handled(setup, s, req, io).state.sessions
    ensures id in s.sessions && s.sessions[id].client == Handled(setup, s, req, io).state.sessions[id].client
  {
  }

  /** Every session in the table was opened by its client. */
  lemma {:induction false} SessionsWereOpened(log: seq<Served>, s: State)
    requires Reaches(log, s)
    ensures AllOpened(log, s.sessions)
    decreases |log|
  {
    if log != [] {
      var n := |log| - 1;
      var s0: State :| Reaches(log[..n], s0) && Serving(s0, log[n], s);
      SessionsWereOpened(log[..n], s0);
      forall id | id in s.sessions ensures OpenedIn(log, id, s.sessions[id].client) {
        ClientsKept(s0, log[n], s, id);
        if !Opened(log[n], id, s.sessions[id].client) {
          assert OpenedIn(log[..n], id, s0.sessions[id].client);
          OpenedStays(log, id, s.sessions[id].client);
        }
      }
    }
  }

  /** The state before request k. */
  lemma {:induction false} StateBefore(log: seq<Served>, s: State, k: nat) returns (s0: State, s1: State)
    requires Reaches(log, s) && k < |log|
    ensures Reaches(log[..k], s0) && Serving(s0, log[k], s1)
    decreases |log|
  {
    var n := |log| - 1;
    var b: State :| Reaches(log[..n], b) && Serving(b, log[n], s);
    if k == n {
      s0, s1 := b, s;
    } else {
      s0, s1 := StateBefore(log[..n], b, k);
      assert log[..n][..k] == log[..k];
    }
  }

  predicate Unexpired(m: S.Table, session: string, client: string, now: int)
  {
    session in m && m[session].client == client && m[session].expiresAt > now
  }

  predicate PolicyAllows(setup: Setup, call: P.Call)
  {
    setup.policy.Some? && P.Evaluate(setup.env, setup.policy.value, call).action == "allow"
  }

  predicate Calls(effects: seq<Effect>)
  {
    exists i :: 0 <= i < |effects| && effects[i].CallUpstream?
  }

  lemma CallOfCalled(setup: Setup, s: State, req: Request, client: string, io: Io, e: Effect)
    requires e in Called(setup, s, req, client, io).effects && e.CallUpstream?
    ensures req.params.CallParams? && req.params.call.name != ""
    ensures e == CallUpstream(client, req.header, req.params.call)
    ensures E.Step(setup.env, setup.policy, ToEngine(req, client, io), s.buckets).decision.action == "allow"
  {
  }

  lemma OnlyCallsCall(setup: Setup, s: State, req: Request, client: string, io: Io)
    ensures !Calls(InitEffects(client, io)) && !Calls(ListEffects(setup, client, req.header, io))
    ensures !Calls(Acknowledged(setup, s, req, client, io).effects)
  {
  }

  lemma CallOfSession(setup: Setup, s: State, req: Request, client: string, io: Io, e: Effect)
    requires e in InSession(setup, s, req, client, io).effects && e.CallUpstream?
    ensures req.verb != "tools/list" && Unexpired(s.sessions, req.header, client, io.clock.resolved)
    ensures var r := Resolve(s.sessions, req.header, client, io.clock.resolved, setup.ttl);
      e in Called(setup, s.(sessions := r.sessions), req, client, io).effects
  {
  }

  lemma StepAllowsByPolicy(setup: Setup, req: E.Request, b: E.Buckets)
    requires E.Step(setup.env, setup.policy, req, b).decision.action == "allow"
    ensures PolicyAllows(setup, req.call)
  {
  }

  /** Where an upstream call can come from, in one request. */
  lemma CallComesFrom(setup: Setup, s: State, req: Request, io: Io, client: string, session: string, call: P.Call)
    requires CallUpstream(client, session, call) in Handled(setup, s, req, io).effects
    ensures req.client == Some(client) && req.header == session && !req.notification && req.verb == "tools/call"
    ensures req.params == CallParams(call) && call.name != ""
    ensures Unexpired(s.sessions, session, client, io.clock.resolved) && PolicyAllows(setup, call)
    ensures E.Step(setup.env, setup.policy, ToEngine(req, client, io), s.buckets).decision.action == "allow"
  {
    var e := CallUpstream(client, session, call);
    assert req.client.Some?;
    var c := req.client.value;
    OnlyCallsCall(setup, s, req, c, io);
    assert e in Acknowledged(setup, s, req, c, io).effects ==> Calls(Acknowledged(setup, s, req, c, io).effects);
    assert e in InitEffects(c, io) ==> Calls(InitEffects(c, io));
    assert e in InSession(setup, s, req, c, io).effects && !req.notification;
    CallOfSession(setup, s, req, c, io, e);
    var r := Resolve(s.sessions, req.header, c, io.clock.resolved, setup.ttl);
    CallOfCalled(setup, s.(sessions := r.sessions), req, c, io, e);
    StepAllowsByPolicy(setup, ToEngine(req, c, io), s.buckets);
  }

  /** Over every run: an upstream call is made only for an authenticated client
      that names an unexpired session, which an earlier initialize by that same
      client opened after its audit event was accepted, and whose call the policy
      in force allows. */
  lemma UpstreamCallJustified(log: seq<Served>, s: State, k: nat, client: string, session: string, call: P.Call)
    returns (before: State)
    requires Reaches(log, s) && k < |log| && CallUpstream(client, session, call) in log[k].effects
    ensures log[k].req.client == Some(client) && log[k].req.header == session
    ensures log[k].req.verb == "tools/call" && log[k].req.params == CallParams(call)
    ensures OpenedIn(log[..k], session, client)
    ensures Reaches(log[..k], before) && Unexpired(before.sessions, session, client, log[k].io.clock.resolved)
    ensures PolicyAllows(log[k].setup, call)
  {
    var after;
    before, after := StateBefore(log, s, k);
    CallComesFrom(log[k].setup, before, log[k].req, log[k].io, client, session, call);
    SessionsWereOpened(log[..k], before);
    assert before.sessions[session].client == client;
  }

  /** With a policy compiled from a rule file, that means what the rules say when
      read directly. */
  lemma UpstreamCallFollowsRules(
    log: seq<Served>, s: State, k: nat, client: string, session: string, call: P.Call, pf: P.PolicyFile)
    requires Reaches(log, s) && k < |log| && CallUpstream(client, session, call) in log[k].effects
    requires P.Compilable(log[k].setup.env, pf) && log[k].setup.policy == Some(P.CompiledOf(log[k].setup.env, pf))
    ensures P.Allows(log[k].setup.env, pf, call)
  {
    var before := UpstreamCallJustified(log, s, k, client, session, call);
    P.AllowedExactly(log[k].setup.env, pf, call);
  }

  // ---- audit before answer ------------------------------------------------

  /** The tool result at position p was audited, with that very payload, before. */
  predicate AuditedBefore(effects: seq<Effect>, p: int, payload: string)
  {
    exists q :: 0 <= q < p < |effects| && effects[q].Audit? && effects[q].ok && ToolEvent(effects[q].event, payload)
  }

  predicate ToolEvent(e: Event, payload: string)
  {
    e.verb == "tools/call" && e.tool != "" && e.decision == "allow" && e.answer == Payload(payload)
  }

  lemma HandledAudits(setup: Setup, s: State, req: Request, io: Io, p: nat, payload: string)
    requires p < |Handled(setup, s, req, io).effects|
    requires Handled(setup, s, req, io).effects[p] == Send(ToolResult(payload))
    ensures AuditedBefore(Handled(setup, s, req, io).effects, p, payload)
  {
    var effects := Handled(setup, s, req, io).effects;
    assert |effects| == 3 && p == 2;
    var r := Resolve(s.sessions, req.header, req.client.value, io.clock.resolved, setup.ttl);
    StepIsBinary(setup, ToEngine(req, req.client.value, io), s.buckets);
    assert effects[1].Audit? && effects[1].ok && ToolEvent(effects[1].event, payload);
  }

  lemma StepIsBinary(setup: Setup, req: E.Request, b: E.Buckets)
    ensures var a := E.Step(setup.env, setup.policy, req, b).decision.action; a == "allow" || a == "deny"
  {
  }

  /** Over every run: no tool result is sent unless its own event, payload
      included, was accepted by Log first. */
  lemma NoUnauditedResult(log: seq<Served>, s: State, k: nat, p: nat, payload: string)
    requires Reaches(log, s) && k < |log| && p < |log[k].effects| && log[k].effects[p] == Send(ToolResult(payload))
    ensures AuditedBefore(log[k].effects, p, payload)
  {
    var before, after := StateBefore(log, s, k);
    HandledAudits(log[k].setup, before, log[k].req, log[k].io, p, payload);
  }

  function Audits(effects: seq<Effect>): nat
  {
    if effects == [] then 0 else Audits(effects[1..]) + (if effects[0].Audit? then 1 else 0)
  }

  function Sends(effects: seq<Effect>): nat
  {
    if effects == [] then 0 else Sends(effects[1..]) + (if effects[0].Send? then 1 else 0)
  }

  predicate Nameless(params: Params)
  {
    !params.CallParams? || params.call.name == ""
  }

  /** The session header is accepted. */
  predicate Accepts(sessions: S.Table, req: Request, client: string, io: Io)
  {
    req.header != "" && Unexpired(sessions, req.header, client, io.clock.resolved)
  }

  /** A request that an authenticated client is answered for without any record:
      a notification without a session to look at, an unknown method, or a call
      that names no tool. */
  predicate Unrecorded(sessions: S.Table, v: Served)
  {
    if v.req.client.None? then true
    else if v.req.notification then v.req.verb != "notifications/initialized" || v.req.header == ""
    else if v.req.verb == "tools/call" then
      Nameless(v.req.params) && Accepts(sessions, v.req, v.req.client.value, v.io)
    else v.req.verb != "initialize" && v.req.verb != "tools/list"
  }

  lemma CountEffects(e: Effect, f: Effect, g: Effect)
    ensures Audits([e]) == (if e.Audit? then 1 else 0) && Sends([e]) == (if e.Send? then 1 else 0)
    ensures Audits([e, f]) == Audits([e]) + Audits([f]) && Sends([e, f]) == Sends([e]) + Sends([f])
    ensures Audits([e, f, g]) == Audits([e]) + Audits([f]) + Audits([g])
    ensures Sends([e, f, g]) == Sends([e]) + Sends([f]) + Sends([g])
  {
  }

  /** Every request is answered exactly once, last, and makes at most one audit
      attempt: exactly one unless it is of the unrecorded kinds. */
  lemma OneAnswerOneRecord(log: seq<Served>, s: State, k: nat) returns (before: State)
    requires Reaches(log, s) && k < |log|
    ensures var es := log[k].effects; es != [] && es[|es| - 1].Send? && Sends(es) == 1
    ensures Reaches(log[..k], before)
    ensures Audits(log[k].effects) == if Unrecorded(before.sessions, log[k]) then 0 else 1
  {
    var after;
    before, after := StateBefore(log, s, k);
    HandledCounts(before, log[k]);
  }

  /** Just an answer; a record and an answer; or those with an upstream request
      before them or a session published between them. */
  predicate Shaped(es: seq<Effect>)
  {
    || (|es| == 1 && es[0].Send?)
    || (|es| == 2 && es[0].Audit? && es[1].Send?)
    || (|es| == 3 && es[0].Audit? && es[1].Publish? && es[2].Send?)
    || (|es| == 3 && (es[0].CallUpstream? || es[0].ListUpstream?) && es[1].Audit? && es[2].Send?)
  }

  lemma CountTwo(es: seq<Effect>)
    requires |es| == 2 && es[0].Audit? && es[1].Send?
    ensures Sends(es) == 1 && Audits(es) == 1
  {
    CountEffects(es[0], es[1], es[1]);
    CountEffects(es[1], es[1], es[1]);
    assert es == [es[0], es[1]];
  }

  lemma CountThree(es: seq<Effect>)
    requires |es| == 3 && es[2].Send? && !es[0].Send? && !es[1].Send? && es[0].Audit? != es[1].Audit?
    ensures Sends(es) == 1 && Audits(es) == 1
  {
    CountEffects(es[0], es[1], es[2]);
    CountEffects(es[1], es[2], es[2]);
    CountEffects(es[2], es[2], es[2]);
    assert es == [es[0], es[1], es[2]];
  }

  lemma ShapeCounts(es: seq<Effect>)
    requires Shaped(es)
    ensures Sends(es) == 1 && Audits(es) == if |es| == 1 then 0 else 1
  {
    if |es| == 1 {
      CountEffects(es[0], es[0], es[0]);
      assert es == [es[0]];
    } else if |es| == 2 {
      CountTwo(es);
    } else {
      CountThree(es);
    }
  }

  lemma CallShaped(client: string, session: string, call: P.Call, d: P.Decision, io: Io)
    ensures Shaped(CallEffects(client, session, call, d, io)) && |CallEffects(client, session, call, d, io)| > 1
  {
  }

  lemma SessionShaped(setup: Setup, s: State, req: Request, client: string, io: Io)
    requires req.verb == "tools/list" || req.verb == "tools/call"
    ensures Shaped(InSession(setup, s, req, client, io).effects)
    ensures |InSession(setup, s, req, client, io).effects| == 1 <==>
      req.verb == "tools/call" && Nameless(req.params) && Accepts(s.sessions, req, client, io)
  {
    if req.params.CallParams? && req.verb == "tools/call" {
      var r := Resolve(s.sessions, req.header, client, io.clock.resolved, setup.ttl);
      var d := E.Step(setup.env, setup.policy, ToEngine(req, client, io), s.buckets).decision;
      CallShaped(client, req.header, req.params.call, d, io);
    }
  }

  lemma HandledCounts(s: State, v: Served)
    requires v.effects == Handled(v.setup, s, v.req, v.io).effects
    ensures v.effects != [] && v.effects[|v.effects| - 1].Send? && Sends(v.effects) == 1
    ensures Audits(v.effects) == if Unrecorded(s.sessions, v) then 0 else 1
  {
    if v.req.client.Some? && !v.req.notification && (v.req.verb == "tools/list" || v.req.verb == "tools/call") {
      SessionShaped(v.setup, s, v.req, v.req.client.value, v.io);
    }
    ShapeCounts(v.effects);
  }

  /** In particular a tools/call that names a tool makes exactly one attempt,
      whatever becomes of its session, its policy decision and its upstream. */
  lemma NamedCallIsRecordedOnce(log: seq<Served>, s: State, k: nat)
    requires Reaches(log, s) && k < |log|
    requires log[k].req.client.Some? && !log[k].req.notification && log[k].req.verb == "tools/call"
    requires log[k].req.params.CallParams? && log[k].req.params.call.name != ""
    ensures Audits(log[k].effects) == 1
  {
    var before, after := StateBefore(log, s, k);
    HandledCounts(before, log[k]);
  }

  // ---- what becomes of an upstream call -----------------------------------

  function AnswerOf(u: Upstream): Answer
  {
    match u
    case Refused(_) => ErrorCode(SERVER_ERROR)
    case Answered(payload) => Payload(payload)
  }

  /** The call, one audit attempt for that very call, and an answer, which is the
      failure notice if the attempt was refused. */
  predicate CallThenAttempt(effects: seq<Effect>, client: string, session: string, call: P.Call, io: Io)
  {
    && |effects| == 3
    && effects[0] == CallUpstream(client, session, call)
    && effects[1] == Audit(Event("tools/call", call.name, "allow", "", "", client, session, call.arguments,
      AnswerOf(io.upstream)), io.logged)
    && effects[2].Send? && (!io.logged ==> effects[2] == Send(AUDIT_FAILED))
    && (io.logged && io.upstream.Answered? ==> effects[2] == Send(ToolResult(io.upstream.payload)))
  }

  /** The only decision that allows. */
  const ALLOWED := P.Decision("allow", "", "", false, 0)

  lemma AllowedIsAllowed(env: P.Env, policy: Option<P.CompiledPolicy>, req: E.Request, b: E.Buckets)
    requires E.Step(env, policy, req, b).decision.action == "allow"
    ensures E.Step(env, policy, req, b).decision == ALLOWED
  {
  }

  lemma AllowedEffects(client: string, session: string, call: P.Call, d: P.Decision, io: Io)
    requires d == ALLOWED
    ensures CallThenAttempt(CallEffects(client, session, call, d, io), client, session, call, io)
  {
  }

  lemma CalledEffects(setup: Setup, s: State, req: Request, io: Io, client: string)
    requires req.client == Some(client) && !req.notification && req.verb == "tools/call"
    requires Accepts(s.sessions, req, client, io)
    requires req.params.CallParams? && req.params.call.name != ""
    ensures var d := E.Step(setup.env, setup.policy, ToEngine(req, client, io), s.buckets).decision;
      Handled(setup, s, req, io).effects == CallEffects(client, req.header, req.params.call, d, io)
  {
  }

  predicate SomeAccepted(effects: seq<Effect>)
  {
    exists q :: 0 <= q < |effects| && effects[q].Audit? && effects[q].ok
  }

  /** Over every run: an upstream call is followed by exactly one audit attempt,
      for that call, and goes unrecorded if and only if that attempt is refused. */
  lemma UpstreamCallAttempted(log: seq<Served>, s: State, k: nat, client: string, session: string, call: P.Call)
    requires Reaches(log, s) && k < |log| && CallUpstream(client, session, call) in log[k].effects
    ensures CallThenAttempt(log[k].effects, client, session, call, log[k].io)
    ensures Audits(log[k].effects) == 1
    ensures SomeAccepted(log[k].effects) <==> log[k].io.logged
  {
    var v := log[k];
    var before, after := StateBefore(log, s, k);
    CallComesFrom(v.setup, before, v.req, v.io, client, session, call);
    HandledHeader(v.setup, before, v.req, v.io, client, session, call);
    CalledEffects(v.setup, before, v.req, v.io, client);
    var d := E.Step(v.setup.env, v.setup.policy, ToEngine(v.req, client, v.io), before.buckets).decision;
    AllowedIsAllowed(v.setup.env, v.setup.policy, ToEngine(v.req, client, v.io), before.buckets);
    AllowedEffects(client, session, call, d, v.io);
    AttemptCounted(v.effects, client, session, call, v.io);
  }

  lemma HandledHeader(setup: Setup, s: State, req: Request, io: Io, client: string, session: string, call: P.Call)
    requires CallUpstream(client, session, call) in Handled(setup, s, req, io).effects
    ensures req.header != ""
  {
  }

  lemma AttemptCounted(es: seq<Effect>, client: string, session: string, call: P.Call, io: Io)
    requires CallThenAttempt(es, client, session, call, io)
    ensures Audits(es) == 1 && (SomeAccepted(es) <==> io.logged)
  {
    ShapeCounts(es);
    if io.logged {
      assert es[1].Audit? && es[1].ok;
    }
  }

  /** The two requests of a session with one call. */
  function OpenAndCall(
    setup: Setup, client: string, id: string, call: P.Call, payload: string, logged: bool): seq<Served>
  {
    var clock := Clock(0, 0, 0, 0);
    var open := Request("initialize", false, Some(client), "", NoParams);
    var use := Request("tools/call", false, Some(client), id, CallParams(call));
    var io1 := Io(id, clock, true, Refused(false), ListFailed(false));
    var io2 := Io(id, clock, logged, Answered(payload), ListFailed(false));
    var d := E.Step(setup.env, setup.policy, E.Request(call, client, 0), map[]).decision;
    [Served(setup, open, io1, InitEffects(client, io1)), Served(setup, use, io2, CallEffects(client, id, call, d, io2))]
  }

  lemma OpenedState(setup: Setup, client: string, id: string, call: P.Call, payload: string, logged: bool)
    requires setup.cap > 0
    ensures var v := OpenAndCall(setup, client, id, call, payload, logged)[0];
      Serving(State(map[], map[]), v, State(map[id := S.Binding(client, setup.ttl)], map[]))
  {
    var live := S.Live(map[], 0);
    assert live == map[];
    assert S.Evicts(live, S.Excess(|live|, setup.cap), map[]);
  }

  /** Both outcomes are reached: for every policy that allows the call there is a
      run in which the call goes upstream and its attempt is accepted and the
      result sent, and one in which it is refused and no record is left. */
  lemma OpenAndCallRun(setup: Setup, client: string, id: string, call: P.Call, payload: string, logged: bool)
    returns (s: State)
    requires setup.cap > 0 && setup.ttl > 0 && id != "" && call.name != ""
    requires E.Step(setup.env, setup.policy, E.Request(call, client, 0), map[]).decision.action == "allow"
    ensures var log := OpenAndCall(setup, client, id, call, payload, logged);
      && Reaches(log, s) && CallThenAttempt(log[1].effects, client, id, call, log[1].io)
      && (SomeAccepted(log[1].effects) <==> logged)
      && log[0].effects == [Audit(InitEvent(client, id), true), Publish(id, client), Send(Initialized(id))]
  {
    var log := OpenAndCall(setup, client, id, call, payload, logged);
    var s0, s1 := State(map[], map[]), State(map[id := S.Binding(client, setup.ttl)], map[]);
    OpenedState(setup, client, id, call, payload, logged);
    var v := log[1];
    CalledEffects(setup, s1, v.req, v.io, client);
    AllowedIsAllowed(setup.env, setup.policy, E.Request(call, client, 0), map[]);
    AllowedEffects(client, id, call, E.Step(setup.env, setup.policy, E.Request(call, client, 0), map[]).decision, v.io);
    AttemptCounted(v.effects, client, id, call, v.io);
    s := Handled(setup, s1, v.req, v.io).state;
    assert log[..1] == [log[0]] && log[..1][..0] == [];
    assert Reaches(log[..1][..0], s0) && Serving(s0, log[..1][0], s1);
    assert Reaches(log[..1], s1) && Serving(s1, log[1], s);
  }

  // ---- the rate of upstream calls -----------------------------------------

  /** The request got as far as the policy engine. */
  predicate Evaluated(v: Served)
  {
    && v.req.params.CallParams? && v.req.client.Some? && v.effects != []
    && (v.effects[0].CallUpstream? || (v.effects[0].Audit? && v.effects[0].event.tool != ""))
  }

  function EngineRequest(v: Served): E.Request
    requires Evaluated(v)
  {
    ToEngine(v.req, v.req.client.value, v.io)
  }

  function EngineRequests(log: seq<Served>): seq<E.Request>
  {
    if log == [] then []
    else
      var n := |log| - 1;
      if Evaluated(log[n]) then EngineRequests(log[..n]) + [EngineRequest(log[n])] else EngineRequests(log[..n])
  }

  predicate CallsUpstream(v: Served)
  {
    v.effects != [] && v.effects[0].CallUpstream?
  }

  /** When the upstream was called in this scope. */
  function UpstreamTimes(log: seq<Served>, sc: E.Scope): seq<int>
    requires sc.rule.limit.Some?
  {
    if log == [] then []
    else
      var n := |log| - 1;
      var v := log[n];
      if CallsUpstream(v) && Evaluated(v) && E.InScope(sc, EngineRequest(v))
      then UpstreamTimes(log[..n], sc) + [v.io.clock.evaluated]
      else UpstreamTimes(log[..n], sc)
  }

  ghost predicate Under(env: P.Env, p: P.CompiledPolicy, v: Served)
  {
    v.setup.env == env && v.setup.policy == Some(p)
  }

  ghost predicate OnePolicy(env: P.Env, p: P.CompiledPolicy, log: seq<Served>)
  {
    forall i :: 0 <= i < |log| ==> Under(env, p, log[i])
  }

  lemma CalledOnEngine(setup: Setup, s: State, req: Request, client: string, io: Io, v: Served)
    requires v == Served(setup, req, io, Called(setup, s, req, client, io).effects) && req.client == Some(client)
    requires setup.policy.Some?
    ensures Called(setup, s, req, client, io).state.buckets ==
      if Evaluated(v) then E.Step(setup.env, setup.policy, EngineRequest(v), s.buckets).buckets else s.buckets
    ensures CallsUpstream(v) <==> Evaluated(v) && E.Allowed(setup.env, setup.policy.value, EngineRequest(v), s.buckets)
  {
  }

  /** The effects do not show that the policy engine was asked. */
  predicate Quiet(es: seq<Effect>)
  {
    es != [] && !es[0].CallUpstream? && (es[0].Audit? ==> es[0].event.tool == "")
  }

  lemma OtherRequestsAreQuiet(setup: Setup, s: State, req: Request, io: Io)
    requires req.client.None? || req.notification || req.verb != "tools/call"
    ensures Quiet(Handled(setup, s, req, io).effects) && Handled(setup, s, req, io).state.buckets == s.buckets
  {
  }

  lemma RejectedIsQuiet(setup: Setup, s: State, req: Request, client: string, io: Io)
    requires Resolve(s.sessions, req.header, client, io.clock.resolved, setup.ttl).problem.Some?
    ensures Quiet(InSession(setup, s, req, client, io).effects)
    ensures InSession(setup, s, req, client, io).state.buckets == s.buckets
  {
  }

  lemma CallHandled(setup: Setup, s: State, req: Request, client: string, io: Io)
    requires req.client == Some(client) && !req.notification && req.verb == "tools/call"
    ensures Handled(setup, s, req, io) == InSession(setup, s, req, client, io)
    ensures var r := Resolve(s.sessions, req.header, client, io.clock.resolved, setup.ttl);
      r.problem.None? ==>
        InSession(setup, s, req, client, io) == Called(setup, s.(sessions := r.sessions), req, client, io)
  {
  }

  /** What one request does to the engine. */
  lemma ServingOnEngine(s: State, v: Served, s': State)
    requires Serving(s, v, s') && v.setup.policy.Some?
    ensures s'.buckets ==
      if Evaluated(v) then E.Step(v.setup.env, v.setup.policy, EngineRequest(v), s.buckets).buckets else s.buckets
    ensures CallsUpstream(v) <==>
      Evaluated(v) && E.Allowed(v.setup.env, v.setup.policy.value, EngineRequest(v), s.buckets)
  {
    if v.req.client.None? || v.req.notification || v.req.verb != "tools/call" {
      OtherRequestsAreQuiet(v.setup, s, v.req, v.io);
    } else {
      var client := v.req.client.value;
      var r := Resolve(s.sessions, v.req.header, client, v.io.clock.resolved, v.setup.ttl);
      CallHandled(v.setup, s, v.req, client, v.io);
      if r.problem.None? {
        CalledOnEngine(v.setup, s.(sessions := r.sessions), v.req, client, v.io, v);
      } else {
        RejectedIsQuiet(v.setup, s, v.req, client, v.io);
      }
    }
  }

  /** Through any run the engine sees one call after another, and the upstream is
      called exactly when it allows one. */
  lemma {:induction false} RunIsEngineRun(env: P.Env, p: P.CompiledPolicy, log: seq<Served>, s: State, sc: E.Scope)
    requires Reaches(log, s) && OnePolicy(env, p, log) && sc.rule.limit.Some?
    ensures s.buckets == E.BucketsAfter(env, p, EngineRequests(log))
    ensures UpstreamTimes(log, sc) == E.AllowedTimes(env, p, EngineRequests(log), sc)
    decreases |log|
  {
    if log != [] {
      var n := |log| - 1;
      var s0: State :| Reaches(log[..n], s0) && Serving(s0, log[n], s);
      RunIsEngineRun(env, p, log[..n], s0, sc);
      assert Under(env, p, log[n]);
      ServingOnEngine(s0, log[n], s);
      if Evaluated(log[n]) {
        var reqs := EngineRequests(log);
        assert reqs[..|reqs| - 1] == EngineRequests(log[..n]);
      }
    }
  }

  /** Names of limited rules and client ids are separable from the scope's, and the
      clock that the engine reads does not go back. */
  predicate ApartRun(p: P.CompiledPolicy, sc: E.Scope, log: seq<Served>)
  {
    && E.UniqueNames(p.allowRules)
    && (forall i :: 0 <= i < |p.allowRules| && p.allowRules[i].limit.Some? ==>
        E.Separable(p.allowRules[i].name, sc.rule.name))
    && (forall i :: 0 <= i < |log| && log[i].req.client.Some? ==> E.Separable(log[i].req.client.value, sc.client))
    && (forall i, j :: 0 <= i < j < |log| ==> log[i].io.clock.evaluated <= log[j].io.clock.evaluated)
  }

  lemma {:induction false} EngineRequestsApart(p: P.CompiledPolicy, sc: E.Scope, log: seq<Served>)
    requires ApartRun(p, sc, log)
    ensures E.Apart(p, sc, EngineRequests(log)) && E.InTimeOrder(EngineRequests(log))
    ensures forall i :: 0 <= i < |EngineRequests(log)| ==>
      log != [] && EngineRequests(log)[i].now <= log[|log| - 1].io.clock.evaluated
    decreases |log|
  {
    if log != [] {
      var n := |log| - 1;
      assert ApartRun(p, sc, log[..n]);
      EngineRequestsApart(p, sc, log[..n]);
    }
  }

  /** Over every run under one policy: for every limited allow rule and every tool
      it covers, the upstream is called for that tool (by that client, where the
      limit is per client) at most 2 * max - 1 times in any interval of the
      window's length. */
  lemma UpstreamRateBound(env: P.Env, p: P.CompiledPolicy, log: seq<Served>, s: State, sc: E.Scope, from: int)
    requires Reaches(log, s) && OnePolicy(env, p, log) && ApartRun(p, sc, log)
    requires E.ScopeOf(p, sc) && E.PositiveLimit(sc.rule.limit.value)
    ensures R.CountIn(UpstreamTimes(log, sc), from, from + sc.rule.limit.value.window)
      <= 2 * sc.rule.limit.value.max - 1
  {
    RunIsEngineRun(env, p, log, s, sc);
    EngineRequestsApart(p, sc, log);
    E.EngineBound(env, p, EngineRequests(log), sc, from);
  }

  // ---- what tools/list shows ----------------------------------------------

  /** The list sent holds each of the upstream's tools as often as it does, except
      those outside the policy's surface. */
  lemma {:induction false} VisibleExactly(policy: Option<P.CompiledPolicy>, tools: seq<string>, t: string)
    ensures t in Visible(policy, tools) <==> t in tools && InSurface(policy, t)
    ensures multiset(Visible(policy, tools))[t] == if InSurface(policy, t) then multiset(tools)[t] else 0
    decreases |tools|
  {
    if tools != [] {
      var n := |tools| - 1;
      VisibleExactly(policy, tools[..n], t);
      assert tools == tools[..n] + [tools[n]];
    }
  }
}
