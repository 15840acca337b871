/** The request flow of internal/gateway/gateway.go, from a decoded request: in
    what order a request is authenticated, matched to a session, decided, sent
    upstream, audited and answered. */
module Gateway {
  import opened Options
  import P = Policy
  import E = Engine
  import S = Sessions

  const INVALID_REQUEST := -32600
  const METHOD_NOT_FOUND := -32601
  const INVALID_PARAMS := -32602
  const SERVER_ERROR := -32000
  const POLICY_DENIED := -32001
  const UNAUTHORIZED := -32002
  const RATE_LIMITED := -32003

  const OK := 200
  const NO_CONTENT := 204
  const INTERNAL_ERROR := 500
  const UNAVAILABLE := 503

  function HttpStatus(code: int): int
  {
    if code == INVALID_REQUEST || code == INVALID_PARAMS then 400
    else if code == METHOD_NOT_FOUND then 404
    else if code == UNAUTHORIZED then 401
    else if code == RATE_LIMITED then 429
    else if code == SERVER_ERROR then INTERNAL_ERROR
    else OK
  }

  // ---- requests and effects -----------------------------------------------

  datatype Params = NoParams | BadParams | CallParams(call: P.Call)

  /** The client is what authentication makes of the request: None if it fails.
      The header is the session id sent along, "" if there is none. */
  datatype Request = Request(verb: string, notification: bool, client: Option<string>, header: string, params: Params)

  datatype Upstream = Answered(payload: string) | Refused(notReady: bool)

  datatype Listing = Names(tools: seq<string>) | ListFailed(notReady: bool)

  datatype Clock = Clock(resolved: int, evaluated: int, evicted: int, bound: int)

  /** What the environment contributes to one request: a new id, the clock
      readings, whether Log returns nil for the event, and the upstream. A nil
      return is not yet a row: LogReturns and AuditedRuns say what it is worth. */
  datatype Io = Io(newId: string, clock: Clock, logged: bool, upstream: Upstream, listing: Listing)

  datatype Answer = NoAnswer | ErrorCode(code: int) | Payload(text: string) | Shown(tools: seq<string>) | Greeting

  /** The recorded fields of an audit event that the flow decides. */
  datatype Event = Event(
    verb: string, tool: string, decision: string, rule: string, reason: string, client: string, session: string,
    arguments: map<string, P.Value>, answer: Answer)

  datatype Reply =
    | Status(status: int)
    | Fail(status: int, code: int)
    | Denied(status: int, code: int, rule: string, reason: string, retryAfterMs: Option<int>)
    | Initialized(session: string)
    | ToolList(tools: seq<string>)
    | ToolResult(payload: string)

  datatype Effect =
    | Audit(event: Event, ok: bool)
    | CallUpstream(client: string, session: string, call: P.Call)
    | ListUpstream
    | Publish(session: string, client: string)
    | Send(reply: Reply)

  datatype Setup = Setup(env: P.Env, policy: Option<P.CompiledPolicy>, ttl: int, cap: int)

  datatype State = State(sessions: S.Table, buckets: E.Buckets)

  // ---- kinds of requests --------------------------------------------------

  /** A request that opens a session. */
  predicate Initializes(req: Request)
  {
    req.verb == "initialize" && !req.notification
  }

  /** A request that is looked up in the session table first. */
  predicate NeedsSession(req: Request)
  {
    if req.notification then req.verb == "notifications/initialized" && req.header != ""
    else req.verb == "tools/list" || req.verb == "tools/call"
  }

  predicate NamesTool(req: Request)
  {
    req.verb == "tools/call" && !req.notification && req.params.CallParams? && req.params.call.name != ""
  }

  // ---- what each handler does ---------------------------------------------

  datatype Resolution = Resolution(sessions: S.Table, problem: Option<int>)

  function Resolve(sessions: S.Table, header: string, client: string, now: int, ttl: int): Resolution
  {
    if header == "" then Resolution(sessions, Some(INVALID_REQUEST))
    else
      var (after, owner) := S.LookupIn(sessions, header, now, ttl);
      Resolution(after,
        if owner.None? then Some(INVALID_REQUEST)
        else if owner.value != client then Some(UNAUTHORIZED)
        else None)
  }

  const AUDIT_FAILED := Fail(INTERNAL_ERROR, SERVER_ERROR)

  function RejectEvent(req: Request, client: string, code: int): Event
  {
    Event(req.verb, "", "deny", "", "", client, req.header, map[], ErrorCode(code))
  }

  /** Log first, then answer; if logging fails, say so instead. */
  function LogThenSend(event: Event, logged: bool, reply: Reply): seq<Effect>
  {
    [Audit(event, logged), Send(if logged then reply else AUDIT_FAILED)]
  }

  function InitEvent(client: string, session: string): Event
  {
    Event("initialize", "", "allow", "", "", client, session, map[], Greeting)
  }

  function InitEffects(client: string, io: Io): seq<Effect>
  {
    if io.logged then
      [Audit(InitEvent(client, io.newId), true), Publish(io.newId, client), Send(Initialized(io.newId))]
    else LogThenSend(InitEvent(client, io.newId), false, AUDIT_FAILED)
  }

  function UpstreamFailure(notReady: bool): Reply
  {
    Fail(if notReady then UNAVAILABLE else INTERNAL_ERROR, SERVER_ERROR)
  }

  predicate InSurface(policy: Option<P.CompiledPolicy>, tool: string)
  {
    policy.Some? && tool in policy.value.surface
  }

  function Visible(policy: Option<P.CompiledPolicy>, tools: seq<string>): seq<string>
  {
    if tools == [] then []
    else
      var n := |tools| - 1;
      Visible(policy, tools[..n]) + (if InSurface(policy, tools[n]) then [tools[n]] else [])
  }

  function ListEffects(setup: Setup, client: string, session: string, io: Io): seq<Effect>
  {
    match io.listing
    case ListFailed(notReady) =>
      [ListUpstream] + LogThenSend(Event("tools/list", "", "allow", "", "", client, session, map[],
        ErrorCode(SERVER_ERROR)), io.logged, UpstreamFailure(notReady))
    case Names(tools) =>
      var shown := Visible(setup.policy, tools);
      [ListUpstream] + LogThenSend(Event("tools/list", "", "allow", "", "", client, session, map[], Shown(shown)),
        io.logged, ToolList(shown))
  }

  function CallEvent(client: string, session: string, call: P.Call, d: P.Decision, answer: Answer): Event
  {
    Event("tools/call", call.name, d.action, d.rule, d.reason, client, session, call.arguments, answer)
  }

  function DenialCode(d: P.Decision): int
  {
    if d.rateLimited then RATE_LIMITED else POLICY_DENIED
  }

  /** The answer to a denied call says which rule denied it and why, and after a rate
      limit how long to wait. */
  function Denial(d: P.Decision): Reply
  {
    Denied(HttpStatus(DenialCode(d)), DenialCode(d), d.rule, d.reason,
      if d.rateLimited then Some(d.retryAfterMs) else None)
  }

  function CallEffects(client: string, session: string, call: P.Call, d: P.Decision, io: Io): seq<Effect>
  {
    if d.action == "deny" then
      LogThenSend(CallEvent(client, session, call, d, ErrorCode(DenialCode(d))), io.logged, Denial(d))
    else
      [CallUpstream(client, session, call)] +
      match io.upstream
      case Refused(notReady) =>
        LogThenSend(CallEvent(client, session, call, d, ErrorCode(SERVER_ERROR)), io.logged,
          UpstreamFailure(notReady))
      case Answered(payload) =>
        LogThenSend(CallEvent(client, session, call, d, Payload(payload)), io.logged, ToolResult(payload))
  }

  datatype Outcome = Outcome(effects: seq<Effect>, state: State)

  function ToEngine(req: Request, client: string, io: Io): E.Request
    requires req.params.CallParams?
  {
    E.Request(req.params.call, client, io.clock.evaluated)
  }

  /** tools/call once the session is accepted. */
  function Called(setup: Setup, s: State, req: Request, client: string, io: Io): Outcome
  {
    if req.params.BadParams? || req.params.NoParams? || req.params.call.name == "" then
      Outcome([Send(Fail(HttpStatus(INVALID_PARAMS), INVALID_PARAMS))], s)
    else
      var a := E.Step(setup.env, setup.policy, ToEngine(req, client, io), s.buckets);
      Outcome(CallEffects(client, req.header, req.params.call, a.decision, io), s.(buckets := a.buckets))
  }

  function Acknowledged(setup: Setup, s: State, req: Request, client: string, io: Io): Outcome
  {
    if req.verb != "notifications/initialized" || req.header == "" then Outcome([Send(Status(NO_CONTENT))], s)
    else
      var r := Resolve(s.sessions, req.header, client, io.clock.resolved, setup.ttl);
      var after := s.(sessions := r.sessions);
      var failed := Status(INTERNAL_ERROR);
      match r.problem
      case Some(code) =>
        Outcome([Audit(RejectEvent(req, client, code), io.logged),
          Send(if io.logged then Status(HttpStatus(code)) else failed)], after)
      case None =>
        Outcome([Audit(Event(req.verb, "", "allow", "", "", client, req.header, map[], NoAnswer), io.logged),
          Send(if io.logged then Status(NO_CONTENT) else failed)], after)
  }

  function InSession(setup: Setup, s: State, req: Request, client: string, io: Io): Outcome
  {
    var r := Resolve(s.sessions, req.header, client, io.clock.resolved, setup.ttl);
    var after := s.(sessions := r.sessions);
    match r.problem
    case Some(code) =>
      Outcome(LogThenSend(RejectEvent(req, client, code), io.logged, Fail(HttpStatus(code), code)), after)
    case None =>
      if req.verb == "tools/list" then Outcome(ListEffects(setup, client, req.header, io), after)
      else Called(setup, after, req, client, io)
  }

  /** Everything a request does, except that an initialize that succeeds still has
      to bind its session. */
  function Handled(setup: Setup, s: State, req: Request, io: Io): Outcome
  {
    if req.client.None? then
      Outcome([Send(if req.notification then Status(401) else Fail(HttpStatus(UNAUTHORIZED), UNAUTHORIZED))], s)
    else if req.notification then Acknowledged(setup, s, req, req.client.value, io)
    else if req.verb == "initialize" then Outcome(InitEffects(req.client.value, io), s)
    else if req.verb == "tools/list" || req.verb == "tools/call" then InSession(setup, s, req, req.client.value, io)
    else Outcome([Send(Fail(HttpStatus(METHOD_NOT_FOUND), METHOD_NOT_FOUND))], s)
  }

  predicate Binds(req: Request, io: Io)
  {
    req.client.Some? && !req.notification && req.verb == "initialize" && io.logged
  }

  /** One request, from state s to state s', with these effects. */
  ghost predicate Serves(setup: Setup, s: State, req: Request, io: Io, effects: seq<Effect>, s': State)
  {
    var o := Handled(setup, s, req, io);
    && effects == o.effects && s'.buckets == o.state.buckets
    && if Binds(req, io)
      then S.BindTo(s.sessions, io.newId, S.Binding(req.client.value, io.clock.bound + setup.ttl),
        io.clock.evicted, setup.cap, s'.sessions)
      else s'.sessions == o.state.sessions
  }

  // ---- the handlers -------------------------------------------------------

  class GatewayServer {
    const cache: S.SessionCache
    const engine: E.YAMLPolicyEngine
    var effects: seq<Effect>

    constructor (env: P.Env, policy: Option<P.CompiledPolicy>, ttl: int, cap: int)
      requires ttl > 0 && cap > 0
      ensures fresh(cache) && fresh(engine) && fresh(engine.limiter) && cache.Valid() && effects == []
      ensures Now() == State(map[], map[]) && Configured() == Setup(env, policy, ttl, cap)
    {
      cache := new S.SessionCache(ttl, cap);
      engine := new E.YAMLPolicyEngine(env, policy);
      effects := [];
    }

    ghost function Now(): State
      reads cache, engine.limiter
    {
      State(cache.sessions, engine.limiter.buckets)
    }

    ghost function Configured(): Setup
      reads cache, engine
    {
      Setup(engine.env, engine.policy, cache.ttl, cache.maxEntries)
    }

    method Do(e: Effect)
      modifies this
      ensures effects == old(effects) + [e]
    {
      effects := effects + [e];
    }

    /** The answer to a request whose event is complete: logged, then sent. */
    method LogAndSend(event: Event, logged: bool, reply: Reply, failed: Reply)
      modifies this
      ensures effects == old(effects) + [Audit(event, logged), Send(if logged then reply else failed)]
    {
      Do(Audit(event, logged));
      if !logged {
        Do(Send(failed));
        return;
      }
      Do(Send(reply));
    }

    method ResolveSession(header: string, client: string, now: int) returns (problem: Option<int>)
      requires cache.Valid()
      modifies cache`sessions
      ensures cache.Valid()
      ensures Resolution(cache.sessions, problem) == Resolve(old(cache.sessions), header, client, now, cache.ttl)
    {
      if header == "" {
        return Some(INVALID_REQUEST);
      }
      var owner := cache.Lookup(header, now);
      if owner.None? {
        return Some(INVALID_REQUEST);
      }
      if owner.value != client {
        return Some(UNAUTHORIZED);
      }
      return None;
    }

    method HandleInitialize(client: string, io: Io)
      requires cache.Valid() && io.newId != ""
      modifies this, cache`sessions
      ensures cache.Valid() && effects == old(effects) + InitEffects(client, io)
      ensures !io.logged ==> cache.sessions == old(cache.sessions)
      ensures io.logged ==> S.BindTo(old(cache.sessions), io.newId,
        S.Binding(client, io.clock.bound + cache.ttl), io.clock.evicted, cache.maxEntries, cache.sessions)
    {
      var event := Event("initialize", "", "allow", "", "", client, io.newId, map[], Greeting);
      Do(Audit(event, io.logged));
      if !io.logged {
        Do(Send(AUDIT_FAILED));
        return;
      }
      cache.Bind(io.newId, client, io.clock.evicted, io.clock.bound);
      Do(Publish(io.newId, client));
      Do(Send(Initialized(io.newId)));
    }

    method HandleToolsList(client: string, session: string, io: Io)
      modifies this
      ensures effects == old(effects) + ListEffects(Configured(), client, session, io)
    {
      Do(ListUpstream);
      var event := Event("tools/list", "", "allow", "", "", client, session, map[], NoAnswer);
      if io.listing.ListFailed? {
        var failure := UpstreamFailure(io.listing.notReady);
        LogAndSend(event.(answer := ErrorCode(SERVER_ERROR)), io.logged, failure, AUDIT_FAILED);
        return;
      }
      var tools := io.listing.tools;
      var allowed: seq<string> := [];
      for i := 0 to |tools|
        invariant allowed == Visible(engine.policy, tools[..i])
        invariant effects == old(effects) + [ListUpstream]
      {
        assert tools[..i + 1][..i] == tools[..i];
        if engine.IsToolAllowed(tools[i]) {
          allowed := allowed + [tools[i]];
        }
      }
      assert tools[..|tools|] == tools;
      LogAndSend(event.(answer := Shown(allowed)), io.logged, ToolList(allowed), AUDIT_FAILED);
    }

    method HandleToolsCall(req: Request, client: string, io: Io)
      modifies this, engine.limiter
      ensures var o := Called(old(Configured()), old(Now()), req, client, io);
        effects == old(effects) + o.effects && engine.limiter.buckets == o.state.buckets
    {
      if req.params.BadParams? {
        Do(Send(Fail(HttpStatus(INVALID_PARAMS), INVALID_PARAMS)));
        return;
      }
      if req.params.NoParams? || req.params.call.name == "" {
        Do(Send(Fail(HttpStatus(INVALID_PARAMS), INVALID_PARAMS)));
        return;
      }
      var call, session := req.params.call, req.header;
      var d := engine.Evaluate(E.Request(call, client, io.clock.evaluated));
      var event :=
        Event("tools/call", call.name, d.action, d.rule, d.reason, client, session, call.arguments, NoAnswer);
      if d.action == "deny" {
        if d.rateLimited {
          LogAndSend(event.(answer := ErrorCode(RATE_LIMITED)), io.logged,
            Denied(HttpStatus(RATE_LIMITED), RATE_LIMITED, d.rule, d.reason, Some(d.retryAfterMs)), AUDIT_FAILED);
          return;
        }
        LogAndSend(event.(answer := ErrorCode(POLICY_DENIED)), io.logged,
          Denied(HttpStatus(POLICY_DENIED), POLICY_DENIED, d.rule, d.reason, None), AUDIT_FAILED);
        return;
      }
      Do(CallUpstream(client, session, call));
      if io.upstream.Refused? {
        var failure := UpstreamFailure(io.upstream.notReady);
        LogAndSend(event.(answer := ErrorCode(SERVER_ERROR)), io.logged, failure, AUDIT_FAILED);
        return;
      }
      var payload := io.upstream.payload;
      LogAndSend(event.(answer := Payload(payload)), io.logged, ToolResult(payload), AUDIT_FAILED);
    }

    method HandleNotification(req: Request, client: string, io: Io)
      requires cache.Valid()
      modifies this, cache`sessions
      ensures cache.Valid()
      ensures var o := Acknowledged(old(Configured()), old(Now()), req, client, io);
        effects == old(effects) + o.effects && cache.sessions == o.state.sessions
    {
      if req.verb == "notifications/initialized" && req.header != "" {
        var problem := ResolveSession(req.header, client, io.clock.resolved);
        if problem.Some? {
          LogAndSend(RejectEvent(req, client, problem.value), io.logged,
            Status(HttpStatus(problem.value)), Status(INTERNAL_ERROR));
          return;
        }
        LogAndSend(Event(req.verb, "", "allow", "", "", client, req.header, map[], NoAnswer), io.logged,
          Status(NO_CONTENT), Status(INTERNAL_ERROR));
        return;
      }
      Do(Send(Status(NO_CONTENT)));
    }

    method HandleInSession(req: Request, client: string, io: Io)
      requires cache.Valid()
      modifies this, cache`sessions, engine.limiter
      ensures cache.Valid()
      ensures var o := InSession(old(Configured()), old(Now()), req, client, io);
        effects == old(effects) + o.effects && Now() == o.state
    {
      var problem := ResolveSession(req.header, client, io.clock.resolved);
      if problem.Some? {
        LogAndSend(RejectEvent(req, client, problem.value), io.logged,
          Fail(HttpStatus(problem.value), problem.value), AUDIT_FAILED);
        return;
      }
      if req.verb == "tools/list" {
        HandleToolsList(client, req.header, io);
      } else {
        HandleToolsCall(req, client, io);
      }
    }

    /** ServeHTTP from the point where the request is decoded. */
    method Serve(req: Request, io: Io)
      requires cache.Valid() && io.newId != ""
      modifies this, cache`sessions, engine.limiter
      ensures cache.Valid()
      ensures old(effects) <= effects
      ensures Serves(old(Configured()), old(Now()), req, io, effects[|old(effects)|..], Now())
    {
      if req.client.None? {
        if req.notification {
          Do(Send(Status(401)));
          return;
        }
        Do(Send(Fail(HttpStatus(UNAUTHORIZED), UNAUTHORIZED)));
        return;
      }
      var client := req.client.value;
      if req.notification {
        HandleNotification(req, client, io);
      } else if req.verb == "initialize" {
        HandleInitialize(client, io);
      } else if req.verb == "tools/list" || req.verb == "tools/call" {
        HandleInSession(req, client, io);
      } else {
        Do(Send(Fail(HttpStatus(METHOD_NOT_FOUND), METHOD_NOT_FOUND)));
      }
    }
  }
}
