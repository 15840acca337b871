/** What the gateway answers and what it records, field by field, over every run of
    requests: whom the events name, what a tools/list shows, and the status and
    code of every refusal. */
module GatewayAnswers {
  import opened Gateway
  import opened GatewayRuns
  import opened Options
  import P = Policy
  import E = Engine
  import S = Sessions

  // ---- what is to be expected ---------------------------------------------

  /** The event names the request: who sent it, what it was, and in which session. */
  predicate NamesRequest(e: Event, req: Request, newId: string)
  {
    && req.client == Some(e.client) && e.verb == req.verb
    && e.session == if Initializes(req) then newId else req.header
  }

  predicate Known(sessions: S.Table, session: string, now: int)
  {
    session != "" && session in sessions && sessions[session].expiresAt > now
  }

  /** A session that is missing, unknown or expired is an invalid request; that of
      another client is unauthorized. */
  function RefusalCode(sessions: S.Table, req: Request, now: int): int
  {
    if Known(sessions, req.header, now) then -32002 else -32600
  }

  function RefusalStatus(sessions: S.Table, req: Request, now: int): int
  {
    if Known(sessions, req.header, now) then 401 else 400
  }

  predicate InItsSession(sessions: S.Table, req: Request, now: int)
  {
    && req.client.Some? && req.header != ""
    && Unexpired(sessions, req.header, req.client.value, now)
  }

  function EngineDecision(setup: Setup, s: State, req: Request, client: string, io: Io): P.Decision
    requires req.params.CallParams?
  {
    E.Step(setup.env, setup.policy, E.Request(req.params.call, client, io.clock.evaluated), s.buckets).decision
  }

  /** The event of a named tools/call in its session: the call, the engine's decision
      with its rule and reason, and what came of it. */
  predicate RecordsCall(e: Event, call: P.Call, d: P.Decision, upstream: Upstream)
  {
    && e.tool == call.name && e.arguments == call.arguments
    && e.decision == d.action && e.rule == d.rule && e.reason == d.reason
    && e.answer ==
      if d.action == "deny" then ErrorCode(if d.rateLimited then -32003 else -32001)
      else match upstream
        case Refused(_) => ErrorCode(-32000)
        case Answered(payload) => Payload(payload)
  }

  /** These are the tools in the surface, each as often as the upstream lists it, in
      its order. */
  ghost predicate ShowsExactly(policy: Option<P.CompiledPolicy>, tools: seq<string>, sent: seq<string>)
  {
    && (forall t :: multiset(sent)[t] == if InSurface(policy, t) then multiset(tools)[t] else 0)
    && (exists places: seq<nat> :: InPlaces(places, tools, sent))
  }

  predicate InPlaces(places: seq<nat>, tools: seq<string>, sent: seq<string>)
  {
    && |places| == |sent|
    && (forall i :: 0 <= i < |sent| ==> places[i] < |tools| && sent[i] == tools[places[i]])
    && (forall i, j :: 0 <= i < j < |sent| ==> places[i] < places[j])
  }

  /** The event of any other request: no tool, no arguments, no rule; denied exactly
      if a session was refused, and with what the client is told. */
  ghost predicate RecordsOther(setup: Setup, s: State, req: Request, io: Io, e: Event)
  {
    var refused := NeedsSession(req) && !InItsSession(s.sessions, req, io.clock.resolved);
    && e.tool == "" && e.arguments == map[] && e.rule == "" && e.reason == ""
    && e.decision == (if refused then "deny" else "allow")
    && if refused then e.answer == ErrorCode(RefusalCode(s.sessions, req, io.clock.resolved))
       else if req.notification then e.answer == NoAnswer
       else if Initializes(req) then e.answer == Greeting
       else match io.listing
         case ListFailed(_) => e.answer == ErrorCode(-32000)
         case Names(tools) => e.answer.Shown? && ShowsExactly(setup.policy, tools, e.answer.tools)
  }

  // ---- the filtered list --------------------------------------------------

  lemma {:induction false} VisibleInPlaces(policy: Option<P.CompiledPolicy>, tools: seq<string>)
    returns (places: seq<nat>)
    ensures InPlaces(places, tools, Visible(policy, tools))
    decreases |tools|
  {
    if tools == [] {
      places := [];
    } else {
      var n := |tools| - 1;
      var before := VisibleInPlaces(policy, tools[..n]);
      places := if InSurface(policy, tools[n]) then before + [n] else before;
    }
  }

  lemma VisibleShows(policy: Option<P.CompiledPolicy>, tools: seq<string>)
    ensures ShowsExactly(policy, tools, Visible(policy, tools))
  {
    forall t ensures multiset(Visible(policy, tools))[t] == if InSurface(policy, t) then multiset(tools)[t] else 0 {
      VisibleExactly(policy, tools, t);
    }
    var places := VisibleInPlaces(policy, tools);
  }

  // ---- every event --------------------------------------------------------

  /** What is recorded of one request. */
  ghost predicate Recorded(setup: Setup, s: State, req: Request, io: Io, e: Event)
  {
    && NamesRequest(e, req, io.newId)
    && if NamesTool(req) && InItsSession(s.sessions, req, io.clock.resolved)
       then RecordsCall(e, req.params.call, EngineDecision(setup, s, req, e.client, io), io.upstream)
       else RecordsOther(setup, s, req, io, e)
  }

  lemma CallRecorded(setup: Setup, s: State, req: Request, io: Io, client: string, q: nat)
    requires req.client == Some(client) && NamesTool(req) && InItsSession(s.sessions, req, io.clock.resolved)
    requires q < |Handled(setup, s, req, io).effects| && Handled(setup, s, req, io).effects[q].Audit?
    ensures Recorded(setup, s, req, io, Handled(setup, s, req, io).effects[q].event)
    ensures Handled(setup, s, req, io).effects[q].ok == io.logged
  {
    CalledEffects(setup, s, req, io, client);
    StepIsBinary(setup, ToEngine(req, client, io), s.buckets);
  }

  lemma ListRecorded(setup: Setup, s: State, req: Request, io: Io, client: string, q: nat)
    requires req.client == Some(client) && req.verb == "tools/list" && !req.notification
    requires InItsSession(s.sessions, req, io.clock.resolved)
    requires q < |Handled(setup, s, req, io).effects| && Handled(setup, s, req, io).effects[q].Audit?
    ensures Recorded(setup, s, req, io, Handled(setup, s, req, io).effects[q].event)
    ensures Handled(setup, s, req, io).effects[q].ok == io.logged
  {
    if io.listing.Names? {
      VisibleShows(setup.policy, io.listing.tools);
    }
    assert Handled(setup, s, req, io).effects == ListEffects(setup, client, req.header, io);
  }

  lemma RefusedRecorded(setup: Setup, s: State, req: Request, io: Io, q: nat)
    requires req.client.Some? && !req.notification && !InItsSession(s.sessions, req, io.clock.resolved)
    requires q < |Handled(setup, s, req, io).effects| && Handled(setup, s, req, io).effects[q].Audit?
    ensures Recorded(setup, s, req, io, Handled(setup, s, req, io).effects[q].event)
    ensures Handled(setup, s, req, io).effects[q].ok == io.logged
  {
  }

  lemma NoticeRecorded(setup: Setup, s: State, req: Request, io: Io, q: nat)
    requires req.notification
    requires q < |Handled(setup, s, req, io).effects| && Handled(setup, s, req, io).effects[q].Audit?
    ensures Recorded(setup, s, req, io, Handled(setup, s, req, io).effects[q].event)
    ensures Handled(setup, s, req, io).effects[q].ok == io.logged
  {
  }

  lemma RestRecorded(setup: Setup, s: State, req: Request, io: Io, q: nat)
    requires !(req.client.Some? && !req.notification && InItsSession(s.sessions, req, io.clock.resolved) &&
      (req.verb == "tools/list" || NamesTool(req)))
    requires q < |Handled(setup, s, req, io).effects| && Handled(setup, s, req, io).effects[q].Audit?
    ensures Recorded(setup, s, req, io, Handled(setup, s, req, io).effects[q].event)
    ensures Handled(setup, s, req, io).effects[q].ok == io.logged
  {
    if req.notification {
      NoticeRecorded(setup, s, req, io, q);
    } else if req.client.Some? && !InItsSession(s.sessions, req, io.clock.resolved) {
      RefusedRecorded(setup, s, req, io, q);
    }
  }

  lemma HandledRecorded(setup: Setup, s: State, req: Request, io: Io, q: nat)
    requires q < |Handled(setup, s, req, io).effects| && Handled(setup, s, req, io).effects[q].Audit?
    ensures Recorded(setup, s, req, io, Handled(setup, s, req, io).effects[q].event)
    ensures Handled(setup, s, req, io).effects[q].ok == io.logged
  {
    if req.client.Some? && !req.notification && InItsSession(s.sessions, req, io.clock.resolved) {
      if NamesTool(req) {
        CallRecorded(setup, s, req, io, req.client.value, q);
      } else if req.verb == "tools/list" {
        ListRecorded(setup, s, req, io, req.client.value, q);
      } else {
        RestRecorded(setup, s, req, io, q);
      }
    } else {
      RestRecorded(setup, s, req, io, q);
    }
  }

  /** Over every run, every audit event: it is accepted exactly if Log returned nil;
      it names the request's own client, verb and session; a named call in its session
      is recorded with its tool, arguments and outcome and the engine's decision, rule
      and reason; and any other request with what its client is told. */
  lemma EventsTell(log: seq<Served>, s: State, k: nat, q: nat) returns (before: State)
    requires Reaches(log, s) && k < |log| && q < |log[k].effects| && log[k].effects[q].Audit?
    ensures Reaches(log[..k], before) && log[k].effects[q].ok == log[k].io.logged
    ensures Recorded(log[k].setup, before, log[k].req, log[k].io, log[k].effects[q].event)
  {
    var after;
    before, after := StateBefore(log, s, k);
    HandledRecorded(log[k].setup, before, log[k].req, log[k].io, q);
  }

  // ---- every answer -------------------------------------------------------

  /** The answer to a named call in its session. */
  predicate AnswersCall(r: Reply, d: P.Decision, upstream: Upstream)
  {
    if d.action == "deny" then
      r == if d.rateLimited then Denied(429, -32003, d.rule, d.reason, Some(d.retryAfterMs))
           else Denied(200, -32001, d.rule, d.reason, None)
    else match upstream
      case Refused(notReady) => r == Fail(if notReady then 503 else 500, -32000)
      case Answered(payload) => r == ToolResult(payload)
  }

  ghost predicate AnswersList(r: Reply, policy: Option<P.CompiledPolicy>, listing: Listing)
  {
    match listing
    case ListFailed(notReady) => r == Fail(if notReady then 503 else 500, -32000)
    case Names(tools) => r.ToolList? && ShowsExactly(policy, tools, r.tools)
  }

  /** The answer to a request of an authenticated client that is looked up. */
  ghost predicate AnswersInSession(setup: Setup, s: State, req: Request, io: Io, r: Reply)
    requires req.client.Some?
  {
    var now := io.clock.resolved;
    if !InItsSession(s.sessions, req, now) then
      r == if req.notification then Status(RefusalStatus(s.sessions, req, now))
           else Fail(RefusalStatus(s.sessions, req, now), RefusalCode(s.sessions, req, now))
    else if req.notification then r == Status(204)
    else if req.verb == "tools/list" then AnswersList(r, setup.policy, io.listing)
    else if !NamesTool(req) then r == Fail(400, -32602)
    else AnswersCall(r, EngineDecision(setup, s, req, req.client.value, io), io.upstream)
  }

  /** A request that is answered without an audit attempt. */
  predicate Unattempted(s: State, req: Request, io: Io)
  {
    || (!Initializes(req) && !NeedsSession(req))
    || (req.verb == "tools/call" && !req.notification && !NamesTool(req) &&
        InItsSession(s.sessions, req, io.clock.resolved))
  }

  /** The one answer to a request. */
  ghost predicate AnswersAs(setup: Setup, s: State, req: Request, io: Io, r: Reply)
  {
    if req.client.None? then r == if req.notification then Status(401) else Fail(401, -32002)
    else if !io.logged && !Unattempted(s, req, io) then
      r == if req.notification then Status(500) else Fail(500, -32000)
    else if Initializes(req) then r == Initialized(io.newId)
    else if NeedsSession(req) then AnswersInSession(setup, s, req, io, r)
    else r == if req.notification then Status(204) else Fail(404, -32601)
  }

  lemma CallAnswered(setup: Setup, s: State, req: Request, io: Io, client: string)
    requires req.client == Some(client) && NamesTool(req) && InItsSession(s.sessions, req, io.clock.resolved)
    ensures var es := Handled(setup, s, req, io).effects;
      es != [] && es[|es| - 1].Send? && AnswersAs(setup, s, req, io, es[|es| - 1].reply)
  {
    CalledEffects(setup, s, req, io, client);
    StepIsBinary(setup, ToEngine(req, client, io), s.buckets);
  }

  lemma ListAnswered(setup: Setup, s: State, req: Request, io: Io, client: string)
    requires req.client == Some(client) && req.verb == "tools/list" && !req.notification
    requires InItsSession(s.sessions, req, io.clock.resolved)
    ensures var es := Handled(setup, s, req, io).effects;
      es != [] && es[|es| - 1].Send? && AnswersAs(setup, s, req, io, es[|es| - 1].reply)
  {
    if io.listing.Names? {
      VisibleShows(setup.policy, io.listing.tools);
    }
    assert Handled(setup, s, req, io).effects == ListEffects(setup, client, req.header, io);
  }

  lemma RestAnswered(setup: Setup, s: State, req: Request, io: Io)
    requires !(req.client.Some? && !req.notification && InItsSession(s.sessions, req, io.clock.resolved) &&
      (req.verb == "tools/list" || NamesTool(req)))
    ensures var es := Handled(setup, s, req, io).effects;
      es != [] && es[|es| - 1].Send? && AnswersAs(setup, s, req, io, es[|es| - 1].reply)
  {
  }

  /** Over every run, every request: its one answer, last, with its status and code. */
  lemma AnswersTell(log: seq<Served>, s: State, k: nat) returns (before: State)
    requires Reaches(log, s) && k < |log|
    ensures Reaches(log[..k], before)
    ensures var es := log[k].effects;
      && es != [] && es[|es| - 1].Send?
      && AnswersAs(log[k].setup, before, log[k].req, log[k].io, es[|es| - 1].reply)
  {
    var v := log[k];
    var after;
    before, after := StateBefore(log, s, k);
    if v.req.client.Some? && !v.req.notification && InItsSession(before.sessions, v.req, v.io.clock.resolved) {
      if NamesTool(v.req) {
        CallAnswered(v.setup, before, v.req, v.io, v.req.client.value);
      } else if v.req.verb == "tools/list" {
        ListAnswered(v.setup, before, v.req, v.io, v.req.client.value);
      } else {
        RestAnswered(v.setup, before, v.req, v.io);
      }
    } else {
      RestAnswered(v.setup, before, v.req, v.io);
    }
  }

  // ---- tools/list ---------------------------------------------------------

  lemma ListSentHandled(setup: Setup, s: State, req: Request, io: Io, p: nat, sent: seq<string>)
    requires p < |Handled(setup, s, req, io).effects|
    requires Handled(setup, s, req, io).effects[p] == Send(ToolList(sent))
    ensures req.client.Some?
    ensures Handled(setup, s, req, io).effects == ListEffects(setup, req.client.value, req.header, io)
    ensures p == 2 && io.logged && io.listing.Names? && sent == Visible(setup.policy, io.listing.tools)
    ensures Handled(setup, s, req, io).effects[1].Audit? && Handled(setup, s, req, io).effects[1].ok
    ensures Handled(setup, s, req, io).effects[1].event.answer == Shown(sent)
  {
  }

  /** Over every run, every list of tools that is sent: it holds exactly the tools in
      the surface of the policy in force, as often and in the order in which the
      upstream listed them, and the event of the same request, accepted before, holds
      the same list. */
  lemma ListSent(log: seq<Served>, s: State, k: nat, p: nat, sent: seq<string>) returns (q: nat)
    requires Reaches(log, s) && k < |log| && p < |log[k].effects| && log[k].effects[p] == Send(ToolList(sent))
    ensures log[k].io.listing.Names? && ShowsExactly(log[k].setup.policy, log[k].io.listing.tools, sent)
    ensures q < p && log[k].effects[q].Audit? && log[k].effects[q].ok
    ensures log[k].effects[q].event.answer == Shown(sent)
  {
    var before, after := StateBefore(log, s, k);
    ListSentHandled(log[k].setup, before, log[k].req, log[k].io, p, sent);
    VisibleShows(log[k].setup.policy, log[k].io.listing.tools);
    q := 1;
  }
}
