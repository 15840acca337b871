/** Requests served at the same time: every session lookup, policy decision,
    upstream answer, audit attempt, session binding and reply is a step of its own
    request, and any interleaving of steps is a run. */
module GatewaySteps {
  import opened Gateway
  import opened Options
  import GR = GatewayRuns
  import P = Policy
  import S = Sessions

  /** How far a request has got. */
  datatype Stage =
    | Arrived
    | Rejected(code: int)
    | Admitted
    | Decided(decision: P.Decision)
    | Called(answer: Upstream)
    | Listed(listing: Listing, shown: seq<string>)
    | Opened
    | Replied

  /** A request, the session id generated for it, its stage, and what its audit
      attempt came to, if it has made one. */
  datatype Thread = Thread(req: Request, id: string, stage: Stage, logged: Option<bool>)

  datatype Shared = Shared(sessions: S.Table, threads: map<nat, Thread>)

  datatype Move =
    | Arrive(t: nat, req: Request, id: string)
    | LookUp(t: nat, now: int, ttl: int)
    | Decide(t: nat, setup: Setup, decision: P.Decision)
    | CallUp(t: nat, answer: Upstream)
    | ListUp(t: nat, setup: Setup, listing: Listing)
    | Record(t: nat, event: Event, ok: bool)
    | Bind(t: nat, now: int, later: int, ttl: int, cap: int)
    | Reply(t: nat, reply: Gateway.Reply)

  // ---- steps --------------------------------------------------------------

  function ClientOf(th: Thread): string
  {
    if th.req.client.Some? then th.req.client.value else ""
  }

  /** A request at this stage is recorded before it is answered. */
  predicate Recordable(th: Thread)
  {
    match th.stage
    case Arrived => Initializes(th.req)
    case Rejected(_) => true
    case Admitted => th.req.notification
    case Decided(d) => d.action == "deny" && NamesTool(th.req)
    case Called(_) => NamesTool(th.req)
    case Listed(_, _) => true
    case _ => false
  }

  predicate ReadyToRecord(th: Thread)
  {
    th.logged.None? && Recordable(th)
  }

  /** The event of this request's audit attempt. */
  function EventOf(th: Thread): Event
    requires Recordable(th)
  {
    var client := ClientOf(th);
    match th.stage
    case Arrived => InitEvent(client, th.id)
    case Rejected(code) => RejectEvent(th.req, client, code)
    case Admitted => Event(th.req.verb, "", "allow", "", "", client, th.req.header, map[], NoAnswer)
    case Decided(d) => CallEvent(client, th.req.header, th.req.params.call, d, ErrorCode(DenialCode(d)))
    case Called(answer) => CallEvent(client, th.req.header, th.req.params.call, GR.ALLOWED, GR.AnswerOf(answer))
    case Listed(listing, shown) =>
      Event("tools/list", "", "allow", "", "", client, th.req.header, map[],
        if listing.ListFailed? then ErrorCode(SERVER_ERROR) else Shown(shown))
  }

  /** The request has only its answer left: after its audit attempt, and for an
      accepted initialize after the binding. */
  predicate ReadyToReply(th: Thread)
  {
    || th.stage.Opened?
    || (th.stage.Arrived? && !Initializes(th.req) && !NeedsSession(th.req))
    || (th.logged.Some? && Recordable(th) && !(Initializes(th.req) && th.logged.value))
    || (th.stage.Admitted? && th.req.verb == "tools/call" && !th.req.notification && !NamesTool(th.req))
  }

  function Failure(code: int): Gateway.Reply
  {
    Fail(HttpStatus(code), code)
  }

  /** The answer to this request. */
  function ReplyOf(th: Thread): Gateway.Reply
    requires ReadyToReply(th)
  {
    if th.logged == Some(false) then if th.req.notification then Status(INTERNAL_ERROR) else AUDIT_FAILED
    else
      match th.stage
      case Opened => Initialized(th.id)
      case Arrived => if th.req.notification then Status(NO_CONTENT) else Failure(METHOD_NOT_FOUND)
      case Rejected(code) => if th.req.notification then Status(HttpStatus(code)) else Failure(code)
      case Admitted => if th.req.notification then Status(NO_CONTENT) else Failure(INVALID_PARAMS)
      case Decided(d) => Denial(d)
      case Called(Refused(notReady)) => UpstreamFailure(notReady)
      case Called(Answered(payload)) => ToolResult(payload)
      case Listed(ListFailed(notReady), _) => UpstreamFailure(notReady)
      case Listed(Names(_), shown) => ToolList(shown)
      case Replied => AUDIT_FAILED
  }

  predicate Decides(setup: Setup, th: Thread, d: P.Decision)
    requires NamesTool(th.req)
  {
    d.action == "deny" || (d == GR.ALLOWED && GR.PolicyAllows(setup, th.req.params.call))
  }

  predicate Enabled(s: Shared, e: Move)
  {
    match e
    case Arrive(t, req, id) => t !in s.threads && req.client.Some? && id != ""
    case LookUp(t, _, _) => t in s.threads && s.threads[t].stage.Arrived? && NeedsSession(s.threads[t].req)
    case Decide(t, setup, d) =>
      && t in s.threads && s.threads[t].stage.Admitted? && NamesTool(s.threads[t].req)
      && Decides(setup, s.threads[t], d)
    case CallUp(t, _) => t in s.threads && Allowed(s.threads[t].stage)
    case ListUp(t, _, _) =>
      t in s.threads && s.threads[t].stage.Admitted? && s.threads[t].req.verb == "tools/list" &&
      !s.threads[t].req.notification
    case Record(t, event, _) => t in s.threads && ReadyToRecord(s.threads[t]) && event == EventOf(s.threads[t])
    case Bind(t, _, _, _, _) =>
      && t in s.threads && s.threads[t].stage.Arrived? && Initializes(s.threads[t].req)
      && s.threads[t].logged == Some(true) && s.threads[t].req.client.Some?
    case Reply(t, reply) => t in s.threads && ReadyToReply(s.threads[t]) && reply == ReplyOf(s.threads[t])
  }

  function Moved(s: Shared, t: nat, th: Thread): Shared
  {
    s.(threads := s.threads[t := th])
  }

  function LookedUp(s: Shared, th: Thread, now: int, ttl: int): Resolution
  {
    Resolve(s.sessions, th.req.header, ClientOf(th), now, ttl)
  }

  function ListedBy(setup: Setup, listing: Listing): Stage
  {
    Listed(listing, if listing.Names? then Visible(setup.policy, listing.tools) else [])
  }

  ghost predicate Steps(s: Shared, e: Move, s': Shared)
    requires Enabled(s, e)
  {
    match e
    case Arrive(t, req, id) => s' == Moved(s, t, Thread(req, id, Arrived, None))
    case LookUp(t, now, ttl) =>
      var r := LookedUp(s, s.threads[t], now, ttl);
      s' == Moved(s, t, s.threads[t].(
        stage := if r.problem.None? then Admitted else Rejected(r.problem.value))).(sessions := r.sessions)
    case Decide(t, _, d) => s' == Moved(s, t, s.threads[t].(stage := Decided(d)))
    case CallUp(t, answer) => s' == Moved(s, t, s.threads[t].(stage := Called(answer)))
    case ListUp(t, setup, listing) => s' == Moved(s, t, s.threads[t].(stage := ListedBy(setup, listing)))
    case Record(t, _, ok) => s' == Moved(s, t, s.threads[t].(logged := Some(ok)))
    case Bind(t, now, later, ttl, cap) =>
      && s'.threads == Moved(s, t, s.threads[t].(stage := Opened)).threads
      && S.BindTo(s.sessions, s.threads[t].id, S.Binding(ClientOf(s.threads[t]), later + ttl), now, cap, s'.sessions)
    case Reply(t, _) => s' == Moved(s, t, s.threads[t].(stage := Replied))
  }

  ghost predicate Taken(s: Shared, e: Move, s': Shared)
  {
    Enabled(s, e) && Steps(s, e, s')
  }

  ghost predicate Reaches(moves: seq<Move>, s: Shared)
    decreases |moves|
  {
    if moves == [] then s == Shared(map[], map[])
    else
      var n := |moves| - 1;
      exists s0: Shared :: Reaches(moves[..n], s0) && Taken(s0, moves[n], s)
  }

  // ---- what a run has seen ------------------------------------------------

  predicate ArrivedAs(moves: seq<Move>, i: int, t: nat, req: Request, id: string)
  {
    0 <= i < |moves| && moves[i] == Arrive(t, req, id)
  }

  predicate RecordedAt(moves: seq<Move>, i: int, t: nat)
  {
    0 <= i < |moves| && moves[i].Record? && moves[i].t == t && moves[i].ok
  }

  predicate BoundAt(moves: seq<Move>, i: int, t: nat)
  {
    0 <= i < |moves| && moves[i].Bind? && moves[i].t == t
  }

  /** One initialize by this client: it arrived with this session id, then its
      audit attempt was accepted, then it bound the session. */
  predicate OpenedBy(moves: seq<Move>, t: nat, req: Request, i: int, j: int, k: int, id: string, client: string)
  {
    && i < j < k && ArrivedAs(moves, i, t, req, id) && RecordedAt(moves, j, t) && BoundAt(moves, k, t)
    && Initializes(req) && req.client == Some(client)
  }

  ghost predicate OpenedIn(moves: seq<Move>, id: string, client: string)
  {
    exists t: nat, req: Request, i: int, j: int, k: int :: OpenedBy(moves, t, req, i, j, k, id, client)
  }

  /** At step i this request found its session: unexpired, its own client's, and
      opened before by an initialize of that client. */
  ghost predicate FoundAt(moves: seq<Move>, i: int, t: nat, th: Thread)
  {
    && 0 <= i < |moves| && moves[i].LookUp? && moves[i].t == t
    && OpenedIn(moves[..i], th.req.header, ClientOf(th))
    && UnexpiredBefore(moves, i, th.req.header, ClientOf(th), moves[i].now)
  }

  ghost predicate UnexpiredBefore(moves: seq<Move>, i: int, session: string, client: string, now: int)
    requires 0 <= i <= |moves|
  {
    exists s0: Shared :: Reaches(moves[..i], s0) && GR.Unexpired(s0.sessions, session, client, now)
  }

  predicate AllowedAt(moves: seq<Move>, i: int, t: nat, th: Thread)
  {
    && 0 <= i < |moves| && moves[i].Decide? && moves[i].t == t && moves[i].decision.action == "allow"
    && NamesTool(th.req) && GR.PolicyAllows(moves[i].setup, th.req.params.call)
  }

  predicate Allowed(stage: Stage)
  {
    stage.Decided? && stage.decision.action == "allow"
  }

  ghost predicate Admission(moves: seq<Move>, t: nat, th: Thread)
  {
    exists i: int :: FoundAt(moves, i, t, th)
  }

  ghost predicate Clearance(moves: seq<Move>, t: nat, th: Thread)
  {
    exists i: int, j: int :: i < j && FoundAt(moves, i, t, th) && AllowedAt(moves, j, t, th)
  }

  ghost predicate Registered(moves: seq<Move>, t: nat, th: Thread)
  {
    exists i: int :: ArrivedAs(moves, i, t, th.req, th.id)
  }

  ghost predicate RegisteredThenRecorded(moves: seq<Move>, t: nat, th: Thread)
  {
    exists i: int, j: int :: i < j && ArrivedAs(moves, i, t, th.req, th.id) && RecordedAt(moves, j, t)
  }

  /** What the stage of a request says about the run so far. */
  ghost predicate Vouched(moves: seq<Move>, t: nat, th: Thread)
  {
    && th.req.client.Some? && Registered(moves, t, th)
    && (th.logged == Some(true) ==> RegisteredThenRecorded(moves, t, th))
    && (th.stage.Admitted? || th.stage.Decided? ==> Admission(moves, t, th))
    && (Allowed(th.stage) || th.stage.Called? ==> Clearance(moves, t, th))
  }

  // ---- facts stay ---------------------------------------------------------

  lemma OpenedStays(moves: seq<Move>, more: seq<Move>, id: string, client: string)
    requires moves <= more && OpenedIn(moves, id, client)
    ensures OpenedIn(more, id, client)
  {
    var t: nat, req: Request, i: int, j: int, k: int :| OpenedBy(moves, t, req, i, j, k, id, client);
    assert OpenedBy(more, t, req, i, j, k, id, client);
  }

  lemma FoundStays(moves: seq<Move>, more: seq<Move>, i: int, t: nat, th: Thread)
    requires moves <= more && FoundAt(moves, i, t, th)
    ensures FoundAt(more, i, t, th)
  {
    assert more[..i] == moves[..i];
  }

  /** Only the stage and the record of a thread change, not its request. */
  lemma VouchedStays(moves: seq<Move>, more: seq<Move>, t: nat, th: Thread)
    requires moves <= more && Vouched(moves, t, th)
    ensures Vouched(more, t, th)
  {
    var a: int :| ArrivedAs(moves, a, t, th.req, th.id);
    assert ArrivedAs(more, a, t, th.req, th.id);
    if th.logged == Some(true) {
      var i: int, j: int :| i < j && ArrivedAs(moves, i, t, th.req, th.id) && RecordedAt(moves, j, t);
      assert ArrivedAs(more, i, t, th.req, th.id) && RecordedAt(more, j, t);
    }
    if th.stage.Admitted? || th.stage.Decided? {
      var i: int :| FoundAt(moves, i, t, th);
      FoundStays(moves, more, i, t, th);
    }
    if Allowed(th.stage) || th.stage.Called? {
      ClearanceStays(moves, more, t, th);
    }
  }

  lemma ClearanceStays(moves: seq<Move>, more: seq<Move>, t: nat, th: Thread)
    requires moves <= more && Clearance(moves, t, th)
    ensures Clearance(more, t, th)
  {
    var i: int, j: int :| i < j && FoundAt(moves, i, t, th) && AllowedAt(moves, j, t, th);
    FoundStays(moves, more, i, t, th);
    assert AllowedAt(more, j, t, th);
  }

  // ---- facts arise --------------------------------------------------------

  ghost predicate Sound(moves: seq<Move>, s: Shared)
  {
    && (forall id {:trigger s.sessions[id]} :: id in s.sessions ==> OpenedIn(moves, id, s.sessions[id].client))
    && (forall t: nat {:trigger s.threads[t]} :: t in s.threads ==> Vouched(moves, t, s.threads[t]))
  }

  /** Binding opens the session of an initialize that was recorded. */
  lemma BindOpens(moves: seq<Move>, e: Move, s: Shared)
    requires Sound(moves, s) && Enabled(s, e) && e.Bind?
    ensures OpenedIn(moves + [e], s.threads[e.t].id, ClientOf(s.threads[e.t]))
  {
    var all, th := moves + [e], s.threads[e.t];
    assert Vouched(moves, e.t, th);
    var i: int, j: int :| i < j && ArrivedAs(moves, i, e.t, th.req, th.id) && RecordedAt(moves, j, e.t);
    assert ArrivedAs(all, i, e.t, th.req, th.id) && RecordedAt(all, j, e.t) && BoundAt(all, |moves|, e.t);
    assert OpenedBy(all, e.t, th.req, i, j, |moves|, th.id, ClientOf(th));
  }

  lemma ClientsKept(s: Shared, e: Move, s': Shared, id: string)
    requires Taken(s, e, s') && id in s'.sessions
    ensures (id in s.sessions && s.sessions[id].client == s'.sessions[id].client) ||
      (e.Bind? && id == s.threads[e.t].id && s'.sessions[id].client == ClientOf(s.threads[e.t]))
  {
    if e.Bind? {
      GR.BoundClients(s.sessions, s.threads[e.t].id, S.Binding(ClientOf(s.threads[e.t]), e.later + e.ttl), e.now, e.cap,
        s'.sessions, id);
    }
  }

  lemma SessionsKept(moves: seq<Move>, e: Move, s: Shared, s': Shared, id: string)
    requires Sound(moves, s) && Taken(s, e, s') && id in s'.sessions
    ensures OpenedIn(moves + [e], id, s'.sessions[id].client)
  {
    ClientsKept(s, e, s', id);
    if id in s.sessions && s.sessions[id].client == s'.sessions[id].client {
      OpenedStays(moves, moves + [e], id, s'.sessions[id].client);
    } else {
      BindOpens(moves, e, s);
    }
  }

  lemma LookUpVouches(moves: seq<Move>, e: Move, s: Shared, s': Shared)
    requires Reaches(moves, s) && Sound(moves, s) && Taken(s, e, s') && e.LookUp? && s'.threads[e.t].stage.Admitted?
    ensures Admission(moves + [e], e.t, s'.threads[e.t])
  {
    var all, th := moves + [e], s'.threads[e.t];
    assert GR.Unexpired(s.sessions, th.req.header, ClientOf(th), e.now);
    assert s.sessions[th.req.header].client == ClientOf(th);
    assert all[..|moves|] == moves;
    assert UnexpiredBefore(all, |moves|, th.req.header, ClientOf(th), e.now);
    assert FoundAt(all, |moves|, e.t, th);
  }

  lemma DecideVouches(moves: seq<Move>, e: Move, s: Shared, s': Shared)
    requires Sound(moves, s) && Taken(s, e, s') && e.Decide? && e.decision.action == "allow"
    ensures Clearance(moves + [e], e.t, s'.threads[e.t])
  {
    var all, th := moves + [e], s.threads[e.t];
    assert Vouched(moves, e.t, th);
    var i: int :| FoundAt(moves, i, e.t, th);
    FoundStays(moves, all, i, e.t, th);
    assert FoundAt(all, i, e.t, s'.threads[e.t]) && AllowedAt(all, |moves|, e.t, s'.threads[e.t]);
  }

  lemma RecordVouches(moves: seq<Move>, e: Move, s: Shared, s': Shared)
    requires Sound(moves, s) && Taken(s, e, s') && e.Record? && e.ok
    ensures RegisteredThenRecorded(moves + [e], e.t, s'.threads[e.t])
  {
    var all, th := moves + [e], s.threads[e.t];
    assert Vouched(moves, e.t, th);
    var i: int :| ArrivedAs(moves, i, e.t, th.req, th.id);
    assert ArrivedAs(all, i, e.t, th.req, th.id) && RecordedAt(all, |moves|, e.t);
  }

  lemma MoverVouched(moves: seq<Move>, e: Move, s: Shared, s': Shared)
    requires Reaches(moves, s) && Sound(moves, s) && Taken(s, e, s')
    ensures Vouched(moves + [e], e.t, s'.threads[e.t])
  {
    var all := moves + [e];
    match e {
      case Arrive(t, req, id) =>
        assert ArrivedAs(all, |moves|, t, req, id);
      case LookUp(t, _, _) =>
        VouchedStays(moves, all, t, s.threads[t]);
        if s'.threads[t].stage.Admitted? {
          LookUpVouches(moves, e, s, s');
        }
        SameRequest(all, t, s.threads[t], s'.threads[t]);
      case Decide(t, _, d) =>
        VouchedStays(moves, all, t, s.threads[t]);
        SameRequest(all, t, s.threads[t], s'.threads[t]);
        if d.action == "allow" {
          DecideVouches(moves, e, s, s');
        }
      case Record(t, _, ok) =>
        VouchedStays(moves, all, t, s.threads[t]);
        SameRequest(all, t, s.threads[t], s'.threads[t]);
        if ok {
          RecordVouches(moves, e, s, s');
        }
      case _ =>
        VouchedStays(moves, all, e.t, s.threads[e.t]);
        SameRequest(all, e.t, s.threads[e.t], s'.threads[e.t]);
    }
  }

  /** What a run shows of a thread depends on its request and session id alone. */
  lemma SameRequest(moves: seq<Move>, t: nat, a: Thread, b: Thread)
    requires a.req == b.req && a.id == b.id
    ensures Registered(moves, t, a) ==> Registered(moves, t, b)
    ensures RegisteredThenRecorded(moves, t, a) ==> RegisteredThenRecorded(moves, t, b)
    ensures Admission(moves, t, a) ==> Admission(moves, t, b)
    ensures Clearance(moves, t, a) ==> Clearance(moves, t, b)
  {
    if Admission(moves, t, a) {
      var i: int :| FoundAt(moves, i, t, a);
      assert FoundAt(moves, i, t, b);
    }
    if Clearance(moves, t, a) {
      var i: int, j: int :| i < j && FoundAt(moves, i, t, a) && AllowedAt(moves, j, t, a);
      assert FoundAt(moves, i, t, b) && AllowedAt(moves, j, t, b);
    }
  }

  lemma {:induction false} RunIsSound(moves: seq<Move>, s: Shared)
    requires Reaches(moves, s)
    ensures Sound(moves, s)
    decreases |moves|
  {
    if moves != [] {
      var n := |moves| - 1;
      var front, e := moves[..n], moves[n];
      var s0: Shared :| Reaches(front, s0) && Taken(s0, e, s);
      RunIsSound(front, s0);
      assert front + [e] == moves;
      forall id | id in s.sessions ensures OpenedIn(moves, id, s.sessions[id].client) {
        SessionsKept(front, e, s0, s, id);
      }
      forall t: nat | t in s.threads ensures Vouched(moves, t, s.threads[t]) {
        if t == e.t {
          MoverVouched(front, e, s0, s);
        } else {
          assert t in s0.threads && s.threads[t] == s0.threads[t];
          VouchedStays(front, moves, t, s.threads[t]);
        }
      }
    }
  }

  lemma {:induction false} StateBefore(moves: seq<Move>, s: Shared, k: nat) returns (s0: Shared, s1: Shared)
    requires Reaches(moves, s) && k < |moves|
    ensures Reaches(moves[..k], s0) && Taken(s0, moves[k], s1)
    decreases |moves|
  {
    var n := |moves| - 1;
    var b: Shared :| Reaches(moves[..n], b) && Taken(b, moves[n], s);
    if k == n {
      s0, s1 := b, s;
    } else {
      s0, s1 := StateBefore(moves[..n], b, k);
      assert moves[..n][..k] == moves[..k];
    }
  }

  // ---- the guarantees, in every interleaving ------------------------------

  /** An upstream call of thread t: t belongs to an authenticated client, earlier
      found its session unexpired and its own, opened before that by an initialize
      of the same client whose audit attempt was accepted before the binding, and
      then had the call allowed by the policy in force. */
  lemma UpstreamCallJustified(moves: seq<Move>, s: Shared, k: nat) returns (th: Thread, i: int, j: int)
    requires Reaches(moves, s) && k < |moves| && moves[k].CallUp?
    ensures Registered(moves[..k], moves[k].t, th) && th.req.client.Some? && NamesTool(th.req)
    ensures i < j && FoundAt(moves[..k], i, moves[k].t, th) && AllowedAt(moves[..k], j, moves[k].t, th)
  {
    var s0, s1 := StateBefore(moves, s, k);
    RunIsSound(moves[..k], s0);
    th := s0.threads[moves[k].t];
    assert Vouched(moves[..k], moves[k].t, th);
    i, j :| i < j && FoundAt(moves[..k], i, moves[k].t, th) && AllowedAt(moves[..k], j, moves[k].t, th);
  }

  // ---- what was recorded --------------------------------------------------

  predicate RecordedAs(moves: seq<Move>, j: int, t: nat, event: Event, ok: bool)
  {
    0 <= j < |moves| && moves[j] == Record(t, event, ok)
  }

  predicate AnsweredAt(moves: seq<Move>, i: int, t: nat, answer: Upstream)
  {
    0 <= i < |moves| && moves[i] == CallUp(t, answer)
  }

  ghost predicate Attempt(moves: seq<Move>, t: nat, th: Thread)
    requires Recordable(th) && th.logged.Some?
  {
    exists j: int :: RecordedAs(moves, j, t, EventOf(th), th.logged.value)
  }

  ghost predicate Answer(moves: seq<Move>, t: nat, answer: Upstream)
  {
    exists i: int :: AnsweredAt(moves, i, t, answer)
  }

  ghost predicate AnswerThenAttempt(moves: seq<Move>, t: nat, th: Thread)
    requires Recordable(th) && th.logged.Some? && th.stage.Called?
  {
    exists i: int, j: int ::
      i < j && AnsweredAt(moves, i, t, th.stage.answer) && RecordedAs(moves, j, t, EventOf(th), th.logged.value)
  }

  /** Until it is answered a request that made its attempt is where it was then, and
      the run shows the attempt; and if its call went upstream, that too, before. */
  ghost predicate ShowsRecord(moves: seq<Move>, t: nat, th: Thread)
  {
    && (th.stage.Called? || Allowed(th.stage) ==> NamesTool(th.req))
    && (th.stage.Called? ==> Answer(moves, t, th.stage.answer))
    && (th.logged.Some? && !th.stage.Opened? && !th.stage.Replied? ==>
        Recordable(th) && Attempt(moves, t, th) && (th.stage.Called? ==> AnswerThenAttempt(moves, t, th)))
  }

  lemma RecordStays(moves: seq<Move>, e: Move, t: nat, th: Thread)
    requires ShowsRecord(moves, t, th)
    ensures ShowsRecord(moves + [e], t, th)
  {
    var all := moves + [e];
    if th.stage.Called? {
      var i: int :| AnsweredAt(moves, i, t, th.stage.answer);
      assert AnsweredAt(all, i, t, th.stage.answer);
    }
    if th.logged.Some? && !th.stage.Opened? && !th.stage.Replied? {
      var j: int :| RecordedAs(moves, j, t, EventOf(th), th.logged.value);
      assert RecordedAs(all, j, t, EventOf(th), th.logged.value);
      if th.stage.Called? {
        var i: int, q: int :| i < q && AnsweredAt(moves, i, t, th.stage.answer)
          && RecordedAs(moves, q, t, EventOf(th), th.logged.value);
        assert AnsweredAt(all, i, t, th.stage.answer) && RecordedAs(all, q, t, EventOf(th), th.logged.value);
      }
    }
  }

  lemma RecordShows(moves: seq<Move>, e: Move, s: Shared, s': Shared)
    requires Taken(s, e, s') && e.Record? && ShowsRecord(moves, e.t, s.threads[e.t])
    ensures ShowsRecord(moves + [e], e.t, s'.threads[e.t])
  {
    var all, th := moves + [e], s.threads[e.t];
    assert RecordedAs(all, |moves|, e.t, EventOf(th), e.ok) && EventOf(s'.threads[e.t]) == EventOf(th);
    if th.stage.Called? {
      var i: int :| AnsweredAt(moves, i, e.t, th.stage.answer);
      assert AnsweredAt(all, i, e.t, th.stage.answer);
    }
  }

  lemma MoverShows(moves: seq<Move>, e: Move, s: Shared, s': Shared)
    requires Taken(s, e, s') && (e.t in s.threads ==> ShowsRecord(moves, e.t, s.threads[e.t]))
    ensures ShowsRecord(moves + [e], e.t, s'.threads[e.t])
  {
    if e.Record? {
      RecordShows(moves, e, s, s');
    } else if e.CallUp? {
      assert AnsweredAt(moves + [e], |moves|, e.t, e.answer);
    }
  }

  lemma {:induction false} RunShowsRecord(moves: seq<Move>, s: Shared, t: nat)
    requires Reaches(moves, s) && t in s.threads
    ensures ShowsRecord(moves, t, s.threads[t])
    decreases |moves|
  {
    var n := |moves| - 1;
    var front, e := moves[..n], moves[n];
    var s0: Shared :| Reaches(front, s0) && Taken(s0, e, s);
    assert front + [e] == moves;
    if t in s0.threads {
      RunShowsRecord(front, s0, t);
    }
    if t == e.t {
      MoverShows(front, e, s0, s);
    } else {
      RecordStays(front, e, t, s.threads[t]);
    }
  }

  /** In every interleaving a tool's result is sent only after the same request's
      upstream answered with that payload, and after that the request's event,
      payload included, was accepted by Log. */
  lemma ResultWasAccepted(moves: seq<Move>, s: Shared, k: nat, payload: string) returns (i: int, j: int, e: Event)
    requires Reaches(moves, s) && k < |moves| && moves[k].Reply? && moves[k].reply == ToolResult(payload)
    ensures i < j && AnsweredAt(moves[..k], i, moves[k].t, Answered(payload))
    ensures RecordedAs(moves[..k], j, moves[k].t, e, true) && GR.ToolEvent(e, payload)
  {
    var s0, s1 := StateBefore(moves, s, k);
    var t := moves[k].t;
    var th := s0.threads[t];
    RunShowsRecord(moves[..k], s0, t);
    ResultReply(th, payload);
    e := EventOf(th);
    i, j :| i < j && AnsweredAt(moves[..k], i, t, th.stage.answer) && RecordedAs(moves[..k], j, t, e, true);
  }

  lemma ResultReply(th: Thread, payload: string)
    requires ReadyToReply(th) && ReplyOf(th) == ToolResult(payload)
    ensures th.stage == Called(Answered(payload)) && th.logged == Some(true)
    ensures GR.ToolEvent(EventOf(th), payload)
  {
    assert th.logged.Some? && (!th.logged.value ==> th.logged == Some(false));
  }

  function RecordsOf(moves: seq<Move>, t: nat): nat
  {
    if moves == [] then 0
    else
      var n := |moves| - 1;
      RecordsOf(moves[..n], t) + (if moves[n].Record? && moves[n].t == t then 1 else 0)
  }

  predicate Attempted(s: Shared, t: nat)
  {
    t in s.threads && s.threads[t].logged.Some?
  }

  lemma StepAttempts(s: Shared, e: Move, s': Shared, t: nat)
    requires Taken(s, e, s')
    ensures Attempted(s', t) <==> Attempted(s, t) || (e.Record? && e.t == t)
    ensures e.Record? && e.t == t ==> !Attempted(s, t)
  {
  }

  /** In every interleaving a request makes one audit attempt at most, and the
      attempt that it has made is the one its state knows of. */
  lemma {:induction false} OneAttempt(moves: seq<Move>, s: Shared, t: nat)
    requires Reaches(moves, s)
    ensures RecordsOf(moves, t) == if Attempted(s, t) then 1 else 0
    decreases |moves|
  {
    if moves != [] {
      var n := |moves| - 1;
      var s0: Shared :| Reaches(moves[..n], s0) && Taken(s0, moves[n], s);
      OneAttempt(moves[..n], s0, t);
      StepAttempts(s0, moves[n], s, t);
    }
  }

  /** A request that names a tool is neither answered without its attempt nor
      treated as an initialize. */
  predicate AttemptsFirst(th: Thread)
  {
    NamesTool(th.req) ==> !th.stage.Opened? && (th.stage.Replied? ==> th.logged.Some?)
  }

  lemma StepAttemptsFirst(s: Shared, e: Move, s': Shared, t: nat)
    requires Taken(s, e, s') && t in s'.threads && (t in s.threads ==> AttemptsFirst(s.threads[t]))
    ensures AttemptsFirst(s'.threads[t])
  {
  }

  lemma {:induction false} AllAttemptFirst(moves: seq<Move>, s: Shared, t: nat)
    requires Reaches(moves, s) && t in s.threads
    ensures AttemptsFirst(s.threads[t])
    decreases |moves|
  {
    var n := |moves| - 1;
    var s0: Shared :| Reaches(moves[..n], s0) && Taken(s0, moves[n], s);
    if t in s0.threads {
      AllAttemptFirst(moves[..n], s0, t);
    }
    StepAttemptsFirst(s0, moves[n], s, t);
  }

  /** So a named tools/call that has been answered made exactly one attempt. */
  lemma NamedCallAttempts(moves: seq<Move>, s: Shared, t: nat)
    requires Reaches(moves, s) && t in s.threads && NamesTool(s.threads[t].req) && s.threads[t].stage.Replied?
    ensures RecordsOf(moves, t) == 1
  {
    OneAttempt(moves, s, t);
    AllAttemptFirst(moves, s, t);
  }
}
