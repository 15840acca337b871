/** The same for requests served at the same time: what each event and each list of
    tools says in every interleaving, and that the steps of one request alone are
    the request flow. */
module StepAnswers {
  import opened Gateway
  import opened GatewaySteps
  import opened Options
  import E = Engine
  import GA = GatewayAnswers
  import GR = GatewayRuns
  import P = Policy
  import S = Sessions

  // ---- what a stage goes back to ------------------------------------------

  predicate DecidedAt(moves: seq<Move>, i: int, t: nat, d: P.Decision)
  {
    0 <= i < |moves| && moves[i].Decide? && moves[i].t == t && moves[i].decision == d
  }

  predicate ListedAt(moves: seq<Move>, i: int, t: nat, stage: Stage)
  {
    0 <= i < |moves| && moves[i].ListUp? && moves[i].t == t && stage == ListedBy(moves[i].setup, moves[i].listing)
  }

  ghost predicate RefusedIn(moves: seq<Move>, i: int, s0: Shared, th: Thread, code: int)
    requires 0 <= i < |moves| && moves[i].LookUp?
  {
    && Reaches(moves[..i], s0) && !GA.InItsSession(s0.sessions, th.req, moves[i].now)
    && code == GA.RefusalCode(s0.sessions, th.req, moves[i].now)
  }

  ghost predicate RefusedAt(moves: seq<Move>, i: int, t: nat, th: Thread, code: int)
  {
    && 0 <= i < |moves| && moves[i].LookUp? && moves[i].t == t
    && exists s0: Shared :: RefusedIn(moves, i, s0, th, code)
  }

  ghost predicate Refusal(moves: seq<Move>, t: nat, th: Thread, code: int)
  {
    exists i: int :: RefusedAt(moves, i, t, th, code)
  }

  ghost predicate Decision(moves: seq<Move>, t: nat, d: P.Decision)
  {
    exists i: int :: DecidedAt(moves, i, t, d)
  }

  ghost predicate ListAnswer(moves: seq<Move>, t: nat, stage: Stage)
  {
    exists i: int :: ListedAt(moves, i, t, stage)
  }

  /** What the stage of a request says about the run so far. */
  ghost predicate StageShown(moves: seq<Move>, t: nat, th: Thread)
  {
    && th.req.client.Some? && Registered(moves, t, th)
    && match th.stage
       case Arrived => true
       case Rejected(code) => NeedsSession(th.req) && Refusal(moves, t, th, code)
       case Admitted => NeedsSession(th.req)
       case Decided(d) => NamesTool(th.req) && Decision(moves, t, d) && (d.action == "deny" || d == GR.ALLOWED)
       case Called(_) => NamesTool(th.req) && Decision(moves, t, GR.ALLOWED)
       case Listed(_, _) => th.req.verb == "tools/list" && !th.req.notification && ListAnswer(moves, t, th.stage)
       case Opened => Initializes(th.req)
       case Replied => true
  }

  lemma StageStays(moves: seq<Move>, e: Move, t: nat, th: Thread)
    requires StageShown(moves, t, th)
    ensures StageShown(moves + [e], t, th)
  {
    var all := moves + [e];
    var a: int :| ArrivedAs(moves, a, t, th.req, th.id);
    assert ArrivedAs(all, a, t, th.req, th.id);
    match th.stage {
      case Rejected(code) => RefusalStays(moves, e, t, th, code);
      case Decided(d) => DecisionStays(moves, e, t, d);
      case Called(_) => DecisionStays(moves, e, t, GR.ALLOWED);
      case Listed(_, _) =>
        var i: int :| ListedAt(moves, i, t, th.stage);
        assert ListedAt(all, i, t, th.stage);
      case _ =>
    }
  }

  lemma DecisionStays(moves: seq<Move>, e: Move, t: nat, d: P.Decision)
    requires Decision(moves, t, d)
    ensures Decision(moves + [e], t, d)
  {
    var i: int :| DecidedAt(moves, i, t, d);
    assert DecidedAt(moves + [e], i, t, d);
  }

  lemma RefusalStays(moves: seq<Move>, e: Move, t: nat, th: Thread, code: int)
    requires Refusal(moves, t, th, code)
    ensures Refusal(moves + [e], t, th, code)
  {
    var i: int :| RefusedAt(moves, i, t, th, code);
    var s0: Shared :| RefusedIn(moves, i, s0, th, code);
    assert (moves + [e])[..i] == moves[..i];
    assert RefusedIn(moves + [e], i, s0, th, code);
    assert RefusedAt(moves + [e], i, t, th, code);
  }

  lemma LookUpShows(moves: seq<Move>, e: Move, s: Shared, s': Shared)
    requires Reaches(moves, s) && Taken(s, e, s') && e.LookUp? && StageShown(moves, e.t, s.threads[e.t])
    ensures StageShown(moves + [e], e.t, s'.threads[e.t])
  {
    var all, th := moves + [e], s'.threads[e.t];
    StageStays(moves, e, e.t, s.threads[e.t]);
    assert all[..|moves|] == moves;
    if th.stage.Rejected? {
      assert RefusedIn(all, |moves|, s, th, th.stage.code);
      assert RefusedAt(all, |moves|, e.t, th, th.stage.code);
    }
  }

  lemma DecideShows(moves: seq<Move>, e: Move, s: Shared, s': Shared)
    requires Taken(s, e, s') && e.Decide? && StageShown(moves, e.t, s.threads[e.t])
    ensures StageShown(moves + [e], e.t, s'.threads[e.t])
  {
    StageStays(moves, e, e.t, s.threads[e.t]);
    SameRequest(moves + [e], e.t, s.threads[e.t], s'.threads[e.t]);
    assert DecidedAt(moves + [e], |moves|, e.t, e.decision);
  }

  lemma ListShows(moves: seq<Move>, e: Move, s: Shared, s': Shared)
    requires Taken(s, e, s') && e.ListUp? && StageShown(moves, e.t, s.threads[e.t])
    ensures StageShown(moves + [e], e.t, s'.threads[e.t])
  {
    StageStays(moves, e, e.t, s.threads[e.t]);
    SameRequest(moves + [e], e.t, s.threads[e.t], s'.threads[e.t]);
    assert ListedAt(moves + [e], |moves|, e.t, s'.threads[e.t].stage);
  }

  lemma CallShows(moves: seq<Move>, e: Move, s: Shared, s': Shared)
    requires Taken(s, e, s') && e.CallUp? && StageShown(moves, e.t, s.threads[e.t])
    ensures StageShown(moves + [e], e.t, s'.threads[e.t])
  {
    StageStays(moves, e, e.t, s.threads[e.t]);
    SameRequest(moves + [e], e.t, s.threads[e.t], s'.threads[e.t]);
  }

  lemma RecordShowsStage(moves: seq<Move>, e: Move, s: Shared, s': Shared)
    requires Taken(s, e, s') && e.Record? && StageShown(moves, e.t, s.threads[e.t])
    ensures StageShown(moves + [e], e.t, s'.threads[e.t])
  {
    var th, th' := s.threads[e.t], s'.threads[e.t];
    StageStays(moves, e, e.t, th);
    SameRequest(moves + [e], e.t, th, th');
    if th.stage.Rejected? {
      SameRefusal(moves + [e], e.t, th, th', th.stage.code);
    }
  }

  lemma SameRefusal(moves: seq<Move>, t: nat, a: Thread, b: Thread, code: int)
    requires a.req == b.req && Refusal(moves, t, a, code)
    ensures Refusal(moves, t, b, code)
  {
    var i: int :| RefusedAt(moves, i, t, a, code);
    var s0: Shared :| RefusedIn(moves, i, s0, a, code);
    assert RefusedIn(moves, i, s0, b, code);
    assert RefusedAt(moves, i, t, b, code);
  }

  lemma LastShows(moves: seq<Move>, e: Move, s: Shared, s': Shared)
    requires Taken(s, e, s') && (e.Bind? || e.Reply?) && StageShown(moves, e.t, s.threads[e.t])
    ensures StageShown(moves + [e], e.t, s'.threads[e.t])
  {
    StageStays(moves, e, e.t, s.threads[e.t]);
    SameRequest(moves + [e], e.t, s.threads[e.t], s'.threads[e.t]);
  }

  lemma MoverShown(moves: seq<Move>, e: Move, s: Shared, s': Shared)
    requires Reaches(moves, s) && Taken(s, e, s') && (e.t in s.threads ==> StageShown(moves, e.t, s.threads[e.t]))
    ensures StageShown(moves + [e], e.t, s'.threads[e.t])
  {
    match e {
      case Arrive(t, req, id) => assert ArrivedAs(moves + [e], |moves|, t, req, id);
      case LookUp(_, _, _) => LookUpShows(moves, e, s, s');
      case Decide(_, _, _) => DecideShows(moves, e, s, s');
      case CallUp(_, _) => CallShows(moves, e, s, s');
      case ListUp(_, _, _) => ListShows(moves, e, s, s');
      case Record(_, _, _) => RecordShowsStage(moves, e, s, s');
      case _ => LastShows(moves, e, s, s');
    }
  }

  lemma {:induction false} RunShowsStage(moves: seq<Move>, s: Shared, t: nat)
    requires Reaches(moves, s) && t in s.threads
    ensures StageShown(moves, t, s.threads[t])
    decreases |moves|
  {
    var n := |moves| - 1;
    var front, e := moves[..n], moves[n];
    var s0: Shared :| Reaches(front, s0) && Taken(s0, e, s);
    assert front + [e] == moves;
    if t in s0.threads {
      RunShowsStage(front, s0, t);
    }
    if t == e.t {
      MoverShown(front, e, s0, s);
    } else {
      StageStays(front, e, t, s.threads[t]);
    }
  }

  // ---- every event --------------------------------------------------------

  /** The event of a named call that was decided: the call, the decision with its rule
      and reason, and for a denial its code. */
  predicate RecordsDecision(e: Event, call: P.Call, d: P.Decision)
  {
    && e.tool == call.name && e.arguments == call.arguments
    && e.decision == d.action && e.rule == d.rule && e.reason == d.reason
    && (d.action == "deny" ==> e.answer == ErrorCode(if d.rateLimited then -32003 else -32001))
  }

  predicate Bare(e: Event)
  {
    e.tool == "" && e.arguments == map[] && e.rule == "" && e.reason == ""
  }

  /** What the run before shows of a recorded event: a decision on this call; a session
      that was refused, with its code; or neither, and then the request was not a
      tools/call. */
  ghost predicate EventShown(moves: seq<Move>, t: nat, th: Thread, e: Event)
  {
    || (NamesTool(th.req) && exists d :: Decision(moves, t, d) && RecordsDecision(e, th.req.params.call, d))
    || (NeedsSession(th.req) && Bare(e) && e.decision == "deny" &&
        exists code :: Refusal(moves, t, th, code) && e.answer == ErrorCode(code))
    || (Bare(e) && e.decision == "allow" && (th.req.notification || th.req.verb != "tools/call"))
  }

  lemma RecordableShown(moves: seq<Move>, t: nat, th: Thread)
    requires StageShown(moves, t, th) && Recordable(th)
    ensures GA.NamesRequest(EventOf(th), th.req, th.id) && EventShown(moves, t, th, EventOf(th))
  {
    match th.stage {
      case Rejected(code) => assert Refusal(moves, t, th, code);
      case Decided(d) => assert Decision(moves, t, d);
      case Called(_) => assert Decision(moves, t, GR.ALLOWED);
      case _ =>
    }
  }

  /** In every interleaving every audit event names the client, verb and session of its
      own request; and it records the decision on this very call, or the code with
      which its session was refused, or a request without tool. */
  lemma RecordTells(moves: seq<Move>, s: Shared, j: nat) returns (th: Thread)
    requires Reaches(moves, s) && j < |moves| && moves[j].Record?
    ensures Registered(moves[..j], moves[j].t, th)
    ensures GA.NamesRequest(moves[j].event, th.req, th.id)
    ensures EventShown(moves[..j], moves[j].t, th, moves[j].event)
  {
    var s0, s1 := StateBefore(moves, s, j);
    th := s0.threads[moves[j].t];
    RunShowsStage(moves[..j], s0, moves[j].t);
    RecordableShown(moves[..j], moves[j].t, th);
  }

  // ---- tools/list ---------------------------------------------------------

  /** The upstream's answer i of this request, filtered by the policy then in force. */
  ghost predicate ShownFrom(moves: seq<Move>, i: int, t: nat, sent: seq<string>)
  {
    && 0 <= i < |moves| && moves[i].ListUp? && moves[i].t == t && moves[i].listing.Names?
    && GA.ShowsExactly(moves[i].setup.policy, moves[i].listing.tools, sent)
  }

  lemma ListReply(th: Thread, sent: seq<string>)
    requires ReadyToReply(th) && ReplyOf(th) == ToolList(sent)
    ensures th.stage.Listed? && th.stage.listing.Names? && th.stage.shown == sent
    ensures th.logged == Some(true) && EventOf(th).answer == Shown(sent)
  {
    assert th.logged.Some? && (!th.logged.value ==> th.logged == Some(false));
  }

  /** In every interleaving a list of tools that is sent is the upstream's list for the
      same request, filtered by the policy: exactly the tools in its surface, as often
      and in the order listed; and the event of the request, accepted before, holds
      the same list. */
  lemma ListReplied(moves: seq<Move>, s: Shared, k: nat, sent: seq<string>) returns (i: int, j: int, e: Event)
    requires Reaches(moves, s) && k < |moves| && moves[k].Reply? && moves[k].reply == ToolList(sent)
    ensures ShownFrom(moves[..k], i, moves[k].t, sent)
    ensures RecordedAs(moves[..k], j, moves[k].t, e, true) && e.answer == Shown(sent)
  {
    var s0, s1 := StateBefore(moves, s, k);
    var t := moves[k].t;
    var th := s0.threads[t];
    RunShowsStage(moves[..k], s0, t);
    RunShowsRecord(moves[..k], s0, t);
    ListReply(th, sent);
    e := EventOf(th);
    i :| ListedAt(moves[..k], i, t, th.stage);
    j :| RecordedAs(moves[..k], j, t, e, true);
    GA.VisibleShows(moves[i].setup.policy, moves[i].listing.tools);
  }

  // ---- one request alone --------------------------------------------------

  /** What a step does to the world outside. */
  function EffectOf(s: Shared, e: Move): seq<Effect>
    requires Enabled(s, e)
  {
    match e
    case CallUp(t, _) =>
      var th := s.threads[t];
      if th.req.params.CallParams? then [CallUpstream(ClientOf(th), th.req.header, th.req.params.call)] else []
    case ListUp(_, _, _) => [ListUpstream]
    case Record(_, event, ok) => [Audit(event, ok)]
    case Bind(t, _, _, _, _) => [Publish(s.threads[t].id, ClientOf(s.threads[t]))]
    case Reply(_, reply) => [Send(reply)]
    case _ => []
  }

  /** Step k leads from one state to the next and adds its effect. */
  ghost predicate StepAt(states: seq<Shared>, seen: seq<seq<Effect>>, moves: seq<Move>, k: int)
    requires 0 <= k < |moves| && |states| == |seen| == |moves| + 1
  {
    Taken(states[k], moves[k], states[k + 1]) && seen[k + 1] == seen[k] + EffectOf(states[k], moves[k])
  }

  /** The states on the way, and the effects so far in each. */
  ghost predicate Way(states: seq<Shared>, seen: seq<seq<Effect>>, moves: seq<Move>)
  {
    && |states| == |seen| == |moves| + 1 && seen[0] == []
    && forall k :: 0 <= k < |moves| ==> StepAt(states, seen, moves, k)
  }

  ghost predicate Ends(states: seq<Shared>, seen: seq<seq<Effect>>, s: Shared, s': Shared, effects: seq<Effect>)
  {
    && |states| == |seen| && states != []
    && states[0] == s && states[|states| - 1] == s' && seen[|seen| - 1] == effects
  }

  /** These steps lead from s to s', with these effects. */
  ghost predicate Leads(s: Shared, moves: seq<Move>, s': Shared, effects: seq<Effect>)
  {
    exists states: seq<Shared>, seen: seq<seq<Effect>> ::
      Way(states, seen, moves) && Ends(states, seen, s, s', effects)
  }

  lemma LeadsNowhere(s: Shared)
    ensures Leads(s, [], s, [])
  {
    assert Way([s], [[]], []) && Ends([s], [[]], s, s, []);
  }

  lemma WayOn(states: seq<Shared>, seen: seq<seq<Effect>>, moves: seq<Move>, e: Move, s': Shared)
    requires Way(states, seen, moves) && Taken(states[|moves|], e, s')
    ensures Way(states + [s'], seen + [seen[|moves|] + EffectOf(states[|moves|], e)], moves + [e])
  {
    var states', seen', moves' := states + [s'], seen + [seen[|moves|] + EffectOf(states[|moves|], e)], moves + [e];
    forall k | 0 <= k < |moves'| ensures StepAt(states', seen', moves', k) {
      assert k < |moves| ==> StepAt(states, seen, moves, k);
    }
  }

  lemma LeadsOn(s: Shared, moves: seq<Move>, s0: Shared, front: seq<Effect>, e: Move, s': Shared)
    requires Leads(s, moves, s0, front) && Taken(s0, e, s')
    ensures Leads(s, moves + [e], s', front + EffectOf(s0, e))
  {
    var states: seq<Shared>, seen: seq<seq<Effect>> :|
      Way(states, seen, moves) && Ends(states, seen, s, s0, front);
    WayOn(states, seen, moves, e, s');
    assert Ends(states + [s'], seen + [front + EffectOf(s0, e)], s, s', front + EffectOf(s0, e));
  }

  /** One thread, on its way, and nothing else changed. */
  predicate Only(s: Shared, s0: Shared, t: nat, th: Thread)
  {
    s0.threads == s.threads[t := th]
  }

  lemma JustReply(s: Shared, moves: seq<Move>, s0: Shared, front: seq<Effect>, t: nat, th: Thread)
    returns (all: seq<Move>, s': Shared)
    requires Leads(s, moves, s0, front) && Only(s, s0, t, th) && ReadyToReply(th)
    ensures Leads(s, all, s', front + [Send(ReplyOf(th))])
    ensures Only(s, s', t, th.(stage := Replied)) && s'.sessions == s0.sessions
  {
    s' := Moved(s0, t, th.(stage := Replied));
    LeadsOn(s, moves, s0, front, Reply(t, ReplyOf(th)), s');
    all := moves + [Reply(t, ReplyOf(th))];
  }

  lemma JustRecord(s: Shared, moves: seq<Move>, s0: Shared, front: seq<Effect>, t: nat, th: Thread, ok: bool)
    returns (all: seq<Move>, s': Shared)
    requires Leads(s, moves, s0, front) && Only(s, s0, t, th) && ReadyToRecord(th)
    ensures Leads(s, all, s', front + [Audit(EventOf(th), ok)])
    ensures Only(s, s', t, th.(logged := Some(ok))) && s'.sessions == s0.sessions
  {
    s' := Moved(s0, t, th.(logged := Some(ok)));
    LeadsOn(s, moves, s0, front, Record(t, EventOf(th), ok), s');
    all := moves + [Record(t, EventOf(th), ok)];
  }

  lemma Appended(front: seq<Effect>, a: Effect, b: Effect)
    ensures front + [a] + [b] == front + [a, b]
  {
  }

  /** The audit attempt and the answer, for whatever is recorded and then answered. */
  lemma RecordAndReply(s: Shared, moves: seq<Move>, s0: Shared, front: seq<Effect>, t: nat, th: Thread, ok: bool)
    returns (all: seq<Move>, s': Shared)
    requires Leads(s, moves, s0, front) && Only(s, s0, t, th) && ReadyToRecord(th)
    requires !(Initializes(th.req) && ok)
    ensures ReadyToReply(th.(logged := Some(ok)))
    ensures Leads(s, all, s', front + [Audit(EventOf(th), ok), Send(ReplyOf(th.(logged := Some(ok))))])
    ensures Only(s, s', t, th.(logged := Some(ok), stage := Replied)) && s'.sessions == s0.sessions
  {
    var more, s1 := JustRecord(s, moves, s0, front, t, th, ok);
    all, s' := JustReply(s, more, s1, front + [Audit(EventOf(th), ok)], t, th.(logged := Some(ok)));
    Appended(front, Audit(EventOf(th), ok), Send(ReplyOf(th.(logged := Some(ok)))));
  }

  /** This request, alone, has had these effects and left this session table. */
  ghost predicate Alone(s: Shared, t: nat, moves: seq<Move>, s': Shared, effects: seq<Effect>, sessions: S.Table)
  {
    && Leads(s, moves, s', effects) && s'.sessions == sessions
    && t in s'.threads && s'.threads[t].stage.Replied? && Only(s, s', t, s'.threads[t])
  }

  lemma Starts(s: Shared, t: nat, req: Request, id: string) returns (moves: seq<Move>, s1: Shared)
    requires t !in s.threads && req.client.Some? && id != ""
    ensures Leads(s, moves, s1, []) && Only(s, s1, t, Thread(req, id, Arrived, None)) && s1.sessions == s.sessions
  {
    s1 := Moved(s, t, Thread(req, id, Arrived, None));
    LeadsNowhere(s);
    LeadsOn(s, [], s, [], Arrive(t, req, id), s1);
    moves := [] + [Arrive(t, req, id)];
  }

  function LookedUpStage(r: Resolution): Stage
  {
    if r.problem.None? then Admitted else Rejected(r.problem.value)
  }

  lemma StartsInSession(s: Shared, t: nat, req: Request, id: string, now: int, ttl: int)
    returns (moves: seq<Move>, s2: Shared)
    requires t !in s.threads && req.client.Some? && id != "" && NeedsSession(req)
    ensures var r := Resolve(s.sessions, req.header, req.client.value, now, ttl);
      && Leads(s, moves, s2, []) && Only(s, s2, t, Thread(req, id, LookedUpStage(r), None))
      && s2.sessions == r.sessions
  {
    var m1, s1 := Starts(s, t, req, id);
    var r := Resolve(s.sessions, req.header, req.client.value, now, ttl);
    s2 := Moved(s1, t, Thread(req, id, LookedUpStage(r), None)).(sessions := r.sessions);
    LeadsOn(s, m1, s1, [], LookUp(t, now, ttl), s2);
    moves := m1 + [LookUp(t, now, ttl)];
  }

  /** Without a session to look up, and nothing to open. */
  lemma PlainAlone(s: Shared, t: nat, setup: Setup, b: E.Buckets, req: Request, io: Io)
    returns (moves: seq<Move>, s': Shared)
    requires t !in s.threads && req.client.Some? && io.newId != "" && !Initializes(req) && !NeedsSession(req)
    ensures Alone(s, t, moves, s', Handled(setup, State(s.sessions, b), req, io).effects, s.sessions)
  {
    var m1, s1 := Starts(s, t, req, io.newId);
    moves, s' := JustReply(s, m1, s1, [], t, Thread(req, io.newId, Arrived, None));
  }

  lemma BindServes(gs: State, v: GR.Served, gs': State)
    requires GR.Serving(gs, v, gs') && v.req.client.Some? && Initializes(v.req)
    ensures v.effects == InitEffects(v.req.client.value, v.io)
    ensures if v.io.logged
      then S.BindTo(gs.sessions, v.io.newId, S.Binding(v.req.client.value, v.io.clock.bound + v.setup.ttl),
        v.io.clock.evicted, v.setup.cap, gs'.sessions)
      else gs'.sessions == gs.sessions
  {
  }

  lemma JustBind(s: Shared, moves: seq<Move>, s0: Shared, front: seq<Effect>, t: nat, th: Thread, v: GR.Served,
                 sessions: S.Table) returns (all: seq<Move>, s': Shared)
    requires Leads(s, moves, s0, front) && Only(s, s0, t, th)
    requires th.stage.Arrived? && Initializes(th.req) && th.logged == Some(true) && th.req.client.Some?
    requires S.BindTo(s0.sessions, th.id, S.Binding(th.req.client.value, v.io.clock.bound + v.setup.ttl),
      v.io.clock.evicted, v.setup.cap, sessions)
    ensures Leads(s, all, s', front + [Publish(th.id, th.req.client.value)])
    ensures Only(s, s', t, th.(stage := Opened)) && s'.sessions == sessions
  {
    var bind := Bind(t, v.io.clock.evicted, v.io.clock.bound, v.setup.ttl, v.setup.cap);
    s' := Moved(s0, t, th.(stage := Opened)).(sessions := sessions);
    LeadsOn(s, moves, s0, front, bind, s');
    all := moves + [bind];
  }

  lemma StartRecord(s: Shared, t: nat, req: Request, id: string, ok: bool) returns (moves: seq<Move>, s2: Shared)
    requires t !in s.threads && req.client.Some? && id != "" && Initializes(req)
    ensures Leads(s, moves, s2, [Audit(InitEvent(req.client.value, id), ok)]) && s2.sessions == s.sessions
    ensures Only(s, s2, t, Thread(req, id, Arrived, Some(ok)))
  {
    var m1, s1 := Starts(s, t, req, id);
    moves, s2 := JustRecord(s, m1, s1, [], t, Thread(req, id, Arrived, None), ok);
    assert [] + [Audit(InitEvent(req.client.value, id), ok)] == [Audit(InitEvent(req.client.value, id), ok)];
  }

  lemma BindReply(s: Shared, moves: seq<Move>, s2: Shared, front: seq<Effect>, t: nat, v: GR.Served,
                  sessions: S.Table) returns (all: seq<Move>, s': Shared)
    requires v.req.client.Some? && Initializes(v.req)
    requires Leads(s, moves, s2, front) && Only(s, s2, t, Thread(v.req, v.io.newId, Arrived, Some(true)))
    requires S.BindTo(s2.sessions, v.io.newId, S.Binding(v.req.client.value, v.io.clock.bound + v.setup.ttl),
      v.io.clock.evicted, v.setup.cap, sessions)
    ensures Alone(s, t, all, s',
      front + [Publish(v.io.newId, v.req.client.value), Send(Initialized(v.io.newId))], sessions)
  {
    var th := Thread(v.req, v.io.newId, Arrived, Some(true));
    var m3, s3 := JustBind(s, moves, s2, front, t, th, v, sessions);
    all, s' := JustReply(s, m3, s3, front + [Publish(th.id, v.req.client.value)], t, th.(stage := Opened));
    Appended(front, Publish(th.id, v.req.client.value), Send(Initialized(th.id)));
  }

  lemma InitParts(client: string, io: Io)
    ensures InitEffects(client, io) ==
      if io.logged
      then [Audit(InitEvent(client, io.newId), true)] + [Publish(io.newId, client), Send(Initialized(io.newId))]
      else [Audit(InitEvent(client, io.newId), false)] + [Send(AUDIT_FAILED)]
  {
  }

  lemma OpenAlone(s: Shared, t: nat, gs: State, v: GR.Served, gs': State) returns (moves: seq<Move>, s': Shared)
    requires t !in s.threads && v.req.client.Some? && v.io.newId != "" && Initializes(v.req)
    requires GR.Serving(gs, v, gs') && s.sessions == gs.sessions
    ensures Alone(s, t, moves, s', v.effects, gs'.sessions)
  {
    var client, id := v.req.client.value, v.io.newId;
    BindServes(gs, v, gs');
    InitParts(client, v.io);
    var m2, s2 := StartRecord(s, t, v.req, id, v.io.logged);
    if v.io.logged {
      moves, s' := BindReply(s, m2, s2, [Audit(InitEvent(client, id), true)], t, v, gs'.sessions);
    } else {
      moves, s' := JustReply(s, m2, s2, [Audit(InitEvent(client, id), false)], t,
        Thread(v.req, id, Arrived, Some(false)));
    }
  }

  /** A session that is refused, or a notification in its session. */
  lemma ShortAlone(s: Shared, t: nat, setup: Setup, b: E.Buckets, req: Request, io: Io)
    returns (moves: seq<Move>, s': Shared)
    requires t !in s.threads && req.client.Some? && io.newId != "" && NeedsSession(req)
    requires req.notification ||
      Resolve(s.sessions, req.header, req.client.value, io.clock.resolved, setup.ttl).problem.Some?
    ensures var o := Handled(setup, State(s.sessions, b), req, io); Alone(s, t, moves, s', o.effects, o.state.sessions)
  {
    var m2, s2 := StartsInSession(s, t, req, io.newId, io.clock.resolved, setup.ttl);
    var r := Resolve(s.sessions, req.header, req.client.value, io.clock.resolved, setup.ttl);
    var th := Thread(req, io.newId, LookedUpStage(r), None);
    moves, s' := RecordAndReply(s, m2, s2, [], t, th, io.logged);
    var effects := Handled(setup, State(s.sessions, b), req, io).effects;
    assert [] + [Audit(EventOf(th), io.logged), Send(ReplyOf(th.(logged := Some(io.logged))))] == effects;
  }

  lemma JustList(s: Shared, moves: seq<Move>, s0: Shared, front: seq<Effect>, t: nat, th: Thread, setup: Setup,
                 listing: Listing) returns (all: seq<Move>, s': Shared)
    requires Leads(s, moves, s0, front) && Only(s, s0, t, th)
    requires th.stage.Admitted? && th.req.verb == "tools/list" && !th.req.notification
    ensures Leads(s, all, s', front + [ListUpstream])
    ensures Only(s, s', t, th.(stage := ListedBy(setup, listing))) && s'.sessions == s0.sessions
  {
    s' := Moved(s0, t, th.(stage := ListedBy(setup, listing)));
    LeadsOn(s, moves, s0, front, ListUp(t, setup, listing), s');
    all := moves + [ListUp(t, setup, listing)];
  }

  lemma StartList(s: Shared, t: nat, setup: Setup, req: Request, io: Io) returns (moves: seq<Move>, s3: Shared)
    requires t !in s.threads && req.client.Some? && io.newId != "" && req.verb == "tools/list" && !req.notification
    requires Resolve(s.sessions, req.header, req.client.value, io.clock.resolved, setup.ttl).problem.None?
    ensures Leads(s, moves, s3, [ListUpstream])
    ensures Only(s, s3, t, Thread(req, io.newId, ListedBy(setup, io.listing), None))
    ensures s3.sessions == Resolve(s.sessions, req.header, req.client.value, io.clock.resolved, setup.ttl).sessions
  {
    var m2, s2 := StartsInSession(s, t, req, io.newId, io.clock.resolved, setup.ttl);
    moves, s3 := JustList(s, m2, s2, [], t, Thread(req, io.newId, Admitted, None), setup, io.listing);
    assert [] + [ListUpstream] == [ListUpstream];
  }

  lemma ListParts(setup: Setup, req: Request, io: Io, th: Thread)
    requires req.client.Some? && th == Thread(req, io.newId, ListedBy(setup, io.listing), None)
    requires req.verb == "tools/list" && !req.notification
    ensures ReadyToReply(th.(logged := Some(io.logged)))
    ensures ListEffects(setup, req.client.value, req.header, io) ==
      [ListUpstream] + [Audit(EventOf(th), io.logged), Send(ReplyOf(th.(logged := Some(io.logged))))]
  {
  }

  lemma ListAlone(s: Shared, t: nat, setup: Setup, b: E.Buckets, req: Request, io: Io)
    returns (moves: seq<Move>, s': Shared)
    requires t !in s.threads && req.client.Some? && io.newId != "" && req.verb == "tools/list" && !req.notification
    requires Resolve(s.sessions, req.header, req.client.value, io.clock.resolved, setup.ttl).problem.None?
    ensures var o := Handled(setup, State(s.sessions, b), req, io); Alone(s, t, moves, s', o.effects, o.state.sessions)
  {
    var m3, s3 := StartList(s, t, setup, req, io);
    var th := Thread(req, io.newId, ListedBy(setup, io.listing), None);
    ListParts(setup, req, io, th);
    moves, s' := RecordAndReply(s, m3, s3, [ListUpstream], t, th, io.logged);
  }

  lemma JustDecide(s: Shared, moves: seq<Move>, s0: Shared, front: seq<Effect>, t: nat, th: Thread, setup: Setup,
                   d: P.Decision) returns (all: seq<Move>, s': Shared)
    requires Leads(s, moves, s0, front) && Only(s, s0, t, th)
    requires th.stage.Admitted? && NamesTool(th.req) && Decides(setup, th, d)
    ensures Leads(s, all, s', front) && Only(s, s', t, th.(stage := Decided(d))) && s'.sessions == s0.sessions
  {
    s' := Moved(s0, t, th.(stage := Decided(d)));
    LeadsOn(s, moves, s0, front, Decide(t, setup, d), s');
    all := moves + [Decide(t, setup, d)];
    assert front + [] == front;
  }

  lemma JustCall(s: Shared, moves: seq<Move>, s0: Shared, front: seq<Effect>, t: nat, th: Thread, answer: Upstream)
    returns (all: seq<Move>, s': Shared)
    requires Leads(s, moves, s0, front) && Only(s, s0, t, th) && th.stage == Decided(GR.ALLOWED) && NamesTool(th.req)
    ensures Leads(s, all, s', front + [CallUpstream(ClientOf(th), th.req.header, th.req.params.call)])
    ensures Only(s, s', t, th.(stage := Called(answer))) && s'.sessions == s0.sessions
  {
    s' := Moved(s0, t, th.(stage := Called(answer)));
    LeadsOn(s, moves, s0, front, CallUp(t, answer), s');
    all := moves + [CallUp(t, answer)];
  }

  lemma DecisionFits(setup: Setup, b: E.Buckets, req: Request, io: Io, client: string, th: Thread)
    requires NamesTool(req) && th.req == req
    ensures Decides(setup, th, E.Step(setup.env, setup.policy, ToEngine(req, client, io), b).decision)
  {
    GR.StepIsBinary(setup, ToEngine(req, client, io), b);
    if E.Step(setup.env, setup.policy, ToEngine(req, client, io), b).decision.action == "allow" {
      GR.AllowedIsAllowed(setup.env, setup.policy, ToEngine(req, client, io), b);
      GR.StepAllowsByPolicy(setup, ToEngine(req, client, io), b);
    }
  }

  lemma StartCall(s: Shared, t: nat, setup: Setup, b: E.Buckets, req: Request, io: Io)
    returns (moves: seq<Move>, s3: Shared)
    requires t !in s.threads && req.client.Some? && io.newId != "" && NamesTool(req)
    requires Resolve(s.sessions, req.header, req.client.value, io.clock.resolved, setup.ttl).problem.None?
    ensures var d := E.Step(setup.env, setup.policy, ToEngine(req, req.client.value, io), b).decision;
      Leads(s, moves, s3, []) && Only(s, s3, t, Thread(req, io.newId, Decided(d), None))
    ensures s3.sessions == Resolve(s.sessions, req.header, req.client.value, io.clock.resolved, setup.ttl).sessions
  {
    var d := E.Step(setup.env, setup.policy, ToEngine(req, req.client.value, io), b).decision;
    var th := Thread(req, io.newId, Admitted, None);
    var m2, s2 := StartsInSession(s, t, req, io.newId, io.clock.resolved, setup.ttl);
    DecisionFits(setup, b, req, io, req.client.value, th);
    moves, s3 := JustDecide(s, m2, s2, [], t, th, setup, d);
  }

  lemma DenyParts(req: Request, io: Io, d: P.Decision, th: Thread)
    requires req.client.Some? && NamesTool(req) && d.action == "deny" && th == Thread(req, io.newId, Decided(d), None)
    ensures ReadyToReply(th.(logged := Some(io.logged))) && ReadyToRecord(th)
    ensures CallEffects(req.client.value, req.header, req.params.call, d, io) ==
      [] + [Audit(EventOf(th), io.logged), Send(ReplyOf(th.(logged := Some(io.logged))))]
  {
  }

  lemma AllowParts(req: Request, io: Io, th: Thread)
    requires req.client.Some? && NamesTool(req) && th == Thread(req, io.newId, Called(io.upstream), None)
    ensures ReadyToReply(th.(logged := Some(io.logged))) && ReadyToRecord(th)
    ensures CallEffects(req.client.value, req.header, req.params.call, GR.ALLOWED, io) ==
      [CallUpstream(req.client.value, req.header, req.params.call)] +
      [Audit(EventOf(th), io.logged), Send(ReplyOf(th.(logged := Some(io.logged))))]
  {
  }

  lemma FinishCall(s: Shared, m3: seq<Move>, s3: Shared, t: nat, req: Request, io: Io, d: P.Decision)
    returns (moves: seq<Move>, s': Shared)
    requires req.client.Some? && NamesTool(req) && (d.action == "deny" || d == GR.ALLOWED)
    requires Leads(s, m3, s3, []) && Only(s, s3, t, Thread(req, io.newId, Decided(d), None))
    ensures Alone(s, t, moves, s', CallEffects(req.client.value, req.header, req.params.call, d, io), s3.sessions)
  {
    var decided := Thread(req, io.newId, Decided(d), None);
    if d.action == "deny" {
      DenyParts(req, io, d, decided);
      moves, s' := RecordAndReply(s, m3, s3, [], t, decided, io.logged);
    } else {
      var called := decided.(stage := Called(io.upstream));
      AllowParts(req, io, called);
      var m4, s4 := JustCall(s, m3, s3, [], t, decided, io.upstream);
      var call := CallUpstream(req.client.value, req.header, req.params.call);
      assert [] + [call] == [call];
      moves, s' := RecordAndReply(s, m4, s4, [call], t, called, io.logged);
    }
  }

  lemma CallAlone(s: Shared, t: nat, setup: Setup, b: E.Buckets, req: Request, io: Io)
    returns (moves: seq<Move>, s': Shared)
    requires t !in s.threads && req.client.Some? && io.newId != "" && NamesTool(req)
    requires Resolve(s.sessions, req.header, req.client.value, io.clock.resolved, setup.ttl).problem.None?
    ensures var o := Handled(setup, State(s.sessions, b), req, io); Alone(s, t, moves, s', o.effects, o.state.sessions)
  {
    var d := E.Step(setup.env, setup.policy, ToEngine(req, req.client.value, io), b).decision;
    var m3, s3 := StartCall(s, t, setup, b, req, io);
    DecisionFits(setup, b, req, io, req.client.value, Thread(req, io.newId, Admitted, None));
    GR.CalledEffects(setup, State(s.sessions, b), req, io, req.client.value);
    moves, s' := FinishCall(s, m3, s3, t, req, io, d);
  }

  lemma NamelessAlone(s: Shared, t: nat, setup: Setup, b: E.Buckets, req: Request, io: Io)
    returns (moves: seq<Move>, s': Shared)
    requires t !in s.threads && req.client.Some? && io.newId != ""
    requires req.verb == "tools/call" && !req.notification && !NamesTool(req)
    requires Resolve(s.sessions, req.header, req.client.value, io.clock.resolved, setup.ttl).problem.None?
    ensures var o := Handled(setup, State(s.sessions, b), req, io); Alone(s, t, moves, s', o.effects, o.state.sessions)
  {
    var m2, s2 := StartsInSession(s, t, req, io.newId, io.clock.resolved, setup.ttl);
    moves, s' := JustReply(s, m2, s2, [], t, Thread(req, io.newId, Admitted, None));
  }

  /** The steps of one request of an authenticated client, taken without another in
      between, amount to the request flow: the same effects in the same order, and the
      same session table. */
  lemma AloneIsServed(s: Shared, t: nat, gs: State, v: GR.Served, gs': State) returns (moves: seq<Move>, s': Shared)
    requires t !in s.threads && v.req.client.Some? && v.io.newId != ""
    requires GR.Serving(gs, v, gs') && s.sessions == gs.sessions
    ensures Alone(s, t, moves, s', v.effects, gs'.sessions)
  {
    var req, io := v.req, v.io;
    if Initializes(req) {
      moves, s' := OpenAlone(s, t, gs, v, gs');
    } else if !NeedsSession(req) {
      moves, s' := PlainAlone(s, t, v.setup, gs.buckets, req, io);
    } else if req.notification ||
        Resolve(s.sessions, req.header, req.client.value, io.clock.resolved, v.setup.ttl).problem.Some? {
      moves, s' := ShortAlone(s, t, v.setup, gs.buckets, req, io);
    } else if req.verb == "tools/list" {
      moves, s' := ListAlone(s, t, v.setup, gs.buckets, req, io);
    } else if NamesTool(req) {
      moves, s' := CallAlone(s, t, v.setup, gs.buckets, req, io);
    } else {
      moves, s' := NamelessAlone(s, t, v.setup, gs.buckets, req, io);
    }
  }
}
