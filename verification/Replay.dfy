/** internal/audit/replay.go: recorded tools/call events are put to a policy
    engine again, and each is reported as unchanged or CHANGED. */
module Replay {
  import opened Options
  import opened Gateway
  import P = Policy
  import E = Engine
  import GR = GatewayRuns

  /** How arguments are written to JSON, which can fail, and read back. */
  datatype Codec = Codec(
    marshal: map<string, P.Value> -> Option<string>,
    unmarshal: string -> map<string, P.Value>)

  /** The recorded fields that replay reads. */
  datatype Row = Row(verb: string, tool: string, decision: string, client: string, argumentsJson: string)

  datatype Line = Line(changed: bool, tool: string, before: string, after: string, rule: string, reason: string)

  /** Empty arguments, and arguments that cannot be marshalled, are stored as "". */
  function Stored(codec: Codec, args: map<string, P.Value>): string
  {
    if args == map[] || codec.marshal(args).None? then "" else codec.marshal(args).value
  }

  function Loaded(codec: Codec, json: string): map<string, P.Value>
  {
    if json == "" then map[] else codec.unmarshal(json)
  }

  predicate Survives(codec: Codec, args: map<string, P.Value>)
  {
    Loaded(codec, Stored(codec, args)) == args
  }

  function RowOf(codec: Codec, e: Event): Row
  {
    Row(e.verb, e.tool, e.decision, e.client, Stored(codec, e.arguments))
  }

  // ---- replay -------------------------------------------------------------

  function CallOf(codec: Codec, r: Row): P.Call
  {
    P.Call(r.tool, Loaded(codec, r.argumentsJson))
  }

  function LineFor(r: Row, d: P.Decision): Line
  {
    Line(d.action != r.decision, r.tool, r.decision, d.action, d.rule, d.reason)
  }

  datatype Report = Report(lines: seq<Line>, buckets: E.Buckets)

  /** The lines printed for these rows, and the buckets left. The clock readings
      are the environment's, one per row. */
  function Replayed(
    codec: Codec, env: P.Env, policy: Option<P.CompiledPolicy>, rows: seq<Row>, clock: nat -> int, b: E.Buckets): Report
  {
    if rows == [] then Report([], b)
    else
      var n := |rows| - 1;
      var before := Replayed(codec, env, policy, rows[..n], clock, b);
      if rows[n].verb != "tools/call" then before
      else
        var a := E.Step(env, policy, E.Request(CallOf(codec, rows[n]), rows[n].client, clock(n)), before.buckets);
        Report(before.lines + [LineFor(rows[n], a.decision)], a.buckets)
  }

  method ReplayPolicyCheck(codec: Codec, rows: seq<Row>, engine: E.YAMLPolicyEngine, clock: nat -> int)
    returns (lines: seq<Line>)
    modifies engine.limiter
    ensures Report(lines, engine.limiter.buckets) ==
      Replayed(codec, engine.env, engine.policy, rows, clock, old(engine.limiter.buckets))
  {
    lines := [];
    for i := 0 to |rows|
      invariant Report(lines, engine.limiter.buckets) ==
        Replayed(codec, engine.env, engine.policy, rows[..i], clock, old(engine.limiter.buckets))
    {
      var e := rows[i];
      assert rows[..i + 1][..i] == rows[..i];
      if e.verb != "tools/call" {
        continue;
      }
      var args: map<string, P.Value> := map[];
      if e.argumentsJson != "" {
        args := codec.unmarshal(e.argumentsJson);
      }
      var nd := engine.Evaluate(E.Request(P.Call(e.tool, args), e.client, clock(i)));
      var changed := nd.action != e.decision;
      lines := lines + [Line(changed, e.tool, e.decision, nd.action, nd.rule, nd.reason)];
    }
    assert rows[..|rows|] == rows;
  }

  /** Where the recorded tools/call events stand among the rows. */
  function CallPlaces(rows: seq<Row>): (places: seq<nat>)
    ensures forall i :: 0 <= i < |places| ==> places[i] < |rows| && rows[places[i]].verb == "tools/call"
    ensures forall i, j :: 0 <= i < j < |places| ==> places[i] < places[j]
    ensures forall k :: 0 <= k < |rows| && rows[k].verb == "tools/call" ==> k in places
  {
    if rows == [] then []
    else
      var n := |rows| - 1;
      if rows[n].verb == "tools/call" then CallPlaces(rows[..n]) + [n] else CallPlaces(rows[..n])
  }

  /** What the engine decides on row k, after the calls before it. */
  function DecisionOn(
    codec: Codec, env: P.Env, policy: Option<P.CompiledPolicy>, rows: seq<Row>, clock: nat -> int, b: E.Buckets,
    k: nat): P.Decision
    requires k < |rows|
  {
    var args := if rows[k].argumentsJson == "" then map[] else codec.unmarshal(rows[k].argumentsJson);
    E.Step(env, policy, E.Request(P.Call(rows[k].tool, args), rows[k].client, clock(k)),
      Replayed(codec, env, policy, rows[..k], clock, b).buckets).decision
  }

  /** The line for a row: CHANGED or not, the tool, the decision recorded and the one
      made now, and the rule and reason of the one made now. */
  predicate LineTells(l: Line, r: Row, d: P.Decision)
  {
    && l.tool == r.tool && l.before == r.decision && l.after == d.action
    && l.rule == d.rule && l.reason == d.reason && (l.changed <==> r.decision != d.action)
  }

  predicate LinesTell(
    codec: Codec, env: P.Env, policy: Option<P.CompiledPolicy>, rows: seq<Row>, clock: nat -> int, b: E.Buckets,
    lines: seq<Line>)
  {
    var places := CallPlaces(rows);
    && |lines| == |places|
    && forall i :: 0 <= i < |places| ==>
      LineTells(lines[i], rows[places[i]], DecisionOn(codec, env, policy, rows, clock, b, places[i]))
  }

  lemma DecisionOnPrefix(
    codec: Codec, env: P.Env, policy: Option<P.CompiledPolicy>, rows: seq<Row>, clock: nat -> int, b: E.Buckets,
    n: nat, k: nat)
    requires k < n <= |rows|
    ensures DecisionOn(codec, env, policy, rows, clock, b, k) == DecisionOn(codec, env, policy, rows[..n], clock, b, k)
  {
    assert rows[..n][..k] == rows[..k];
  }

  /** The last row adds its line if it is a tools/call, and nothing otherwise. */
  lemma LastRowTells(
    codec: Codec, env: P.Env, policy: Option<P.CompiledPolicy>, rows: seq<Row>, clock: nat -> int, b: E.Buckets)
    requires rows != []
    ensures var n := |rows| - 1;
      var before := Replayed(codec, env, policy, rows[..n], clock, b).lines;
      var lines := Replayed(codec, env, policy, rows, clock, b).lines;
      if rows[n].verb == "tools/call" then
        && |lines| == |before| + 1 && lines[..|before|] == before
        && LineTells(lines[|before|], rows[n], DecisionOn(codec, env, policy, rows, clock, b, n))
      else lines == before
  {
  }

  /** Replay, against any policy, limited or not: one line for each recorded tools/call,
      in order, with what was recorded and what the engine decides now. */
  lemma {:induction false} ReplayTells(
    codec: Codec, env: P.Env, policy: Option<P.CompiledPolicy>, rows: seq<Row>, clock: nat -> int, b: E.Buckets)
    ensures LinesTell(codec, env, policy, rows, clock, b, Replayed(codec, env, policy, rows, clock, b).lines)
    decreases |rows|
  {
    if rows != [] {
      var n := |rows| - 1;
      var places := CallPlaces(rows[..n]);
      ReplayTells(codec, env, policy, rows[..n], clock, b);
      LastRowTells(codec, env, policy, rows, clock, b);
      forall i | 0 <= i < |places|
        ensures DecisionOn(codec, env, policy, rows, clock, b, places[i]) ==
          DecisionOn(codec, env, policy, rows[..n], clock, b, places[i])
      {
        DecisionOnPrefix(codec, env, policy, rows, clock, b, n, places[i]);
      }
    }
  }

  // ---- calls that no limit touches ----------------------------------------

  /** Some allow rule limits the rate of calls to this tool. */
  predicate RateLimited(p: P.CompiledPolicy, tool: string)
  {
    exists i :: 0 <= i < |p.allowRules| && E.Limits(p.allowRules[i], tool)
  }

  /** No limit can touch the call: it is denied, or no limited rule covers it. */
  predicate Free(env: P.Env, p: P.CompiledPolicy, call: P.Call)
  {
    P.Evaluate(env, p, call).action == "allow" ==> !RateLimited(p, call.name)
  }

  /** Limits there may be, but none on a call that the policy allows. */
  ghost predicate Unhindered(env: P.Env, p: P.CompiledPolicy)
  {
    forall call: P.Call :: Free(env, p, call)
  }

  lemma {:induction false} NothingCharged(rules: seq<P.Rule>, req: E.Request, b: E.Buckets)
    requires forall i :: 0 <= i < |rules| ==> !E.Limits(rules[i], req.call.name)
    ensures E.Charge(rules, req, b) == E.Outcome(None, b)
    decreases |rules|
  {
    if rules != [] {
      NothingCharged(rules[1..], req, b);
    }
  }

  lemma FreeStep(env: P.Env, p: P.CompiledPolicy, req: E.Request, b: E.Buckets)
    requires Free(env, p, req.call)
    ensures E.Step(env, Some(p), req, b) == E.Answer(P.Evaluate(env, p, req.call), b)
  {
    if P.Evaluate(env, p, req.call).action == "allow" {
      NothingCharged(p.allowRules, req, b);
    }
  }

  predicate AnyChanged(lines: seq<Line>)
  {
    exists i :: 0 <= i < |lines| && lines[i].changed
  }

  /** This row's line says CHANGED, where no limit touches its call. */
  predicate Differs(codec: Codec, env: P.Env, p: P.CompiledPolicy, r: Row)
  {
    r.verb == "tools/call" && P.Evaluate(env, p, CallOf(codec, r)).action != r.decision
  }

  /** Where no limit touches the recorded calls, replay prints CHANGED exactly when
      one of them is now decided differently, whatever the clock reads. */
  lemma {:induction false} ChangedExactly(
    codec: Codec, env: P.Env, p: P.CompiledPolicy, rows: seq<Row>, clock: nat -> int, b: E.Buckets)
    requires forall i :: 0 <= i < |rows| && rows[i].verb == "tools/call" ==> Free(env, p, CallOf(codec, rows[i]))
    ensures Replayed(codec, env, Some(p), rows, clock, b).buckets == b
    ensures AnyChanged(Replayed(codec, env, Some(p), rows, clock, b).lines) <==>
      exists i :: 0 <= i < |rows| && Differs(codec, env, p, rows[i])
    decreases |rows|
  {
    if rows != [] {
      var n := |rows| - 1;
      ChangedExactly(codec, env, p, rows[..n], clock, b);
      var before := Replayed(codec, env, Some(p), rows[..n], clock, b).lines;
      var lines := Replayed(codec, env, Some(p), rows, clock, b).lines;
      if rows[n].verb == "tools/call" {
        FreeStep(env, p, E.Request(CallOf(codec, rows[n]), rows[n].client, clock(n)), b);
        OneMoreLine(before, lines[|lines| - 1]);
      }
      if i :| 0 <= i < n && Differs(codec, env, p, rows[..n][i]) {
        assert Differs(codec, env, p, rows[i]);
      }
      if i :| 0 <= i < |rows| && Differs(codec, env, p, rows[i]) {
        assert i < n ==> Differs(codec, env, p, rows[..n][i]);
      }
    }
  }

  lemma OneMoreLine(lines: seq<Line>, l: Line)
    ensures AnyChanged(lines + [l]) <==> AnyChanged(lines) || l.changed
  {
    var all := lines + [l];
    if i :| 0 <= i < |lines| && lines[i].changed {
      assert all[i].changed;
    }
    assert all[|lines|] == l;
  }

  // ---- replaying what the gateway recorded --------------------------------

  /** The decision is the policy's own, or a refusal where a limit may refuse; it
      is a denial if there is no policy. */
  predicate DecidedUnder(env: P.Env, policy: Option<P.CompiledPolicy>, call: P.Call, decision: string)
  {
    match policy
    case None => decision == "deny"
    case Some(p) =>
      decision == P.Evaluate(env, p, call).action || (decision == "deny" && RateLimited(p, call.name))
  }

  /** The event is one that the gateway logs under this policy: a decided call, a
      rejected session, or something that is not a tools/call. */
  predicate RecordedUnder(env: P.Env, policy: Option<P.CompiledPolicy>, e: Event)
  {
    || e.verb != "tools/call"
    || (e.tool == "" && e.decision == "deny" && e.arguments == map[])
    || (e.tool != "" && DecidedUnder(env, policy, P.Call(e.tool, e.arguments), e.decision))
  }

  lemma {:induction false} RefuserLimits(rules: seq<P.Rule>, req: E.Request, b: E.Buckets)
    requires E.Charge(rules, req, b).refused.Some?
    ensures exists i :: 0 <= i < |rules| && E.Limits(rules[i], req.call.name)
    decreases |rules|
  {
    if !E.Limits(rules[0], req.call.name) {
      RefuserLimits(rules[1..], req, b);
      var i :| 0 <= i < |rules[1..]| && E.Limits(rules[1..][i], req.call.name);
      assert E.Limits(rules[i + 1], req.call.name);
    }
  }

  lemma StepDecides(env: P.Env, policy: Option<P.CompiledPolicy>, req: E.Request, b: E.Buckets)
    ensures DecidedUnder(env, policy, req.call, E.Step(env, policy, req, b).decision.action)
  {
    if policy.Some? && P.Evaluate(env, policy.value, req.call).action == "allow" {
      if E.Charge(policy.value.allowRules, req, b).refused.Some? {
        RefuserLimits(policy.value.allowRules, req, b);
      }
    }
  }

  lemma CallsAreRecorded(setup: Setup, s: State, req: Request, client: string, io: Io, k: nat)
    requires var es := Called(setup, s, req, client, io).effects; k < |es| && es[k].Audit?
    ensures RecordedUnder(setup.env, setup.policy, Called(setup, s, req, client, io).effects[k].event)
  {
    if req.params.CallParams? && req.params.call.name != "" {
      StepDecides(setup.env, setup.policy, ToEngine(req, client, io), s.buckets);
      assert req.params.call == P.Call(req.params.call.name, req.params.call.arguments);
    }
  }

  lemma HandledIsRecorded(setup: Setup, s: State, req: Request, io: Io, k: nat)
    requires var es := Handled(setup, s, req, io).effects; k < |es| && es[k].Audit?
    ensures RecordedUnder(setup.env, setup.policy, Handled(setup, s, req, io).effects[k].event)
  {
    if req.client.Some? && !req.notification && req.verb == "tools/call" {
      var client := req.client.value;
      var r := Resolve(s.sessions, req.header, client, io.clock.resolved, setup.ttl);
      GR.CallHandled(setup, s, req, client, io);
      if r.problem.None? {
        CallsAreRecorded(setup, s.(sessions := r.sessions), req, client, io, k);
      }
    }
  }

  /** Every audit event of every run is of that kind, for the policy that was in
      force. */
  lemma GatewayRecords(log: seq<GR.Served>, s: State, i: nat, k: nat)
    requires GR.Reaches(log, s) && i < |log| && k < |log[i].effects| && log[i].effects[k].Audit?
    ensures RecordedUnder(log[i].setup.env, log[i].setup.policy, log[i].effects[k].event)
  {
    var before, after := GR.StateBefore(log, s, i);
    HandledIsRecorded(log[i].setup, before, log[i].req, log[i].io, k);
  }

  /** The same where no limit touches the call: the recorded decision is the policy's own. */
  predicate Recorded(env: P.Env, p: P.CompiledPolicy, e: Event)
  {
    || e.verb != "tools/call"
    || (e.tool == "" && e.decision == "deny" && e.arguments == map[])
    || (e.tool != "" && e.decision == P.Evaluate(env, p, P.Call(e.tool, e.arguments)).action)
  }

  lemma FreeRecords(env: P.Env, p: P.CompiledPolicy, e: Event)
    requires Free(env, p, P.Call(e.tool, e.arguments)) && RecordedUnder(env, Some(p), e)
    ensures Recorded(env, p, e)
  {
  }

  predicate RejectedCall(e: Event)
  {
    e.verb == "tools/call" && e.tool == ""
  }

  /** The policy denies a call that names no tool and carries no arguments. */
  predicate DeniesNameless(env: P.Env, p: P.CompiledPolicy)
  {
    P.Evaluate(env, p, P.Call("", map[])).action == "deny"
  }

  lemma NamelessOutsideSurface(env: P.Env, p: P.CompiledPolicy)
    requires "" !in p.surface
    ensures DeniesNameless(env, p)
  {
  }

  function RowsOf(codec: Codec, events: seq<Event>): seq<Row>
  {
    seq(|events|, i requires 0 <= i < |events| => RowOf(codec, events[i]))
  }

  function ActionOn(env: P.Env, p: P.CompiledPolicy, e: Event): string
  {
    P.Evaluate(env, p, P.Call(e.tool, e.arguments)).action
  }

  /** When one recorded event comes out differently under the policy p2. */
  lemma RecordedDiffers(codec: Codec, env: P.Env, p: P.CompiledPolicy, p2: P.CompiledPolicy, e: Event)
    requires Recorded(env, p, e) && Survives(codec, e.arguments)
    ensures Differs(codec, env, p2, RowOf(codec, e)) <==>
      e.verb == "tools/call" &&
      if e.tool == "" then !DeniesNameless(env, p2)
      else ActionOn(env, p2, e) != ActionOn(env, p, e)
  {
  }

  /** Replaying a gateway's record against the policy that produced it prints no
      CHANGED line if and only if no session was rejected on a tools/call or the
      policy denies a nameless call, as it does when the empty name is not in its
      surface. */
  lemma ReplayAgrees(
    codec: Codec, env: P.Env, p: P.CompiledPolicy, events: seq<Event>, clock: nat -> int, b: E.Buckets)
    requires Unhindered(env, p)
    requires forall i :: 0 <= i < |events| ==> Recorded(env, p, events[i]) && Survives(codec, events[i].arguments)
    ensures !AnyChanged(Replayed(codec, env, Some(p), RowsOf(codec, events), clock, b).lines) <==>
      DeniesNameless(env, p) || forall i :: 0 <= i < |events| ==> !RejectedCall(events[i])
    ensures "" !in p.surface ==> !AnyChanged(Replayed(codec, env, Some(p), RowsOf(codec, events), clock, b).lines)
  {
    var rows := RowsOf(codec, events);
    if "" !in p.surface {
      NamelessOutsideSurface(env, p);
    }
    ChangedExactly(codec, env, p, rows, clock, b);
    forall i | 0 <= i < |rows|
      ensures Differs(codec, env, p, rows[i]) <==> RejectedCall(events[i]) && !DeniesNameless(env, p)
    {
      RecordedDiffers(codec, env, p, p, events[i]);
    }
  }

  predicate AuditedIn(log: seq<GR.Served>, e: Event)
  {
    exists i, k :: 0 <= i < |log| && 0 <= k < |log[i].effects| && log[i].effects[k] == Audit(e, true)
  }

  /** The same for the events of any run of the gateway: any selection of them, in
      any order, such as one session's events by timestamp. */
  lemma ReplayOfRun(
    codec: Codec, env: P.Env, p: P.CompiledPolicy, log: seq<GR.Served>, s: State, events: seq<Event>,
    clock: nat -> int, b: E.Buckets)
    requires GR.Reaches(log, s) && GR.OnePolicy(env, p, log) && Unhindered(env, p)
    requires forall i :: 0 <= i < |events| ==> AuditedIn(log, events[i]) && Survives(codec, events[i].arguments)
    ensures !AnyChanged(Replayed(codec, env, Some(p), RowsOf(codec, events), clock, b).lines) <==>
      DeniesNameless(env, p) || forall i :: 0 <= i < |events| ==> !RejectedCall(events[i])
    ensures "" !in p.surface ==> !AnyChanged(Replayed(codec, env, Some(p), RowsOf(codec, events), clock, b).lines)
  {
    forall i | 0 <= i < |events| ensures Recorded(env, p, events[i]) {
      assert AuditedIn(log, events[i]);
      var j, k :| 0 <= j < |log| && 0 <= k < |log[j].effects| && log[j].effects[k] == Audit(events[i], true);
      GatewayRecords(log, s, j, k);
      assert GR.Under(env, p, log[j]);
      FreeRecords(env, p, events[i]);
    }
    ReplayAgrees(codec, env, p, events, clock, b);
  }

  /** What replay against p2 finds unchanged. */
  predicate Agrees(env: P.Env, p2: P.CompiledPolicy, e: Event)
  {
    e.verb == "tools/call" ==>
      if e.tool == "" then DeniesNameless(env, p2)
      else e.decision == P.Evaluate(env, p2, P.Call(e.tool, e.arguments)).action
  }

  lemma AgreesOrDiffers(codec: Codec, env: P.Env, p2: P.CompiledPolicy, e: Event)
    requires Survives(codec, e.arguments)
    requires e.verb == "tools/call" && e.tool == "" ==> e.decision == "deny" && e.arguments == map[]
    ensures Differs(codec, env, p2, RowOf(codec, e)) <==> !Agrees(env, p2, e)
  {
  }

  /** For the events of any run, recorded under any policies, with limits or not,
      and swapped at will: replay against a policy that hinders no call prints no
      CHANGED if and only if that policy decides every recorded call as it was decided, limits
      included, and denies a nameless call where a session was rejected. */
  lemma ReplayOfAnyRun(
    codec: Codec, env: P.Env, p2: P.CompiledPolicy, log: seq<GR.Served>, s: State, events: seq<Event>,
    clock: nat -> int, b: E.Buckets)
    requires GR.Reaches(log, s) && Unhindered(env, p2)
    requires forall i :: 0 <= i < |events| ==> AuditedIn(log, events[i]) && Survives(codec, events[i].arguments)
    ensures !AnyChanged(Replayed(codec, env, Some(p2), RowsOf(codec, events), clock, b).lines) <==>
      forall i :: 0 <= i < |events| ==> Agrees(env, p2, events[i])
  {
    var rows := RowsOf(codec, events);
    ChangedExactly(codec, env, p2, rows, clock, b);
    forall i | 0 <= i < |rows| ensures Differs(codec, env, p2, rows[i]) <==> !Agrees(env, p2, events[i]) {
      assert AuditedIn(log, events[i]);
      var j, k :| 0 <= j < |log| && 0 <= k < |log[j].effects| && log[j].effects[k] == Audit(events[i], true);
      GatewayRecords(log, s, j, k);
      AgreesOrDiffers(codec, env, p2, events[i]);
    }
    if i :| 0 <= i < |events| && !Agrees(env, p2, events[i]) {
      assert Differs(codec, env, p2, rows[i]);
    }
  }

  /** Against another policy that hinders no call, replay prints CHANGED exactly when the two
      policies decide some recorded call differently, or a session was rejected
      and the new policy would allow a nameless call. */
  lemma ReplayFindsDifferences(
    codec: Codec, env: P.Env, p: P.CompiledPolicy, p2: P.CompiledPolicy, events: seq<Event>, clock: nat -> int,
    b: E.Buckets)
    requires Unhindered(env, p2)
    requires forall i :: 0 <= i < |events| ==> Recorded(env, p, events[i]) && Survives(codec, events[i].arguments)
    ensures AnyChanged(Replayed(codec, env, Some(p2), RowsOf(codec, events), clock, b).lines) <==>
      exists i :: 0 <= i < |events| && DecidedOtherwise(env, p, p2, events[i])
  {
    var rows := RowsOf(codec, events);
    ChangedExactly(codec, env, p2, rows, clock, b);
    forall i | 0 <= i < |rows| ensures Differs(codec, env, p2, rows[i]) <==> DecidedOtherwise(env, p, p2, events[i]) {
      RecordedDiffers(codec, env, p, p2, events[i]);
    }
    if i :| 0 <= i < |events| && DecidedOtherwise(env, p, p2, events[i]) {
      assert Differs(codec, env, p2, rows[i]);
    }
  }

  predicate DecidedOtherwise(env: P.Env, p: P.CompiledPolicy, p2: P.CompiledPolicy, e: Event)
  {
    && e.verb == "tools/call"
    && if e.tool == "" then !DeniesNameless(env, p2)
       else ActionOn(env, p2, e) != ActionOn(env, p, e)
  }

  lemma ReplayThen(
    codec: Codec, env: P.Env, policy: Option<P.CompiledPolicy>, rows: seq<Row>, r: Row, clock: nat -> int, b: E.Buckets)
    requires r.verb == "tools/call"
    ensures var before := Replayed(codec, env, policy, rows, clock, b);
      var a := E.Step(env, policy, E.Request(CallOf(codec, r), r.client, clock(|rows|)), before.buckets);
      Replayed(codec, env, policy, rows + [r], clock, b) == Report(before.lines + [LineFor(r, a.decision)], a.buckets)
  {
    assert (rows + [r])[..|rows|] == rows;
  }
}
