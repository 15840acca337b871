/** The gateway and the audit writer together: each audit attempt is one call of
    Log, in the order in which the calls return, and `ok` is Log's nil return. */
module AuditedRuns {
  import opened ChainRuns
  import opened HashChain
  import opened LogIntegrity
  import opened LogReturns
  import opened Options
  import opened WriterModel
  import E = Engine
  import G = Gateway
  import GR = GatewayRuns
  import GS = GatewaySteps
  import P = Policy
  import SR = SessionRuns
  import T = ScanOrder

  /** The JSON texts that a result and a call's arguments are stored as. */
  datatype Encoder = Encoder(response: string -> string, arguments: map<string, P.Value> -> string)

  /** The row fields that eventToStored takes from this event. */
  predicate Records(encode: Encoder, f: Fields, e: G.Event)
  {
    && f.verb == e.verb && f.toolName == e.tool && f.decision == e.decision
    && f.policyRule == e.rule && f.reason == e.reason
    && f.clientId == e.client && f.sessionId == e.session && f.argumentsJson == encode.arguments(e.arguments)
    && (e.answer.Payload? ==> f.responseJson == encode.response(e.answer.text))
  }

  // ---- attempts and returns -----------------------------------------------

  datatype Attempt = Attempt(event: G.Event, ok: bool)

  function AttemptsIn(es: seq<G.Effect>): seq<Attempt>
  {
    if es == [] then []
    else if es[0].Audit? then [Attempt(es[0].event, es[0].ok)] + AttemptsIn(es[1..])
    else AttemptsIn(es[1..])
  }

  /** The audit attempts of a run of requests, in order. */
  function Attempts(log: seq<GR.Served>): seq<Attempt>
  {
    if log == [] then []
    else
      var n := |log| - 1;
      Attempts(log[..n]) + AttemptsIn(log[n].effects)
  }

  predicate Matches(encode: Encoder, attempts: seq<Attempt>, rs: seq<Return>)
  {
    && |attempts| == |rs|
    && forall i :: 0 <= i < |rs| ==>
      rs[i].ok == attempts[i].ok && Records(encode, rs[i].event.fields, attempts[i].event)
  }

  lemma {:induction false} AttemptListed(es: seq<G.Effect>, q: nat)
    requires q < |es| && es[q].Audit?
    ensures Attempt(es[q].event, es[q].ok) in AttemptsIn(es)
    decreases |es|
  {
    if q > 0 {
      AttemptListed(es[1..], q - 1);
    }
  }

  lemma {:induction false} AttemptInRun(log: seq<GR.Served>, k: nat, q: nat) returns (i: nat)
    requires k < |log| && q < |log[k].effects| && log[k].effects[q].Audit?
    ensures |Attempts(log[..k])| <= i < |Attempts(log[..k + 1])| <= |Attempts(log)|
    ensures Attempts(log)[i] == Attempt(log[k].effects[q].event, log[k].effects[q].ok)
    decreases |log|
  {
    var n := |log| - 1;
    if k < n {
      i := AttemptInRun(log[..n], k, q);
      assert log[..n][..k] == log[..k] && log[..n][..k + 1] == log[..k + 1];
    } else {
      AttemptListed(log[n].effects, q);
      var j :| 0 <= j < |AttemptsIn(log[n].effects)| &&
        AttemptsIn(log[n].effects)[j] == Attempt(log[k].effects[q].event, log[k].effects[q].ok);
      i := |Attempts(log[..n])| + j;
      assert log[..k + 1] == log;
    }
  }

  // ---- block and fail_closed: a row for every accepted attempt ------------

  predicate HoldsRow(encode: Encoder, table: T.Table, e: G.Event)
  {
    exists id :: id in table && Records(encode, table[id].data.fields, e)
  }

  /** Attempt i was refused, or row ids[i] records it. */
  predicate HasRow(encode: Encoder, attempts: seq<Attempt>, ids: seq<string>, table: T.Table, i: int)
    requires 0 <= i < |attempts| == |ids|
  {
    attempts[i].ok ==> ids[i] in table && Records(encode, table[ids[i]].data.fields, attempts[i].event)
  }

  predicate RowOfAttempt(attempts: seq<Attempt>, ids: seq<string>, id: string, i: int)
  {
    0 <= i < |attempts| == |ids| && attempts[i].ok && ids[i] == id
  }

  /** Every accepted attempt has a row of its own, and there are no other rows. */
  ghost predicate OneRowEach(encode: Encoder, attempts: seq<Attempt>, ids: seq<string>, table: T.Table)
  {
    && |ids| == |attempts|
    && (forall i :: 0 <= i < |attempts| ==> HasRow(encode, attempts, ids, table, i))
    && (forall i, j :: 0 <= i < j < |attempts| && attempts[i].ok && attempts[j].ok ==> ids[i] != ids[j])
    && (forall id :: id in table ==> exists i :: RowOfAttempt(attempts, ids, id, i))
  }

  lemma {:induction false} AcceptedDiffer(rs: seq<Return>, i: nat, j: nat)
    requires DifferentIds(Accepted(rs)) && i < j < |rs| && rs[i].ok && rs[j].ok
    ensures rs[i].event.eventId != rs[j].event.eventId
    decreases |rs|
  {
    var rest, a := rs[1..], Accepted(rs);
    if i == 0 {
      AcceptedMeans(rest, j - 1);
      var k :| 0 <= k < |Accepted(rest)| && Accepted(rest)[k] == rs[j].event;
      assert a[k + 1] == rs[j].event && a[0] == rs[0].event;
    } else {
      assert rs[0].ok ==> Accepted(rest) == a[1..];
      AcceptedDiffer(rest, i - 1, j - 1);
    }
  }

  lemma {:induction false} AcceptedFrom(rs: seq<Return>, e: Payload) returns (i: nat)
    requires e in Accepted(rs)
    ensures i < |rs| && rs[i] == Return(e, true)
    decreases |rs|
  {
    if rs[0] == Return(e, true) {
      i := 0;
    } else {
      i := AcceptedFrom(rs[1..], e);
      i := i + 1;
    }
  }

  /** In block and fail_closed mode, once the writer has finished and no batch was
      lost, every accepted attempt has a row of its own, and no other row is there,
      whatever the order in which the calls of Log returned. */
  lemma AcceptedHaveRows(
    encode: Encoder, attempts: seq<Attempt>, hash: Digest, r: Retention, cfg: Config, steps: seq<Step>)
    returns (ids: seq<string>)
    requires Reports(cfg.mode) && Finished(hash, r, cfg, steps) && NoneFailed(Final(hash, r, cfg, steps).log.flushes)
    requires Matches(encode, attempts, Returns(Chained(hash, r), cfg, Start(EMPTY), steps))
    ensures OneRowEach(encode, attempts, ids, Final(hash, r, cfg, steps).disk.table)
  {
    var rs := Returns(Chained(hash, r), cfg, Start(EMPTY), steps);
    ids := seq(|rs|, i requires 0 <= i < |rs| => rs[i].event.eventId);
    StoredAccepted(hash, r, cfg, steps);
    forall i | 0 <= i < |attempts| ensures HasRow(encode, attempts, ids, Final(hash, r, cfg, steps).disk.table, i) {
      if rs[i].ok {
        AcceptedMeans(rs, i);
        AcceptedIsStored(hash, r, cfg, steps, rs[i].event);
      }
    }
    forall i, j | 0 <= i < j < |attempts| && attempts[i].ok && attempts[j].ok ensures ids[i] != ids[j] {
      AcceptedDiffer(rs, i, j);
    }
    RowsAccepted(attempts, hash, r, cfg, steps, rs, ids);
  }

  /** The stored chain is that of the accepted events. */
  lemma StoredAccepted(hash: Digest, r: Retention, cfg: Config, steps: seq<Step>)
    requires Reports(cfg.mode) && Finished(hash, r, cfg, steps) && NoneFailed(Final(hash, r, cfg, steps).log.flushes)
    ensures HoldsChain(hash, Final(hash, r, cfg, steps).disk,
      Accepted(Returns(Chained(hash, r), cfg, Start(EMPTY), steps)))
  {
    PlainNoRestart(steps);
    AcceptedIsEnqueued(Chained(hash, r), cfg, Start(EMPTY), steps);
    FinishedRun(hash, r, cfg, steps);
    var a := Accepted(Returns(Chained(hash, r), cfg, Start(EMPTY), steps));
    assert [] + a == a;
  }

  lemma {:induction false} RowsAccepted(
    attempts: seq<Attempt>, hash: Digest, r: Retention, cfg: Config, steps: seq<Step>, rs: seq<Return>,
    ids: seq<string>)
    requires Finished(hash, r, cfg, steps) && HoldsChain(hash, Final(hash, r, cfg, steps).disk, Accepted(rs))
    requires |ids| == |rs| == |attempts| && forall i :: 0 <= i < |rs| ==> ids[i] == rs[i].event.eventId
    requires forall i :: 0 <= i < |rs| ==> rs[i].ok == attempts[i].ok
    ensures forall id :: id in Final(hash, r, cfg, steps).disk.table ==> exists i :: RowOfAttempt(attempts, ids, id, i)
  {
    var table := Final(hash, r, cfg, steps).disk.table;
    var c := Chain(hash, "", Accepted(rs));
    WrittenRows(hash, Accepted(rs));
    forall id | id in table ensures exists i :: RowOfAttempt(attempts, ids, id, i) {
      assert T.IsRow(table, table[id]);
      var k :| 0 <= k < |c| && c[k] == table[id];
      var i := AcceptedFrom(rs, c[k].data);
      assert RowOfAttempt(attempts, ids, id, i);
    }
  }

  /** So every tool result that was sent is in the table, with its payload, in the
      row of its own request's attempt. */
  lemma SentResultIsStored(
    encode: Encoder, log: seq<GR.Served>, s: G.State, hash: Digest, r: Retention, cfg: Config, steps: seq<Step>,
    k: nat, p: nat, payload: string) returns (e: G.Event, ids: seq<string>, i: nat)
    requires GR.Reaches(log, s) && k < |log| && p < |log[k].effects|
    requires log[k].effects[p] == G.Send(G.ToolResult(payload))
    requires Reports(cfg.mode) && Finished(hash, r, cfg, steps) && NoneFailed(Final(hash, r, cfg, steps).log.flushes)
    requires Matches(encode, Attempts(log), Returns(Chained(hash, r), cfg, Start(EMPTY), steps))
    ensures GR.ToolEvent(e, payload) && OneRowEach(encode, Attempts(log), ids, Final(hash, r, cfg, steps).disk.table)
    ensures |Attempts(log[..k])| <= i < |Attempts(log[..k + 1])| <= |Attempts(log)|
    ensures Attempts(log)[i] == Attempt(e, true)
  {
    GR.NoUnauditedResult(log, s, k, p, payload);
    var es := log[k].effects;
    var q :| 0 <= q < p < |es| && es[q].Audit? && es[q].ok && GR.ToolEvent(es[q].event, payload);
    e := es[q].event;
    i := AttemptInRun(log, k, q);
    ids := AcceptedHaveRows(encode, Attempts(log), hash, r, cfg, steps);
  }

  // ---- interleaved requests -----------------------------------------------

  /** The audit attempts of an interleaved run, in the order in which they ended. */
  function RecordsIn(moves: seq<GS.Move>): seq<Attempt>
  {
    if moves == [] then []
    else
      var n := |moves| - 1;
      if moves[n].Record? then RecordsIn(moves[..n]) + [Attempt(moves[n].event, moves[n].ok)] else RecordsIn(moves[..n])
  }

  lemma {:induction false} RecordInRun(moves: seq<GS.Move>, j: nat)
    requires j < |moves| && moves[j].Record?
    ensures |RecordsIn(moves[..j])| < |RecordsIn(moves)|
    ensures RecordsIn(moves)[|RecordsIn(moves[..j])|] == Attempt(moves[j].event, moves[j].ok)
    decreases |moves|
  {
    var n := |moves| - 1;
    if j < n {
      assert moves[..n][..j] == moves[..j];
      RecordInRun(moves[..n], j);
    }
  }

  /** The same for every interleaving of requests: the row is that of the attempt
      which this request made before it replied. */
  lemma InterleavedResultIsStored(
    encode: Encoder, moves: seq<GS.Move>, s: GS.Shared, hash: Digest, r: Retention, cfg: Config, steps: seq<Step>,
    k: nat, payload: string) returns (e: G.Event, ids: seq<string>, j: nat)
    requires GS.Reaches(moves, s) && k < |moves| && moves[k].Reply? && moves[k].reply == G.ToolResult(payload)
    requires Reports(cfg.mode) && Finished(hash, r, cfg, steps) && NoneFailed(Final(hash, r, cfg, steps).log.flushes)
    requires Matches(encode, RecordsIn(moves), Returns(Chained(hash, r), cfg, Start(EMPTY), steps))
    ensures GR.ToolEvent(e, payload) && OneRowEach(encode, RecordsIn(moves), ids, Final(hash, r, cfg, steps).disk.table)
    ensures j < k && moves[j] == GS.Record(moves[k].t, e, true)
    ensures |RecordsIn(moves[..j])| < |RecordsIn(moves)|
    ensures RecordsIn(moves)[|RecordsIn(moves[..j])|] == Attempt(e, true)
  {
    var i, q;
    i, q, e := GS.ResultWasAccepted(moves, s, k, payload);
    j := q;
    RecordInRun(moves, j);
    ids := AcceptedHaveRows(encode, RecordsIn(moves), hash, r, cfg, steps);
  }

  // ---- where it is not ----------------------------------------------------

  function RowFor(encode: Encoder, id: string, ts: int, e: G.Event): Payload
  {
    var response := if e.answer.Payload? then encode.response(e.answer.text) else "";
    Payload(id, ts,
      Fields("", "", e.session, "", e.client, e.verb, e.tool, "gateway", e.decision, e.rule, e.reason,
        encode.arguments(e.arguments), response, "", 0))
  }

  function AttemptOf(e: G.Effect): seq<Attempt>
  {
    if e.Audit? then [Attempt(e.event, e.ok)] else []
  }

  lemma AttemptsInThree(x: G.Effect, y: G.Effect, z: G.Effect)
    ensures AttemptsIn([x, y, z]) == AttemptOf(x) + (AttemptOf(y) + AttemptOf(z))
  {
    assert [x, y, z][1..] == [y, z] && [y, z][1..] == [z] && [z][1..] == [];
    assert AttemptsIn([z]) == AttemptOf(z);
    assert AttemptsIn([y, z]) == AttemptOf(y) + AttemptsIn([z]);
  }

  lemma {:induction false} AttemptsOfTwo(log: seq<GR.Served>)
    requires |log| == 2
    ensures Attempts(log) == AttemptsIn(log[0].effects) + AttemptsIn(log[1].effects)
  {
    assert log[..1] == [log[0]] && log[..1][..0] == [];
    assert Attempts(log[..1]) == AttemptsIn(log[0].effects);
  }

  lemma {:induction false} OpenAndCallAttempts(log: seq<GR.Served>, client: string, id: string, call: P.Call)
    requires |log| == 2
    requires log[0].effects ==
      [G.Audit(G.InitEvent(client, id), true), G.Publish(id, client), G.Send(G.Initialized(id))]
    requires GR.CallThenAttempt(log[1].effects, client, id, call, log[1].io)
    ensures Attempts(log) == [Attempt(G.InitEvent(client, id), true),
      Attempt(G.CallEvent(client, id, call, GR.ALLOWED, GR.AnswerOf(log[1].io.upstream)), log[1].io.logged)]
  {
    var a, b := log[0].effects, log[1].effects;
    AttemptsOfTwo(log);
    AttemptsInThree(a[0], a[1], a[2]);
    AttemptsInThree(b[0], b[1], b[2]);
    assert a == [a[0], a[1], a[2]] && b == [b[0], b[1], b[2]];
  }

  /** The gateway's side: a session is opened, a call goes upstream, and its audit
      attempt is accepted or refused. */
  lemma CallLog(setup: G.Setup, client: string, id: string, call: P.Call, payload: string, logged: bool)
    returns (log: seq<GR.Served>, s: G.State, e: G.Event)
    requires setup.cap > 0 && setup.ttl > 0 && id != "" && call.name != ""
    requires E.Step(setup.env, setup.policy, E.Request(call, client, 0), map[]).decision.action == "allow"
    ensures GR.Reaches(log, s) && |log| == 2 && log[1].io.logged == logged && e.verb == "tools/call"
    ensures GR.CallThenAttempt(log[1].effects, client, id, call, log[1].io) && GR.ToolEvent(e, payload)
    ensures logged ==>
      log[1].effects == [G.CallUpstream(client, id, call), G.Audit(e, true), G.Send(G.ToolResult(payload))]
    ensures Attempts(log) == [Attempt(G.InitEvent(client, id), true), Attempt(e, logged)]
  {
    log := GR.OpenAndCall(setup, client, id, call, payload, logged);
    s := GR.OpenAndCallRun(setup, client, id, call, payload, logged);
    e := G.CallEvent(client, id, call, GR.ALLOWED, G.Payload(payload));
    OpenAndCallAttempts(log, client, id, call);
  }

  /** The rows of an initialize and of a call, as the attempts of OpenAndCall. */
  lemma PairMatches(encode: Encoder, a: G.Event, b: G.Event, ok: bool)
    ensures Matches(encode, [Attempt(a, true), Attempt(b, ok)],
      [Return(RowFor(encode, "1", 0, a), true), Return(RowFor(encode, "2", 1, b), ok)])
  {
  }

  function Mark(n: nat): (s: string)
    ensures |s| == n
  {
    if n == 0 then "" else Mark(n - 1) + "x"
  }

  /** A row for each event, under different ids. */
  function RowsFor(encode: Encoder, events: seq<G.Event>): (rows: seq<Payload>)
    ensures |rows| == |events| && forall i :: 0 <= i < |rows| ==> |rows[i].eventId| == i
    ensures forall i :: 0 <= i < |rows| ==> Records(encode, rows[i].fields, events[i])
  {
    if events == [] then []
    else
      var n := |events| - 1;
      RowsFor(encode, events[..n]) + [RowFor(encode, Mark(n), n, events[n])]
  }

  lemma {:induction false} RowsForMore(encode: Encoder, events: seq<G.Event>, e: G.Event)
    ensures RowsFor(encode, events + [e]) == RowsFor(encode, events) + [RowFor(encode, Mark(|events|), |events|, e)]
  {
    LastRow(encode, events + [e]);
    assert (events + [e])[..|events|] == events;
  }

  lemma {:induction false} LastRow(encode: Encoder, events: seq<G.Event>)
    requires events != []
    ensures var n := |events| - 1;
      RowsFor(encode, events) == RowsFor(encode, events[..n]) + [RowFor(encode, Mark(n), n, events[n])]
  {
  }

  lemma RowsDiffer(encode: Encoder, events: seq<G.Event>)
    ensures DifferentIds(RowsFor(encode, events))
  {
  }

  function Oks(events: seq<G.Event>): seq<Attempt>
  {
    seq(|events|, i requires 0 <= i < |events| => Attempt(events[i], true))
  }

  lemma OksMatch(encode: Encoder, events: seq<G.Event>)
    ensures Matches(encode, Oks(events), Nils(RowsFor(encode, events)))
  {
  }

  /** The events of a session that lists the tools n times. */
  function ListingEvents(client: string, id: string, n: nat): (es: seq<G.Event>)
    ensures |es| == n + 1 && forall i :: 0 <= i < |es| ==> es[i].verb != "tools/call"
  {
    if n == 0 then [G.InitEvent(client, id)] else ListingEvents(client, id, n - 1) + [SR.ListEvent(client, id)]
  }

  lemma {:induction false} ListingAttempts(setup: G.Setup, client: string, id: string, n: nat)
    ensures Attempts(SR.Listings(setup, client, id, n)) == Oks(ListingEvents(client, id, n))
    decreases n
  {
    var log := SR.Listings(setup, client, id, n);
    var es := log[|log| - 1].effects;
    AttemptsInThree(es[0], es[1], es[2]);
    assert es == [es[0], es[1], es[2]];
    if n == 0 {
      assert log[..0] == [] && Attempts(log[..0]) == [];
    } else {
      ListingAttempts(setup, client, id, n - 1);
      assert log[..|log| - 1] == SR.Listings(setup, client, id, n - 1);
    }
  }

  lemma CallAttempts(
    log: seq<GR.Served>, events: seq<G.Event>, setup: G.Setup, client: string, id: string, call: P.Call,
    payload: string)
    requires Attempts(log) == Oks(events)
    ensures Attempts(log + [SR.CallAt(setup, client, id, call, payload, 0)]) ==
      Oks(events + [SR.ResultEvent(client, id, call, payload)])
  {
    var v := SR.CallAt(setup, client, id, call, payload, 0);
    assert (log + [v])[..|log|] == log;
    AttemptsInThree(v.effects[0], v.effects[1], v.effects[2]);
  }

  /** Best_effort and drop mode, for every size of the channel: a result is sent
      although its event, whose Log call returned nil, has no row, in a run in which
      the writer finishes and no batch is lost. The session fills the channel by
      listing the tools before it makes its call. */
  lemma SentResultNotStored(
    encode: Encoder, hash: Digest, r: Retention, cfg: Config, setup: G.Setup, client: string, id: string,
    call: P.Call, payload: string) returns (log: seq<GR.Served>, s: G.State, steps: seq<Step>, e: G.Event)
    requires (cfg.mode.BestEffort? || cfg.mode.DropWhenFull?) && cfg.chanSize >= 1
    requires setup.cap > 0 && setup.ttl > 0 && id != "" && call.name != ""
    requires E.Step(setup.env, setup.policy, E.Request(call, client, 0), map[]).decision.action == "allow"
    ensures GR.Reaches(log, s) && log != [] && GR.ToolEvent(e, payload)
    ensures log[|log| - 1].effects ==
      [G.CallUpstream(client, id, call), G.Audit(e, true), G.Send(G.ToolResult(payload))]
    ensures Finished(hash, r, cfg, steps) && NoneFailed(Final(hash, r, cfg, steps).log.flushes)
    ensures Matches(encode, Attempts(log), Returns(Chained(hash, r), cfg, Start(EMPTY), steps))
    ensures !HoldsRow(encode, Final(hash, r, cfg, steps).disk.table, e)
  {
    var n := cfg.chanSize - 1;
    var before, events := SR.Listings(setup, client, id, n), ListingEvents(client, id, n);
    log := before + [SR.CallAt(setup, client, id, call, payload, 0)];
    s := SR.ListingsThenCall(setup, client, id, n, call, payload);
    e := SR.ResultEvent(client, id, call, payload);
    ListingAttempts(setup, client, id, n);
    CallAttempts(before, events, setup, client, id, call, payload);
    steps := LastDropped(encode, hash, r, cfg, events, e);
    OksMatch(encode, events + [e]);
  }

  /** The channel takes these events and drops one more. */
  lemma LastDropped(encode: Encoder, hash: Digest, r: Retention, cfg: Config, events: seq<G.Event>, e: G.Event)
    returns (steps: seq<Step>)
    requires (cfg.mode.BestEffort? || cfg.mode.DropWhenFull?) && |events| == cfg.chanSize
    requires forall i :: 0 <= i < |events| ==> events[i].verb != e.verb
    ensures Finished(hash, r, cfg, steps) && NoneFailed(Final(hash, r, cfg, steps).log.flushes)
    ensures Returns(Chained(hash, r), cfg, Start(EMPTY), steps) == Nils(RowsFor(encode, events + [e]))
    ensures !HoldsRow(encode, Final(hash, r, cfg, steps).disk.table, e)
  {
    var rows := RowsFor(encode, events);
    RowsForMore(encode, events, e);
    RowsDiffer(encode, events + [e]);
    steps := AcceptedNotStored(hash, r, cfg, rows, RowFor(encode, Mark(|events|), |events|, e));
    NoRowFor(encode, hash, r, cfg, steps, rows, e);
  }

  lemma NoRowFor(
    encode: Encoder, hash: Digest, r: Retention, cfg: Config, steps: seq<Step>, rows: seq<Payload>, e: G.Event)
    requires Finished(hash, r, cfg, steps) && HoldsChain(hash, Final(hash, r, cfg, steps).disk, rows)
    requires forall i :: 0 <= i < |rows| ==> rows[i].fields.verb != e.verb
    ensures !HoldsRow(encode, Final(hash, r, cfg, steps).disk.table, e)
  {
    var table, c := Final(hash, r, cfg, steps).disk.table, Chain(hash, "", rows);
    WrittenRows(hash, rows);
    forall k | k in table ensures !Records(encode, table[k].data.fields, e) {
      assert T.IsRow(table, table[k]);
      var i :| 0 <= i < |c| && c[i] == table[k];
      assert c[i].data == rows[i];
    }
  }

  /** Fail_closed mode: the call goes upstream, and Log refuses its event because
      the latch is set. Nothing is sent but the failure notice, no row is there,
      and by LatchIsPermanent none will come without a restart. */
  lemma CallWithoutRow(
    encode: Encoder, hash: Digest, r: Retention, cfg: Config, setup: G.Setup, client: string, id: string,
    call: P.Call, payload: string) returns (log: seq<GR.Served>, s: G.State, steps: seq<Step>, t: State)
    requires cfg.mode.FailClosed? && cfg.chanSize >= 1
    requires setup.cap > 0 && setup.ttl > 0 && id != "" && call.name != ""
    requires E.Step(setup.env, setup.policy, E.Request(call, client, 0), map[]).decision.action == "allow"
    ensures GR.Reaches(log, s) && |log| == 2 && !log[1].io.logged
    ensures GR.CallThenAttempt(log[1].effects, client, id, call, log[1].io)
    ensures Plain(steps) && Runnable(Chained(hash, r), cfg, Start(EMPTY), steps)
    ensures t == Final(hash, r, cfg, steps) && t.dbFailed && InFlight(t) == multiset{} && t.disk.table == map[]
    ensures Matches(encode, Attempts(log), Returns(Chained(hash, r), cfg, Start(EMPTY), steps))
  {
    var e;
    log, s, e := CallLog(setup, client, id, call, payload, false);
    var first := RowFor(encode, "1", 0, G.InitEvent(client, id));
    var second := RowFor(encode, "2", 1, e);
    PairMatches(encode, G.InitEvent(client, id), e, false);
    steps, t := RefusedByLatch(hash, r, cfg, first, second);
  }
}
