/** From the request to the row: what the stored log says about each request, once
    the writer has finished without losing a batch. */
module RowFields {
  import opened AuditedRuns
  import opened ChainRuns
  import opened HashChain
  import opened LogReturns
  import opened Options
  import opened WriterModel
  import G = Gateway
  import GA = GatewayAnswers
  import GR = GatewayRuns
  import GS = GatewaySteps
  import P = Policy
  import SA = StepAnswers

  /** The row names the client, the verb and the session of the request. */
  predicate RowNames(f: Fields, req: G.Request, newId: string)
  {
    && req.client == Some(f.clientId) && f.verb == req.verb
    && f.sessionId == if G.Initializes(req) then newId else req.header
  }

  /** The row names the tool, its arguments, and the decision with its rule and reason. */
  predicate RowOfCall(encode: Encoder, f: Fields, call: P.Call, d: P.Decision)
  {
    && f.toolName == call.name && f.argumentsJson == encode.arguments(call.arguments)
    && f.decision == d.action && f.policyRule == d.rule && f.reason == d.reason
  }

  /** Block and fail_closed mode: every accepted attempt of every request has a row of
      its own, which names that request's client, verb and session, and for a named
      call in its session the tool, the arguments and the engine's decision. */
  lemma RequestIsStored(
    encode: Encoder, log: seq<GR.Served>, s: G.State, hash: Digest, r: Retention, cfg: Config, steps: seq<Step>,
    k: nat, q: nat) returns (before: G.State, ids: seq<string>, i: nat)
    requires GR.Reaches(log, s) && k < |log| && q < |log[k].effects| && log[k].effects[q].Audit?
    requires log[k].effects[q].ok
    requires Reports(cfg.mode) && Finished(hash, r, cfg, steps) && NoneFailed(Final(hash, r, cfg, steps).log.flushes)
    requires Matches(encode, Attempts(log), Returns(Chained(hash, r), cfg, Start(EMPTY), steps))
    ensures GR.Reaches(log[..k], before)
    ensures OneRowEach(encode, Attempts(log), ids, Final(hash, r, cfg, steps).disk.table)
    ensures |Attempts(log[..k])| <= i < |Attempts(log[..k + 1])| <= |Attempts(log)| == |ids|
    ensures ids[i] in Final(hash, r, cfg, steps).disk.table
    ensures var f, v := Final(hash, r, cfg, steps).disk.table[ids[i]].data.fields, log[k];
      && RowNames(f, v.req, v.io.newId)
      && (G.NamesTool(v.req) && GA.InItsSession(before.sessions, v.req, v.io.clock.resolved) ==>
          RowOfCall(encode, f, v.req.params.call,
            GA.EngineDecision(v.setup, before, v.req, v.req.client.value, v.io)))
  {
    before := GA.EventsTell(log, s, k, q);
    i := AttemptInRun(log, k, q);
    ids := AcceptedHaveRows(encode, Attempts(log), hash, r, cfg, steps);
    assert HasRow(encode, Attempts(log), ids, Final(hash, r, cfg, steps).disk.table, i);
  }

  /** The same for every interleaving: the row of an accepted attempt names its own
      request, and a row with a tool names the call and the decision made on it. */
  lemma InterleavedIsStored(
    encode: Encoder, moves: seq<GS.Move>, s: GS.Shared, hash: Digest, r: Retention, cfg: Config, steps: seq<Step>,
    j: nat) returns (th: GS.Thread, ids: seq<string>, i: nat)
    requires GS.Reaches(moves, s) && j < |moves| && moves[j].Record? && moves[j].ok
    requires Reports(cfg.mode) && Finished(hash, r, cfg, steps) && NoneFailed(Final(hash, r, cfg, steps).log.flushes)
    requires Matches(encode, RecordsIn(moves), Returns(Chained(hash, r), cfg, Start(EMPTY), steps))
    ensures GS.Registered(moves[..j], moves[j].t, th)
    ensures OneRowEach(encode, RecordsIn(moves), ids, Final(hash, r, cfg, steps).disk.table)
    ensures i == |RecordsIn(moves[..j])| < |ids| && ids[i] in Final(hash, r, cfg, steps).disk.table
    ensures var f := Final(hash, r, cfg, steps).disk.table[ids[i]].data.fields;
      && RowNames(f, th.req, th.id)
      && (f.toolName != "" ==> G.NamesTool(th.req) && exists d: P.Decision ::
            SA.Decision(moves[..j], moves[j].t, d) && RowOfCall(encode, f, th.req.params.call, d))
  {
    th := SA.RecordTells(moves, s, j);
    RecordInRun(moves, j);
    i := |RecordsIn(moves[..j])|;
    ids := AcceptedHaveRows(encode, RecordsIn(moves), hash, r, cfg, steps);
    assert HasRow(encode, RecordsIn(moves), ids, Final(hash, r, cfg, steps).disk.table, i);
  }
}
