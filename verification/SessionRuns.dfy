/** Runs of the gateway in one session: it is opened, and requests follow that
    renew it. */
module SessionRuns {
  import opened Options
  import opened Gateway
  import opened GatewayRuns
  import P = Policy
  import E = Engine
  import S = Sessions

  lemma ReachesMore(log: seq<Served>, s: State, v: Served, s': State)
    requires Reaches(log, s) && Serving(s, v, s')
    ensures Reaches(log + [v], s')
  {
    assert (log + [v])[..|log|] == log;
  }

  ghost predicate Links(log: seq<Served>, states: seq<State>, k: int)
    requires 0 <= k < |log| && |states| == |log| + 1
  {
    Serving(states[k], log[k], states[k + 1])
  }

  /** These are the states between the requests of a run. */
  ghost predicate Linked(log: seq<Served>, states: seq<State>)
  {
    && |states| == |log| + 1 && states[0] == State(map[], map[])
    && forall k :: 0 <= k < |log| ==> Links(log, states, k)
  }

  lemma LinkedMore(log: seq<Served>, states: seq<State>, v: Served, s: State)
    requires Linked(log, states) && Serving(states[|log|], v, s)
    ensures Linked(log + [v], states + [s])
  {
    forall k | 0 <= k < |log| + 1 ensures Links(log + [v], states + [s], k) {
      assert k < |log| ==> Links(log, states, k);
    }
  }

  lemma {:induction false} LinkedReaches(log: seq<Served>, states: seq<State>)
    requires Linked(log, states)
    ensures Reaches(log, states[|log|])
    decreases |log|
  {
    if log != [] {
      var n := |log| - 1;
      var front := states[..n + 1];
      forall k | 0 <= k < n ensures Links(log[..n], front, k) {
        assert Links(log, states, k);
      }
      LinkedReaches(log[..n], front);
      assert Links(log, states, n);
    }
  }

  function OpenAt(setup: Setup, client: string, id: string): Served
  {
    var io := Io(id, Clock(0, 0, 0, 0), true, Refused(false), ListFailed(false));
    Served(setup, Request("initialize", false, Some(client), "", NoParams), io, InitEffects(client, io))
  }

  lemma OpenServed(setup: Setup, client: string, id: string)
    requires setup.cap > 0
    ensures Serving(State(map[], map[]), OpenAt(setup, client, id),
      State(map[id := S.Binding(client, setup.ttl)], map[]))
  {
    var live := S.Live(map[], 0);
    assert live == map[] && S.Evicts(live, S.Excess(|live|, setup.cap), map[]);
  }

  lemma OpenLinks(setup: Setup, client: string, id: string)
    requires setup.cap > 0
    ensures Linked([OpenAt(setup, client, id)],
      [State(map[], map[]), State(map[id := S.Binding(client, setup.ttl)], map[])])
  {
    OpenServed(setup, client, id);
    LinkedMore([], [State(map[], map[])], OpenAt(setup, client, id),
      State(map[id := S.Binding(client, setup.ttl)], map[]));
    assert [] + [OpenAt(setup, client, id)] == [OpenAt(setup, client, id)];
  }

  lemma OpenReaches(setup: Setup, client: string, id: string)
    requires setup.cap > 0
    ensures Reaches([OpenAt(setup, client, id)], State(map[id := S.Binding(client, setup.ttl)], map[]))
  {
    OpenLinks(setup, client, id);
    LinkedReaches([OpenAt(setup, client, id)],
      [State(map[], map[]), State(map[id := S.Binding(client, setup.ttl)], map[])]);
  }

  function ResultEvent(client: string, id: string, call: P.Call, payload: string): Event
  {
    CallEvent(client, id, call, ALLOWED, Payload(payload))
  }

  /** A call that is allowed, answered and recorded. */
  function CallAt(setup: Setup, client: string, id: string, call: P.Call, payload: string, now: int): Served
  {
    var io := Io(id, Clock(now, now, now, now), true, Answered(payload), ListFailed(false));
    Served(setup, Request("tools/call", false, Some(client), id, CallParams(call)), io,
      [CallUpstream(client, id, call), Audit(ResultEvent(client, id, call, payload), true), Send(ToolResult(payload))])
  }

  lemma CallServed(setup: Setup, s: State, client: string, id: string, call: P.Call, payload: string, now: int)
    requires id != "" && call.name != "" && Unexpired(s.sessions, id, client, now)
    requires E.Step(setup.env, setup.policy, E.Request(call, client, now), s.buckets).decision.action == "allow"
    ensures Serving(s, CallAt(setup, client, id, call, payload, now),
      State(s.sessions[id := S.Binding(client, now + setup.ttl)],
        E.Step(setup.env, setup.policy, E.Request(call, client, now), s.buckets).buckets))
  {
  }

  function ListEvent(client: string, id: string): Event
  {
    Event("tools/list", "", "allow", "", "", client, id, map[], Shown([]))
  }

  /** A tools/list of an upstream without tools, recorded. */
  function ListAt(setup: Setup, client: string, id: string): Served
  {
    var io := Io(id, Clock(0, 0, 0, 0), true, Refused(false), Names([]));
    Served(setup, Request("tools/list", false, Some(client), id, NoParams), io,
      [ListUpstream, Audit(ListEvent(client, id), true), Send(ToolList([]))])
  }

  lemma ListServed(setup: Setup, s: State, client: string, id: string)
    requires id != "" && setup.ttl > 0 && s.sessions == map[id := S.Binding(client, setup.ttl)]
    ensures Serving(s, ListAt(setup, client, id), s)
  {
    assert s.sessions[id := S.Binding(client, 0 + setup.ttl)] == s.sessions;
  }

  /** A session that is opened and lists the tools n times. */
  function Listings(setup: Setup, client: string, id: string, n: nat): seq<Served>
  {
    if n == 0 then [OpenAt(setup, client, id)]
    else Listings(setup, client, id, n - 1) + [ListAt(setup, client, id)]
  }

  lemma {:induction false} ListingsReach(setup: Setup, client: string, id: string, n: nat)
    requires setup.cap > 0 && setup.ttl > 0 && id != ""
    ensures Reaches(Listings(setup, client, id, n), State(map[id := S.Binding(client, setup.ttl)], map[]))
    decreases n
  {
    var s := State(map[id := S.Binding(client, setup.ttl)], map[]);
    if n == 0 {
      OpenReaches(setup, client, id);
    } else {
      ListingsReach(setup, client, id, n - 1);
      ListServed(setup, s, client, id);
      ReachesMore(Listings(setup, client, id, n - 1), s, ListAt(setup, client, id), s);
    }
  }

  /** And then makes a call, which is allowed, answered and recorded. */
  lemma ListingsThenCall(setup: Setup, client: string, id: string, n: nat, call: P.Call, payload: string)
    returns (s: State)
    requires setup.cap > 0 && setup.ttl > 0 && id != "" && call.name != ""
    requires E.Step(setup.env, setup.policy, E.Request(call, client, 0), map[]).decision.action == "allow"
    ensures Reaches(Listings(setup, client, id, n) + [CallAt(setup, client, id, call, payload, 0)], s)
  {
    var s0 := State(map[id := S.Binding(client, setup.ttl)], map[]);
    ListingsReach(setup, client, id, n);
    CallServed(setup, s0, client, id, call, payload, 0);
    s := State(s0.sessions[id := S.Binding(client, 0 + setup.ttl)],
      E.Step(setup.env, setup.policy, E.Request(call, client, 0), map[]).buckets);
    ReachesMore(Listings(setup, client, id, n), s0, CallAt(setup, client, id, call, payload, 0), s);
  }
}
