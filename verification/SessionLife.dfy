/** How long a session lives, over every run of requests: from its opening or the
    last request that named it, for the TTL then in force. */
module SessionLife {
  import opened Gateway
  import opened GatewayRuns
  import opened Options
  import S = Sessions

  /** This request opened the session at this time, or named it and was looked up. */
  predicate Touch(v: Served, id: string, at: int)
  {
    && v.req.client.Some?
    && if Initializes(v.req) then v.io.logged && v.io.newId == id && at == v.io.clock.bound
       else NeedsSession(v.req) && v.req.header == id && at == v.io.clock.resolved
  }

  predicate TouchedAt(log: seq<Served>, k: int, id: string, at: int, expiresAt: int)
  {
    0 <= k < |log| && Touch(log[k], id, at) && expiresAt == at + log[k].setup.ttl
  }

  predicate Lives(s: S.Table, id: string, now: int)
  {
    id != "" && id in s && s[id].expiresAt > now
  }

  lemma HandledExpiry(setup: Setup, s: State, req: Request, io: Io, id: string)
    requires id in Handled(setup, s, req, io).state.sessions
    ensures id in s.sessions && Handled(setup, s, req, io).state.sessions[id].client == s.sessions[id].client
    ensures var after := Handled(setup, s, req, io).state.sessions[id];
      after == s.sessions[id] ||
      (req.client.Some? && !Initializes(req) && NeedsSession(req) && req.header == id &&
       after.expiresAt == io.clock.resolved + setup.ttl)
  {
  }

  lemma ServedExpiry(s: State, v: Served, s': State, id: string)
    requires Serving(s, v, s') && id in s'.sessions
    ensures (id in s.sessions && s'.sessions[id] == s.sessions[id]) ||
      exists at :: Touch(v, id, at) && s'.sessions[id].expiresAt == at + v.setup.ttl
  {
    if Binds(v.req, v.io) {
      BoundClients(s.sessions, v.io.newId, S.Binding(v.req.client.value, v.io.clock.bound + v.setup.ttl),
        v.io.clock.evicted, v.setup.cap, s'.sessions, id);
      assert id == v.io.newId ==> Touch(v, id, v.io.clock.bound);
    } else {
      HandledExpiry(v.setup, s, v.req, v.io, id);
      assert Touch(v, id, v.io.clock.resolved) || s'.sessions[id] == s.sessions[id];
    }
  }

  /** Over every run every session's expiry is one TTL after a request that opened it or
      named it, so it is accepted only within one TTL of such a request. */
  lemma {:induction false} ExpiryIsTouch(log: seq<Served>, s: State, id: string) returns (k: nat, at: int)
    requires Reaches(log, s) && id in s.sessions
    ensures TouchedAt(log, k, id, at, s.sessions[id].expiresAt)
    decreases |log|
  {
    var n := |log| - 1;
    var s0: State :| Reaches(log[..n], s0) && Serving(s0, log[n], s);
    ServedExpiry(s0, log[n], s, id);
    if id in s0.sessions && s.sessions[id] == s0.sessions[id] {
      k, at := ExpiryIsTouch(log[..n], s0, id);
    } else {
      k := n;
      at :| Touch(log[n], id, at) && s.sessions[id].expiresAt == at + log[n].setup.ttl;
    }
  }

  /** And every such request gives the session a full TTL: the initialize whose event is
      accepted, to its client; and any request of an authenticated client that names a
      session which lives, even a session of another client. */
  lemma TouchRenews(s: State, v: Served, s': State)
    requires Serving(s, v, s') && v.req.client.Some?
    ensures Initializes(v.req) && v.io.logged ==>
      v.io.newId in s'.sessions &&
      s'.sessions[v.io.newId] == S.Binding(v.req.client.value, v.io.clock.bound + v.setup.ttl)
    ensures NeedsSession(v.req) && Lives(s.sessions, v.req.header, v.io.clock.resolved) ==>
      v.req.header in s'.sessions && s'.sessions[v.req.header] ==
        S.Binding(s.sessions[v.req.header].client, v.io.clock.resolved + v.setup.ttl)
  {
    if v.req.verb == "tools/call" && !v.req.notification {
      CallHandled(v.setup, s, v.req, v.req.client.value, v.io);
    }
  }
}
