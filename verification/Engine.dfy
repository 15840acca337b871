/** The policy engine of internal/policy/engine.go: the compiled policy decides,
    then the limited allow rules that cover the tool each charge a bucket, found
    by a formatted string key. */
module Engine {
  import opened Options
  import opened Strings
  import P = Policy
  import R = RateLimit

  type Buckets = map<string, R.Bucket>

  /** A tools/call with the client id from its context and the clock reading. */
  datatype Request = Request(call: P.Call, client: string, now: int)

  const NANOS_PER_MS := 1000000

  // ---- bucket keys --------------------------------------------------------

  function GlobalKey(rule: string, tool: string): string
  {
    "global:" + rule + ":" + tool
  }

  function ClientKey(client: string, rule: string, tool: string): string
  {
    "client:" + client + ":" + rule + ":" + tool
  }

  function Key(r: P.Rule, tool: string, client: string): string
  {
    if r.limit.Some? && r.limit.value.perClient then ClientKey(client, r.name, tool) else GlobalKey(r.name, tool)
  }

  /** The same, or such that neither followed by a colon begins the other followed
      by a colon. */
  predicate Separable(a: string, b: string)
  {
    a == b || (!(a + ":" <= b + ":") && !(b + ":" <= a + ":"))
  }

  predicate NoColon(s: string)
  {
    ':' !in s
  }

  lemma NoColonsSeparable(a: string, b: string)
    requires NoColon(a) && NoColon(b)
    ensures Separable(a, b)
  {
    if |a| < |b| {
      ColonTells(a, b);
    } else if |b| < |a| {
      ColonTells(b, a);
    } else {
      assert a + ":" <= b + ":" ==> a == (a + ":")[..|a|] == (b + ":")[..|b|] == b;
    }
  }

  lemma ColonTells(a: string, b: string)
    requires |a| < |b| && NoColon(b)
    ensures !(a + ":" <= b + ":") && !(b + ":" <= a + ":")
  {
    assert (a + ":")[|a|] == ':' && (b + ":")[|a|] == b[|a|];
  }

  lemma SplitAtColon(a: string, x: string, b: string, y: string)
    requires Separable(a, b) && a + ":" + x == b + ":" + y
    ensures a == b && x == y
  {
    if |a| <= |b| {
      ShorterBegins(a + ":", x, b + ":", y);
    } else {
      ShorterBegins(b + ":", y, a + ":", x);
    }
    TailsEqual(a + ":", x, y);
  }

  lemma MiddlesEqual(p: string, x: string, y: string, t: string)
    requires p + x + t == p + y + t
    ensures x == y
  {
    var s := p + x + t;
    assert x == s[|p|..|s| - |t|] && y == s[|p|..|s| - |t|];
  }

  lemma KeysByScope(r: P.Rule, tool: string, client: string)
    ensures Key(r, tool, client)[0] == (if r.limit.Some? && r.limit.value.perClient then 'c' else 'g')
  {
  }

  lemma GlobalKeySplits(r: string, t: string, q: string, u: string)
    requires Separable(r, q) && GlobalKey(r, t) == GlobalKey(q, u)
    ensures r == q && t == u
  {
    assert GlobalKey(r, t) == "global:" + (r + ":" + t);
    assert GlobalKey(q, u) == "global:" + (q + ":" + u);
    TailsEqual("global:", r + ":" + t, q + ":" + u);
    SplitAtColon(r, t, q, u);
  }

  lemma ClientsSplit(c: string, r: string, t: string, d: string, q: string, u: string)
    requires Separable(c, d) && ClientKey(c, r, t) == ClientKey(d, q, u)
    ensures c == d && r + ":" + t == q + ":" + u
  {
    var x, y := r + ":" + t, q + ":" + u;
    assert ClientKey(c, r, t) == "client:" + (c + ":" + x);
    assert ClientKey(d, q, u) == "client:" + (d + ":" + y);
    TailsEqual("client:", c + ":" + x, d + ":" + y);
    SplitAtColon(c, x, d, y);
  }

  /** With separable rule names and client ids, which those without colons are, a
      key tells the rule's name, the tool and, for a per-client limit, the client.
      Tools may hold colons. */
  lemma KeyInjective(r: P.Rule, t: string, c: string, q: P.Rule, u: string, d: string)
    requires Separable(r.name, q.name) && Separable(c, d)
    requires r.limit.Some? && q.limit.Some? && Key(r, t, c) == Key(q, u, d)
    ensures r.name == q.name && t == u && r.limit.value.perClient == q.limit.value.perClient
    ensures r.limit.value.perClient ==> c == d
  {
    KeysByScope(r, t, c);
    KeysByScope(q, u, d);
    if r.limit.value.perClient {
      ClientsSplit(c, r.name, t, d, q.name, u);
      SplitAtColon(r.name, t, q.name, u);
    } else {
      GlobalKeySplits(r.name, t, q.name, u);
    }
  }

  predicate RulesShare(r: string, t: string, q: string, u: string)
  {
    t != "" && u != "" && GlobalKey(r, t) == GlobalKey(q, u)
  }

  /** Different rule names can share a bucket exactly when they are not separable:
      then some nonempty tool names make their keys equal. */
  lemma RuleNamesMeet(r: string, q: string)
    requires r != q
    ensures (exists t: string, u: string :: RulesShare(r, t, q, u)) <==> !Separable(r, q)
  {
    if t: string, u: string :| RulesShare(r, t, q, u) && Separable(r, q) {
      GlobalKeySplits(r, t, q, u);
    }
    if r + ":" <= q + ":" {
      var t := GlobalKeysMeet(r, q);
    } else if q + ":" <= r + ":" {
      var t := GlobalKeysMeet(q, r);
      assert RulesShare(r, "x", q, t);
    }
  }

  lemma GlobalKeysMeet(r: string, q: string) returns (t: string)
    requires r + ":" <= q + ":"
    ensures RulesShare(r, t, q, "x")
  {
    var rest := (q + ":")[|r| + 1..];
    t := rest + "x";
    assert r + ":" + rest == q + ":";
    assert GlobalKey(r, t) == "global:" + (r + ":" + rest) + "x";
    assert GlobalKey(q, "x") == "global:" + (q + ":") + "x";
  }

  predicate ClientsShare(c: string, r: string, t: string, d: string, q: string, u: string)
  {
    r != "" && q != "" && t != "" && u != "" && ClientKey(c, r, t) == ClientKey(d, q, u)
  }

  /** And so can different client ids, with nonempty rule and tool names. */
  lemma ClientIdsMeet(c: string, d: string)
    requires c != d
    ensures (exists r: string, t: string, q: string, u: string :: ClientsShare(c, r, t, d, q, u)) <==> !Separable(c, d)
  {
    if r: string, t: string, q: string, u: string :| ClientsShare(c, r, t, d, q, u) && Separable(c, d) {
      ClientsSplit(c, r, t, d, q, u);
    }
    if c + ":" <= d + ":" {
      var r := ClientKeysMeet(c, d);
    } else if d + ":" <= c + ":" {
      var r := ClientKeysMeet(d, c);
      assert ClientsShare(c, "x", "y", d, r, "y");
    }
  }

  lemma ClientKeysMeet(c: string, d: string) returns (r: string)
    requires c + ":" <= d + ":"
    ensures ClientsShare(c, r, "y", d, "x", "y")
  {
    var rest := (d + ":")[|c| + 1..];
    r := rest + "x";
    assert c + ":" + rest == d + ":";
    assert ClientKey(c, r, "y") == "client:" + (c + ":" + rest) + "x" + ":" + "y";
    assert ClientKey(d, "x", "y") == "client:" + (d + ":") + "x" + ":" + "y";
  }

  lemma Regroup(a: string, b: string, c: string)
    ensures a + b + c == a + (b + c)
  {
  }

  lemma NamesTell(p: string, x: string, y: string, t: string)
    requires p + x + ":" + t == p + y + ":" + t
    ensures x == y
  {
    Regroup(p + x, ":", t);
    Regroup(p + y, ":", t);
    MiddlesEqual(p, x, y, ":" + t);
  }

  /** Within one call the keys of rules with different names differ, colons or not. */
  lemma SameCallKeys(r: P.Rule, q: P.Rule, tool: string, client: string)
    requires r.name != q.name
    ensures Key(r, tool, client) != Key(q, tool, client)
  {
    KeysByScope(r, tool, client);
    KeysByScope(q, tool, client);
    if Key(q, tool, client) == Key(r, tool, client) {
      if r.limit.Some? && r.limit.value.perClient {
        NamesTell("client:" + client + ":", r.name, q.name, tool);
      } else {
        NamesTell("global:", r.name, q.name, tool);
      }
    }
  }

  // ---- the limiter phase --------------------------------------------------

  predicate Limits(r: P.Rule, tool: string)
  {
    tool in r.tools && r.limit.Some?
  }

  function KeyFor(r: P.Rule, req: Request): string
  {
    Key(r, req.call.name, req.client)
  }

  predicate AdmitsBy(r: P.Rule, req: Request, b: Buckets)
    requires r.limit.Some?
  {
    R.Admits(R.Lookup(b, KeyFor(r, req)), r.limit.value.max, r.limit.value.window, req.now)
  }

  function ChargedBy(r: P.Rule, req: Request, b: Buckets): R.Bucket
    requires r.limit.Some?
  {
    R.Charged(R.Lookup(b, KeyFor(r, req)), r.limit.value.max, r.limit.value.window, req.now)
  }

  /** The rule that refused, if any, and the buckets left behind. */
  datatype Outcome = Outcome(refused: Option<P.Rule>, buckets: Buckets)

  function Charge(rules: seq<P.Rule>, req: Request, b: Buckets): Outcome
  {
    if rules == [] then Outcome(None, b)
    else if !Limits(rules[0], req.call.name) then Charge(rules[1..], req, b)
    else
      var next := b[KeyFor(rules[0], req) := ChargedBy(rules[0], req, b)];
      if AdmitsBy(rules[0], req, b) then Charge(rules[1..], req, next) else Outcome(Some(rules[0]), next)
  }

  /** The index of the first rule that limits the tool and has no token left, in
      the buckets as they were before the call. */
  function Stop(rules: seq<P.Rule>, req: Request, b: Buckets): (i: nat)
    ensures i <= |rules|
    ensures i < |rules| ==> Limits(rules[i], req.call.name) && !AdmitsBy(rules[i], req, b)
    ensures forall k :: 0 <= k < i && Limits(rules[k], req.call.name) ==> AdmitsBy(rules[k], req, b)
  {
    if rules == [] then 0
    else if Limits(rules[0], req.call.name) && !AdmitsBy(rules[0], req, b) then 0
    else 1 + Stop(rules[1..], req, b)
  }

  predicate UniqueNames(rules: seq<P.Rule>)
  {
    forall i, j :: 0 <= i < j < |rules| ==> rules[i].name != rules[j].name
  }

  /** The rules up to and including this index have charged this key. */
  predicate ChargesKey(rules: seq<P.Rule>, req: Request, key: string, i: nat)
  {
    i < |rules| && Limits(rules[i], req.call.name) && KeyFor(rules[i], req) == key
  }

  predicate SameOn(rules: seq<P.Rule>, req: Request, a: Buckets, b: Buckets)
  {
    forall i :: 0 <= i < |rules| ==> R.Lookup(a, KeyFor(rules[i], req)) == R.Lookup(b, KeyFor(rules[i], req))
  }

  lemma {:induction false} StopReadsOwnKeys(rules: seq<P.Rule>, req: Request, a: Buckets, b: Buckets)
    requires SameOn(rules, req, a, b)
    ensures Stop(rules, req, a) == Stop(rules, req, b)
  {
  }

  lemma OthersUnchanged(rules: seq<P.Rule>, req: Request, b: Buckets, value: R.Bucket)
    requires rules != [] && UniqueNames(rules)
    ensures SameOn(rules[1..], req, b, b[KeyFor(rules[0], req) := value])
  {
    forall i | 0 <= i < |rules| - 1 ensures KeyFor(rules[1..][i], req) != KeyFor(rules[0], req) {
      SameCallKeys(rules[0], rules[i + 1], req.call.name, req.client);
    }
  }

  /** Who refuses: the first limiting rule whose own bucket had no token. */
  lemma {:induction false} ChargeRefuses(rules: seq<P.Rule>, req: Request, b: Buckets)
    requires UniqueNames(rules)
    ensures var i := Stop(rules, req, b);
      Charge(rules, req, b).refused == if i < |rules| then Some(rules[i]) else None
  {
    if rules != [] {
      var rest := rules[1..];
      if Limits(rules[0], req.call.name) {
        var next := b[KeyFor(rules[0], req) := ChargedBy(rules[0], req, b)];
        OthersUnchanged(rules, req, b, ChargedBy(rules[0], req, b));
        StopReadsOwnKeys(rest, req, b, next);
        ChargeRefuses(rest, req, next);
      } else {
        ChargeRefuses(rest, req, b);
      }
    }
  }

  /** What is charged: a key that no limiting rule has is left alone. */
  lemma {:induction false} ChargeLeaves(rules: seq<P.Rule>, req: Request, b: Buckets, key: string)
    requires forall i :: 0 <= i < |rules| ==> !ChargesKey(rules, req, key, i)
    ensures R.Lookup(Charge(rules, req, b).buckets, key) == R.Lookup(b, key)
  {
    if rules != [] {
      var rest := rules[1..];
      assert !ChargesKey(rules, req, key, 0);
      assert forall i :: 0 <= i < |rest| ==> ChargesKey(rest, req, key, i) == ChargesKey(rules, req, key, i + 1);
      if Limits(rules[0], req.call.name) {
        ChargeLeaves(rest, req, b[KeyFor(rules[0], req) := ChargedBy(rules[0], req, b)], key);
      } else {
        ChargeLeaves(rest, req, b, key);
      }
    }
  }

  lemma ChargesFirst(rules: seq<P.Rule>, req: Request, b: Buckets)
    requires UniqueNames(rules) && rules != [] && Limits(rules[0], req.call.name)
    ensures R.Lookup(Charge(rules, req, b).buckets, KeyFor(rules[0], req)) == Some(ChargedBy(rules[0], req, b))
  {
    NoOtherHasKey(rules, req);
    ChargeLeaves(rules[1..], req, b[KeyFor(rules[0], req) := ChargedBy(rules[0], req, b)], KeyFor(rules[0], req));
  }

  /** What the first limiting rule leaves to the rest: their own buckets as they
      were. */
  lemma ChargeGoesOn(rules: seq<P.Rule>, req: Request, b: Buckets, next: Buckets)
    requires UniqueNames(rules) && rules != [] && Limits(rules[0], req.call.name)
    requires next == b[KeyFor(rules[0], req) := ChargedBy(rules[0], req, b)]
    ensures SameOn(rules[1..], req, b, next)
    ensures if AdmitsBy(rules[0], req, b)
      then
        && Charge(rules, req, b) == Charge(rules[1..], req, next)
        && Stop(rules, req, b) == 1 + Stop(rules[1..], req, next)
      else Charge(rules, req, b).buckets == next && Stop(rules, req, b) == 0
  {
    OthersUnchanged(rules, req, b, ChargedBy(rules[0], req, b));
    StopReadsOwnKeys(rules[1..], req, b, next);
  }

  /** And the bucket of a limiting rule is charged once, if and only if no
      earlier rule refused. */
  lemma {:induction false} ChargeCharges(rules: seq<P.Rule>, req: Request, b: Buckets, i: nat)
    requires UniqueNames(rules) && i < |rules| && Limits(rules[i], req.call.name)
    ensures R.Lookup(Charge(rules, req, b).buckets, KeyFor(rules[i], req)) ==
      if i <= Stop(rules, req, b) then Some(ChargedBy(rules[i], req, b)) else R.Lookup(b, KeyFor(rules[i], req))
    decreases |rules|, 1
  {
    if i == 0 {
      ChargesFirst(rules, req, b);
    } else if Limits(rules[0], req.call.name) {
      ChargesLater(rules, req, b, i);
    } else {
      assert rules[1..][i - 1] == rules[i];
      ChargeCharges(rules[1..], req, b, i - 1);
    }
  }

  lemma {:induction false} ChargesLater(rules: seq<P.Rule>, req: Request, b: Buckets, i: nat)
    requires UniqueNames(rules) && 0 < i < |rules| && Limits(rules[0], req.call.name) && Limits(rules[i], req.call.name)
    ensures R.Lookup(Charge(rules, req, b).buckets, KeyFor(rules[i], req)) ==
      if i <= Stop(rules, req, b) then Some(ChargedBy(rules[i], req, b)) else R.Lookup(b, KeyFor(rules[i], req))
    decreases |rules|, 0
  {
    var rest, next := rules[1..], b[KeyFor(rules[0], req) := ChargedBy(rules[0], req, b)];
    assert rest[i - 1] == rules[i];
    ChargeGoesOn(rules, req, b, next);
    assert R.Lookup(next, KeyFor(rest[i - 1], req)) == R.Lookup(b, KeyFor(rest[i - 1], req));
    if AdmitsBy(rules[0], req, b) {
      ChargeCharges(rest, req, next, i - 1);
    }
  }

  lemma NoOtherHasKey(rules: seq<P.Rule>, req: Request)
    requires rules != [] && UniqueNames(rules)
    ensures forall i :: 0 <= i < |rules| - 1 ==> !ChargesKey(rules[1..], req, KeyFor(rules[0], req), i)
  {
    forall i | 0 <= i < |rules| - 1 ensures !ChargesKey(rules[1..], req, KeyFor(rules[0], req), i) {
      SameCallKeys(rules[0], rules[i + 1], req.call.name, req.client);
    }
  }

  // ---- Evaluate -----------------------------------------------------------

  /** Duration.Milliseconds truncates toward zero. */
  function Milliseconds(d: int): int
  {
    if d >= 0 then d / NANOS_PER_MS else -(-d / NANOS_PER_MS)
  }

  function Refusal(r: P.Rule): P.Decision
    requires r.limit.Some?
  {
    P.Decision("deny", r.name, "rate limit exceeded", true, Milliseconds(r.limit.value.window))
  }

  datatype Answer = Answer(decision: P.Decision, buckets: Buckets)

  function Step(env: P.Env, policy: Option<P.CompiledPolicy>, req: Request, b: Buckets): Answer
  {
    if policy.None? then Answer(P.Decision("deny", "", "no policy loaded", false, 0), b)
    else
      var d := P.Evaluate(env, policy.value, req.call);
      if d.action != "allow" then Answer(d, b)
      else
        var o := Charge(policy.value.allowRules, req, b);
        Answer(if o.refused.Some? && o.refused.value.limit.Some? then Refusal(o.refused.value) else d, o.buckets)
  }

  lemma {:induction false} RefuserIsLimited(rules: seq<P.Rule>, req: Request, b: Buckets)
    ensures Charge(rules, req, b).refused.Some? ==> Charge(rules, req, b).refused.value.limit.Some?
  {
    if rules != [] {
      RefuserIsLimited(rules[1..], req, b);
      if Limits(rules[0], req.call.name) {
        RefuserIsLimited(rules[1..], req, b[KeyFor(rules[0], req) := ChargedBy(rules[0], req, b)]);
      }
    }
  }

  class YAMLPolicyEngine {
    const env: P.Env
    const limiter: R.FixedWindowLimiter
    var policy: Option<P.CompiledPolicy>

    /** Without an initial policy the engine denies until the first Swap. */
    constructor (env: P.Env, initial: Option<P.CompiledPolicy>)
      ensures this.env == env && policy == initial && fresh(limiter) && limiter.buckets == map[]
    {
      this.env := env;
      limiter := new R.FixedWindowLimiter();
      policy := initial;
    }

    /** A nil policy is ignored; the limiter keeps its buckets. */
    method Swap(p: Option<P.CompiledPolicy>)
      modifies this
      ensures policy == if p.Some? then p else old(policy)
    {
      if p.None? {
        return;
      }
      policy := p;
    }

    predicate IsToolAllowed(name: string)
      reads this
    {
      policy.Some? && name in policy.value.surface
    }

    method Evaluate(req: Request) returns (d: P.Decision)
      modifies limiter
      ensures Answer(d, limiter.buckets) == Step(env, policy, req, old(limiter.buckets))
      ensures d.action == "allow" ==> IsToolAllowed(req.call.name)
      ensures d.action != "allow" && !d.rateLimited ==> limiter.buckets == old(limiter.buckets)
    {
      if policy.None? {
        return P.Decision("deny", "", "no policy loaded", false, 0);
      }
      var p := policy.value;
      d := P.Evaluate(env, p, req.call);
      if d.action != "allow" {
        return;
      }
      for i := 0 to |p.allowRules|
        invariant Charge(p.allowRules, req, old(limiter.buckets)) == Charge(p.allowRules[i..], req, limiter.buckets)
      {
        var rule := p.allowRules[i];
        assert p.allowRules[i..][1..] == p.allowRules[i + 1..];
        if req.call.name in rule.tools && rule.limit.Some? {
          var rl := rule.limit.value;
          var key := GlobalKey(rule.name, req.call.name);
          if rl.perClient {
            key := ClientKey(req.client, rule.name, req.call.name);
          }
          var ok := limiter.Allow(key, rl.max, rl.window, req.now);
          if !ok {
            return P.Decision("deny", rule.name, "rate limit exceeded", true, Milliseconds(rl.window));
          }
        }
      }
    }
  }

  /** An allow says what it took: the policy allows the call, and every limiting
      rule had a token, which is now spent. */
  lemma AllowedMeans(env: P.Env, p: P.CompiledPolicy, req: Request, b: Buckets)
    requires UniqueNames(p.allowRules)
    ensures Step(env, Some(p), req, b).decision.action == "allow" <==>
      && P.Evaluate(env, p, req.call).action == "allow"
      && forall i :: 0 <= i < |p.allowRules| && Limits(p.allowRules[i], req.call.name) ==>
        AdmitsBy(p.allowRules[i], req, b)
  {
    ChargeRefuses(p.allowRules, req, b);
    RefuserIsLimited(p.allowRules, req, b);
  }

  /** The milliseconds that a duration holds in full. */
  predicate HoldsMillis(d: int, ms: int)
  {
    d >= 0 ==> ms * 1000000 <= d < (ms + 1) * 1000000
  }

  /** What the engine decides: the policy's decision, unless the policy allows and some
      limiting rule has no token. Then the first such rule denies the call, in its own
      name, with the full milliseconds of its window to wait. */
  lemma DecisionMeans(env: P.Env, p: P.CompiledPolicy, req: Request, b: Buckets)
    requires UniqueNames(p.allowRules)
    ensures var d, i := Step(env, Some(p), req, b).decision, Stop(p.allowRules, req, b);
      if P.Evaluate(env, p, req.call).action != "allow" || i == |p.allowRules|
      then d == P.Evaluate(env, p, req.call)
      else
        && d.action == "deny" && d.rateLimited && d.rule == p.allowRules[i].name && d.reason == "rate limit exceeded"
        && HoldsMillis(p.allowRules[i].limit.value.window, d.retryAfterMs)
  {
    ChargeRefuses(p.allowRules, req, b);
    RefuserIsLimited(p.allowRules, req, b);
  }

  // ---- one bucket over a run ----------------------------------------------

  /** The buckets after these calls, under one policy, from none. */
  function BucketsAfter(env: P.Env, p: P.CompiledPolicy, reqs: seq<Request>): Buckets
  {
    if reqs == [] then map[]
    else
      var n := |reqs| - 1;
      Step(env, Some(p), reqs[n], BucketsAfter(env, p, reqs[..n])).buckets
  }

  /** A limited rule on one tool, and on one client if the limit is per client. */
  datatype Scope = Scope(rule: P.Rule, tool: string, client: string)

  predicate InScope(s: Scope, req: Request)
    requires s.rule.limit.Some?
  {
    req.call.name == s.tool && (s.rule.limit.value.perClient ==> req.client == s.client)
  }

  predicate Allowed(env: P.Env, p: P.CompiledPolicy, req: Request, b: Buckets)
  {
    Step(env, Some(p), req, b).decision.action == "allow"
  }

  /** The times of the calls in scope that were allowed. */
  function AllowedTimes(env: P.Env, p: P.CompiledPolicy, reqs: seq<Request>, s: Scope): seq<int>
    requires s.rule.limit.Some?
  {
    if reqs == [] then []
    else
      var n := |reqs| - 1;
      var hit := InScope(s, reqs[n]) && Allowed(env, p, reqs[n], BucketsAfter(env, p, reqs[..n]));
      if hit then AllowedTimes(env, p, reqs[..n], s) + [reqs[n].now] else AllowedTimes(env, p, reqs[..n], s)
  }

  /** The call asks this rule's bucket for a token. */
  predicate Asks(env: P.Env, p: P.CompiledPolicy, req: Request, b: Buckets, s: Scope)
    requires s.rule.limit.Some?
  {
    && InScope(s, req)
    && P.Evaluate(env, p, req.call).action == "allow"
    && exists i :: 0 <= i <= Stop(p.allowRules, req, b) && i < |p.allowRules| && p.allowRules[i] == s.rule
  }

  function AskedTimes(env: P.Env, p: P.CompiledPolicy, reqs: seq<Request>, s: Scope): seq<int>
    requires s.rule.limit.Some?
  {
    if reqs == [] then []
    else
      var n := |reqs| - 1;
      var hit := Asks(env, p, reqs[n], BucketsAfter(env, p, reqs[..n]), s);
      if hit then AskedTimes(env, p, reqs[..n], s) + [reqs[n].now] else AskedTimes(env, p, reqs[..n], s)
  }

  predicate ScopeOf(p: P.CompiledPolicy, s: Scope)
  {
    Limits(s.rule, s.tool) && s.rule in p.allowRules
  }

  /** Rule names are distinct, those of limited rules separable from the scope's, and
      the clients' ids from the scope's client. */
  predicate Apart(p: P.CompiledPolicy, s: Scope, reqs: seq<Request>)
  {
    && UniqueNames(p.allowRules)
    && (forall i :: 0 <= i < |p.allowRules| && p.allowRules[i].limit.Some? ==>
        Separable(p.allowRules[i].name, s.rule.name))
    && (forall i :: 0 <= i < |reqs| ==> Separable(reqs[i].client, s.client))
  }

  function ScopeKey(s: Scope): string
  {
    Key(s.rule, s.tool, s.client)
  }

  /** A call out of scope has no rule with this key. */
  lemma OutOfScope(p: P.CompiledPolicy, req: Request, s: Scope)
    requires Apart(p, s, [req]) && ScopeOf(p, s) && !InScope(s, req)
    ensures forall i :: 0 <= i < |p.allowRules| ==> !ChargesKey(p.allowRules, req, ScopeKey(s), i)
  {
    assert Separable([req][0].client, s.client);
    forall i | 0 <= i < |p.allowRules| ensures !ChargesKey(p.allowRules, req, ScopeKey(s), i) {
      if ChargesKey(p.allowRules, req, ScopeKey(s), i) {
        KeyInjective(p.allowRules[i], req.call.name, req.client, s.rule, s.tool, s.client);
      }
    }
  }

  /** One call charges the scope's bucket exactly when it asks for a token. */
  lemma StepOnScope(env: P.Env, p: P.CompiledPolicy, req: Request, b: Buckets, s: Scope)
    requires Apart(p, s, [req]) && ScopeOf(p, s)
    ensures R.Lookup(Step(env, Some(p), req, b).buckets, ScopeKey(s)) ==
      if Asks(env, p, req, b, s)
      then Some(R.Charged(R.Lookup(b, ScopeKey(s)), s.rule.limit.value.max, s.rule.limit.value.window, req.now))
      else R.Lookup(b, ScopeKey(s))
  {
    if P.Evaluate(env, p, req.call).action == "allow" {
      if InScope(s, req) {
        var i :| 0 <= i < |p.allowRules| && p.allowRules[i] == s.rule;
        ChargeCharges(p.allowRules, req, b, i);
        assert KeyFor(p.allowRules[i], req) == ScopeKey(s);
        assert Asks(env, p, req, b, s) <==> i <= Stop(p.allowRules, req, b);
      } else {
        OutOfScope(p, req, s);
        ChargeLeaves(p.allowRules, req, b, ScopeKey(s));
      }
    }
  }

  /** An allowed call in scope asked for a token and got one. */
  lemma AllowedAsks(env: P.Env, p: P.CompiledPolicy, req: Request, b: Buckets, s: Scope)
    requires UniqueNames(p.allowRules) && ScopeOf(p, s) && InScope(s, req) && Allowed(env, p, req, b)
    ensures Asks(env, p, req, b, s)
    ensures R.Admits(R.Lookup(b, ScopeKey(s)), s.rule.limit.value.max, s.rule.limit.value.window, req.now)
  {
    var i :| 0 <= i < |p.allowRules| && p.allowRules[i] == s.rule;
    ChargeRefuses(p.allowRules, req, b);
    RefuserIsLimited(p.allowRules, req, b);
    assert Limits(p.allowRules[i], req.call.name) && KeyFor(p.allowRules[i], req) == ScopeKey(s);
  }

  /** Over any run the scope's bucket is what its own history of asking makes of
      it: no other rule, tool or client has touched it. */
  lemma {:induction false} BucketIsOwnHistory(env: P.Env, p: P.CompiledPolicy, reqs: seq<Request>, s: Scope)
    requires Apart(p, s, reqs) && ScopeOf(p, s)
    ensures R.Lookup(BucketsAfter(env, p, reqs), ScopeKey(s)) ==
      R.After(s.rule.limit.value.max, s.rule.limit.value.window, AskedTimes(env, p, reqs, s))
    decreases |reqs|
  {
    if reqs != [] {
      var n := |reqs| - 1;
      var front, req := reqs[..n], reqs[n];
      BucketIsOwnHistory(env, p, front, s);
      StepOnScope(env, p, req, BucketsAfter(env, p, front), s);
      if Asks(env, p, req, BucketsAfter(env, p, front), s) {
        R.OneMoreCall(s.rule.limit.value.max, s.rule.limit.value.window, AskedTimes(env, p, front, s), req.now);
      }
    }
  }

  lemma CountStep(a: seq<int>, b: seq<int>, hitA: bool, hitB: bool, t: int, from: int, to: int)
    requires R.CountIn(a, from, to) <= R.CountIn(b, from, to) && (hitA ==> hitB)
    ensures R.CountIn(if hitA then a + [t] else a, from, to) <= R.CountIn(if hitB then b + [t] else b, from, to)
  {
  }

  function AdmittedTimes(env: P.Env, p: P.CompiledPolicy, reqs: seq<Request>, s: Scope): seq<int>
    requires s.rule.limit.Some?
  {
    R.Admitted(s.rule.limit.value.max, s.rule.limit.value.window, AskedTimes(env, p, reqs, s))
  }

  /** One more call adds an admission exactly when it asks and there is a token. */
  lemma AdmittedGrows(env: P.Env, p: P.CompiledPolicy, reqs: seq<Request>, s: Scope)
    requires reqs != [] && Apart(p, s, reqs) && ScopeOf(p, s)
    ensures var n := |reqs| - 1; var b := BucketsAfter(env, p, reqs[..n]);
      var hit := Asks(env, p, reqs[n], b, s) &&
        R.Admits(R.Lookup(b, ScopeKey(s)), s.rule.limit.value.max, s.rule.limit.value.window, reqs[n].now);
      AdmittedTimes(env, p, reqs, s) ==
        if hit then AdmittedTimes(env, p, reqs[..n], s) + [reqs[n].now] else AdmittedTimes(env, p, reqs[..n], s)
  {
    var front := reqs[..|reqs| - 1];
    BucketIsOwnHistory(env, p, front, s);
    var asked := AskedTimes(env, p, front, s);
    R.OneMoreCall(s.rule.limit.value.max, s.rule.limit.value.window, asked, reqs[|reqs| - 1].now);
    assert AdmittedTimes(env, p, front, s) + [] == AdmittedTimes(env, p, front, s);
  }

  /** Every allowed call in scope is one of that history's admissions. */
  lemma {:induction false} AllowedWithinAdmitted(
    env: P.Env, p: P.CompiledPolicy, reqs: seq<Request>, s: Scope, from: int, to: int)
    requires Apart(p, s, reqs) && ScopeOf(p, s)
    ensures R.CountIn(AllowedTimes(env, p, reqs, s), from, to) <= R.CountIn(AdmittedTimes(env, p, reqs, s), from, to)
    decreases |reqs|
  {
    if reqs != [] {
      var n := |reqs| - 1;
      var front, req := reqs[..n], reqs[n];
      var b, max, window := BucketsAfter(env, p, front), s.rule.limit.value.max, s.rule.limit.value.window;
      AllowedWithinAdmitted(env, p, front, s, from, to);
      AdmittedGrows(env, p, reqs, s);
      var allowed := InScope(s, req) && Allowed(env, p, req, b);
      if allowed {
        AllowedAsks(env, p, req, b, s);
      }
      CountStep(AllowedTimes(env, p, front, s), AdmittedTimes(env, p, front, s), allowed,
        Asks(env, p, req, b, s) && R.Admits(R.Lookup(b, ScopeKey(s)), max, window, req.now), req.now, from, to);
    }
  }

  predicate InTimeOrder(reqs: seq<Request>)
  {
    forall i, j :: 0 <= i < j < |reqs| ==> reqs[i].now <= reqs[j].now
  }

  lemma {:induction false} AskedInOrder(env: P.Env, p: P.CompiledPolicy, reqs: seq<Request>, s: Scope)
    requires s.rule.limit.Some? && InTimeOrder(reqs)
    ensures R.Nondecreasing(AskedTimes(env, p, reqs, s))
    ensures var ts := AskedTimes(env, p, reqs, s); ts != [] ==> reqs != [] && ts[|ts| - 1] <= reqs[|reqs| - 1].now
    decreases |reqs|
  {
    if reqs != [] {
      var n := |reqs| - 1;
      AskedInOrder(env, p, reqs[..n], s);
    }
  }

  /** The engine's rate bound. Under one policy, for every limited allow rule and
      every tool it covers, any interval of its window's length sees at most
      2 * max - 1 allowed calls to that tool, counted per client where the limit
      is per client, whatever else is called. */
  lemma EngineBound(env: P.Env, p: P.CompiledPolicy, reqs: seq<Request>, s: Scope, from: int)
    requires Apart(p, s, reqs) && ScopeOf(p, s) && InTimeOrder(reqs)
    requires PositiveLimit(s.rule.limit.value)
    ensures R.CountIn(AllowedTimes(env, p, reqs, s), from, from + s.rule.limit.value.window)
      <= 2 * s.rule.limit.value.max - 1
  {
    AllowedWithinAdmitted(env, p, reqs, s, from, from + s.rule.limit.value.window);
    AdmittedBound(env, p, reqs, s, from);
  }

  lemma AdmittedBound(env: P.Env, p: P.CompiledPolicy, reqs: seq<Request>, s: Scope, from: int)
    requires s.rule.limit.Some? && PositiveLimit(s.rule.limit.value) && InTimeOrder(reqs)
    ensures R.CountIn(AdmittedTimes(env, p, reqs, s), from, from + s.rule.limit.value.window)
      <= 2 * s.rule.limit.value.max - 1
  {
    var asked := AskedTimes(env, p, reqs, s);
    AskedInOrder(env, p, reqs, s);
    R.IntervalBound(s.rule.limit.value.max, s.rule.limit.value.window, asked, from);
  }

  // ---- what compile guarantees the engine ---------------------------------

  /** A compiled rule, and where it came from. */
  predicate FromRule(env: P.Env, pf: P.PolicyFile, r: P.Rule, k: nat)
  {
    k < |pf.rules| && r == P.RuleOf(env, pf, pf.rules[k])
  }

  predicate FromFirst(env: P.Env, pf: P.PolicyFile, r: P.Rule, n: nat)
  {
    exists k: nat :: k < n && FromRule(env, pf, r, k)
  }

  predicate AllFromFirst(env: P.Env, pf: P.PolicyFile, rules: seq<P.Rule>, n: nat)
  {
    forall i :: 0 <= i < |rules| ==> FromFirst(env, pf, rules[i], n)
  }

  lemma {:induction false} CompiledRulesUnique(env: P.Env, pf: P.PolicyFile, action: string, n: nat)
    requires P.Compilable(env, pf) && n <= |pf.rules|
    ensures AllFromFirst(env, pf, P.RulesWith(env, pf, action, n), n)
    ensures UniqueNames(P.RulesWith(env, pf, action, n))
  {
    if n > 0 {
      CompiledRulesUnique(env, pf, action, n - 1);
      var r := pf.rules[n - 1];
      var front, rules := P.RulesWith(env, pf, action, n - 1), P.RulesWith(env, pf, action, n);
      assert P.RuleProblem(env, pf, n - 1).None?;
      forall i | 0 <= i < |front| ensures front[i].name != r.name && FromFirst(env, pf, front[i], n) {
        assert FromFirst(env, pf, front[i], n - 1);
        var k: nat :| k < n - 1 && FromRule(env, pf, front[i], k);
        assert pf.rules[k].name != r.name;
      }
      assert FromRule(env, pf, P.RuleOf(env, pf, r), n - 1);
      assert FromFirst(env, pf, P.RuleOf(env, pf, r), n);
    }
  }

  predicate PositiveLimit(l: P.Limit)
  {
    l.max > 0 && l.window > 0
  }

  /** Every file that compiles gives allow rules with distinct names and, where
      limited, a positive max and window: what the engine's bound needs. */
  lemma CompiledSuitsEngine(env: P.Env, pf: P.PolicyFile)
    requires P.Compilable(env, pf)
    ensures UniqueNames(P.CompiledOf(env, pf).allowRules)
    ensures forall r :: r in P.CompiledOf(env, pf).allowRules && r.limit.Some? ==> PositiveLimit(r.limit.value)
  {
    var rules := P.CompiledOf(env, pf).allowRules;
    CompiledRulesUnique(env, pf, "allow", |pf.rules|);
    forall r | r in rules && r.limit.Some? ensures PositiveLimit(r.limit.value) {
      var i :| 0 <= i < |rules| && rules[i] == r;
      assert FromFirst(env, pf, rules[i], |pf.rules|);
      var k: nat :| k < |pf.rules| && FromRule(env, pf, rules[i], k);
      assert P.RuleProblem(env, pf, k).None?;
    }
  }

  // ---- the advertised retry delay -----------------------------------------

  /** A refused caller that waits exactly the advertised time, with no other call
      in between, is admitted if and only if the part of the window that already
      passed covers what was lost in rounding to milliseconds. */
  lemma RetryAfterSuffices(b: R.Bucket, max: int, window: int, now: int)
    requires max > 0 && window > 0 && b.windowStart <= now
    requires !R.Admits(Some(b), max, window, now)
    ensures R.Admits(Some(R.Charged(Some(b), max, window, now)), max, window, now + Milliseconds(window) * NANOS_PER_MS)
      <==> now - b.windowStart >= window % NANOS_PER_MS
    ensures Milliseconds(window) > 0 <==> window >= NANOS_PER_MS
  {
  }
}
