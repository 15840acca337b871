/** What the rate limit of a rule in the file means once it is compiled: whose calls
    share a bucket, and how many get through. */
module CompiledLimits {
  import opened Engine
  import opened Options
  import P = Policy
  import R = RateLimit

  // ---- the compiled rule of a raw rule ------------------------------------

  lemma {:induction false} RuleIsCompiled(env: P.Env, pf: P.PolicyFile, action: string, n: nat, k: nat) returns (i: nat)
    requires k < n <= |pf.rules| && pf.rules[k].action == action
    ensures i < |P.RulesWith(env, pf, action, n)|
    ensures P.RulesWith(env, pf, action, n)[i] == P.RuleOf(env, pf, pf.rules[k])
    decreases n
  {
    if k == n - 1 {
      i := |P.RulesWith(env, pf, action, n)| - 1;
    } else {
      i := RuleIsCompiled(env, pf, action, n - 1, k);
    }
  }

  predicate LimitedAllow(raw: P.RawRule)
  {
    raw.action == "allow" && raw.limit.Some?
  }

  /** The compiled limit says what the file says. */
  predicate SameLimit(env: P.Env, raw: P.RawLimit, l: P.Limit)
  {
    && l.max == raw.max && l.max > 0
    && env.duration(raw.window) == Some(l.window) && l.window > 0
    && (l.perClient <==> raw.per == "client")
  }

  /** The compiled rule says what the raw rule says. */
  ghost predicate SameRule(env: P.Env, pf: P.PolicyFile, raw: P.RawRule, r: P.Rule)
  {
    && r.name == raw.name && r.args == raw.args && r.reason == raw.reason
    && (forall t :: t in r.tools <==> P.Covers(pf, raw, t))
    && (r.limit.Some? <==> raw.limit.Some?)
    && (raw.limit.Some? ==> SameLimit(env, raw.limit.value, r.limit.value))
  }

  lemma RuleOfMeans(env: P.Env, pf: P.PolicyFile, k: nat)
    requires P.Compilable(env, pf) && k < |pf.rules|
    ensures SameRule(env, pf, pf.rules[k], P.RuleOf(env, pf, pf.rules[k]))
    ensures pf.rules[k].limit.Some? ==>
      pf.rules[k].action == "allow" && pf.rules[k].limit.value.per in ["", "global", "client"]
  {
    assert P.RuleProblem(env, pf, k).None?;
    forall t ensures t in P.RuleOf(env, pf, pf.rules[k]).tools <==> P.Covers(pf, pf.rules[k], t) {
      P.ToolsAreCovered(pf, pf.rules[k], t);
    }
  }

  /** Every allow rule of a file that compiles has its compiled rule, with its name,
      tools, arguments and limit, and there are no others. */
  lemma CompiledRulesMean(env: P.Env, pf: P.PolicyFile)
    requires P.Compilable(env, pf)
    ensures forall k :: 0 <= k < |pf.rules| && pf.rules[k].action == "allow" ==>
      exists r :: r in P.CompiledOf(env, pf).allowRules && SameRule(env, pf, pf.rules[k], r)
    ensures forall r :: r in P.CompiledOf(env, pf).allowRules ==>
      exists k :: 0 <= k < |pf.rules| && pf.rules[k].action == "allow" && SameRule(env, pf, pf.rules[k], r)
  {
    var rules := P.CompiledOf(env, pf).allowRules;
    forall k | 0 <= k < |pf.rules| && pf.rules[k].action == "allow"
      ensures exists r :: r in rules && SameRule(env, pf, pf.rules[k], r)
    {
      var i := RuleIsCompiled(env, pf, "allow", |pf.rules|, k);
      RuleOfMeans(env, pf, k);
      assert rules[i] in rules;
    }
    forall r | r in rules
      ensures exists k :: 0 <= k < |pf.rules| && pf.rules[k].action == "allow" && SameRule(env, pf, pf.rules[k], r)
    {
      var i :| 0 <= i < |rules| && rules[i] == r;
      var k := RuleCameFrom(env, pf, "allow", |pf.rules|, i);
      RuleOfMeans(env, pf, k);
    }
  }

  lemma {:induction false} RuleCameFrom(env: P.Env, pf: P.PolicyFile, action: string, n: nat, i: nat) returns (k: nat)
    requires n <= |pf.rules| && i < |P.RulesWith(env, pf, action, n)|
    ensures k < n && pf.rules[k].action == action
    ensures P.RulesWith(env, pf, action, n)[i] == P.RuleOf(env, pf, pf.rules[k])
    decreases n
  {
    if pf.rules[n - 1].action == action && i == |P.RulesWith(env, pf, action, n)| - 1 {
      k := n - 1;
    } else {
      k := RuleCameFrom(env, pf, action, n - 1, i);
    }
  }

  // ---- whose calls share a bucket -----------------------------------------

  lemma ClientsTell(c: string, d: string, tail: string)
    requires "client:" + c + tail == "client:" + d + tail
    ensures c == d
  {
    MiddlesEqual("client:", c, d, tail);
  }

  lemma ClientKeysTell(c: string, d: string, rule: string, tool: string)
    requires ClientKey(c, rule, tool) == ClientKey(d, rule, tool)
    ensures c == d
  {
    var tail := ":" + rule + ":" + tool;
    assert ClientKey(c, rule, tool) == "client:" + c + tail;
    assert ClientKey(d, rule, tool) == "client:" + d + tail;
    ClientsTell(c, d, tail);
  }

  /** Calls of one tool by different clients charge the same bucket of a rule if and
      only if the file does not say "per: client". */
  lemma SameBucketExactly(env: P.Env, pf: P.PolicyFile, raw: P.RawRule, r: P.Rule, a: Request, b: Request)
    requires raw.limit.Some? && SameRule(env, pf, raw, r)
    requires a.call.name == b.call.name && a.client != b.client
    ensures KeyFor(r, a) == KeyFor(r, b) <==> raw.limit.value.per != "client"
  {
    if r.limit.value.perClient && KeyFor(r, a) == KeyFor(r, b) {
      ClientKeysTell(a.client, b.client, r.name, a.call.name);
    }
  }

  // ---- how many calls get through -----------------------------------------

  /** The times of the allowed calls that this limit counts: of this tool, and by
      this client if the file says "per: client". */
  function CountedTimes(
    env: P.Env, pf: P.PolicyFile, reqs: seq<Request>, raw: P.RawLimit, tool: string, client: string): seq<int>
  {
    if reqs == [] then []
    else
      var n := |reqs| - 1;
      var p := P.CompiledOf(env, pf);
      var counted := reqs[n].call.name == tool && (raw.per == "client" ==> reqs[n].client == client);
      var before := CountedTimes(env, pf, reqs[..n], raw, tool, client);
      if counted && Allowed(env, p, reqs[n], BucketsAfter(env, p, reqs[..n])) then before + [reqs[n].now] else before
  }

  lemma {:induction false} CountedIsAllowed(
    env: P.Env, pf: P.PolicyFile, reqs: seq<Request>, raw: P.RawLimit, s: Scope)
    requires s.rule.limit.Some? && SameLimit(env, raw, s.rule.limit.value)
    ensures CountedTimes(env, pf, reqs, raw, s.tool, s.client) ==
      AllowedTimes(env, P.CompiledOf(env, pf), reqs, s)
    decreases |reqs|
  {
    if reqs != [] {
      CountedIsAllowed(env, pf, reqs[..|reqs| - 1], raw, s);
    }
  }

  /** No other limited rule, and no other client, can share this rule's buckets. */
  predicate NamesApart(pf: P.PolicyFile, raw: P.RawRule, client: string, reqs: seq<Request>)
  {
    && (forall k :: 0 <= k < |pf.rules| && LimitedAllow(pf.rules[k]) ==> Separable(pf.rules[k].name, raw.name))
    && (forall i :: 0 <= i < |reqs| ==> Separable(reqs[i].client, client))
  }

  lemma FileApart(env: P.Env, pf: P.PolicyFile, raw: P.RawRule, r: P.Rule, s: Scope, reqs: seq<Request>)
    requires P.Compilable(env, pf) && NamesApart(pf, raw, s.client, reqs) && s.rule == r && r.name == raw.name
    ensures Apart(P.CompiledOf(env, pf), s, reqs)
  {
    var rules := P.CompiledOf(env, pf).allowRules;
    CompiledSuitsEngine(env, pf);
    forall i | 0 <= i < |rules| && rules[i].limit.Some? ensures Separable(rules[i].name, r.name) {
      var k := RuleCameFrom(env, pf, "allow", |pf.rules|, i);
      RuleOfMeans(env, pf, k);
      assert LimitedAllow(pf.rules[k]);
    }
  }

  /** The limit of a rule in the file, kept by the engine: in any interval of its
      window's length at most 2 * max - 1 calls that it counts are allowed. */
  lemma FileLimitBound(
    env: P.Env, pf: P.PolicyFile, k: nat, tool: string, client: string, reqs: seq<Request>, window: int, from: int)
    requires P.Compilable(env, pf) && k < |pf.rules| && LimitedAllow(pf.rules[k]) && P.Covers(pf, pf.rules[k], tool)
    requires env.duration(pf.rules[k].limit.value.window) == Some(window)
    requires NamesApart(pf, pf.rules[k], client, reqs) && InTimeOrder(reqs)
    ensures R.CountIn(CountedTimes(env, pf, reqs, pf.rules[k].limit.value, tool, client), from, from + window)
      <= 2 * pf.rules[k].limit.value.max - 1
  {
    var raw, p := pf.rules[k], P.CompiledOf(env, pf);
    var i := RuleIsCompiled(env, pf, "allow", |pf.rules|, k);
    var s := Scope(p.allowRules[i], tool, client);
    RuleOfMeans(env, pf, k);
    assert p.allowRules[i] in p.allowRules;
    FileApart(env, pf, raw, p.allowRules[i], s, reqs);
    CountedIsAllowed(env, pf, reqs, raw.limit.value, s);
    EngineBound(env, p, reqs, s, from);
  }
}
