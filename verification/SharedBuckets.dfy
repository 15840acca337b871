/** Why the engine's rate bound asks for separable names, or for windows that are no
    shorter: a rule file that compiles, and a run of calls under it, in which two
    rules share a bucket and the bound fails. */
module SharedBuckets {
  import opened Engine
  import opened Options
  import P = Policy
  import R = RateLimit

  /** Rule "a" on tool "b:c" and rule "a:b" on tool "c", both with the bucket
      "global:a:b:c", the first for 100 ns and the second for 1 ns. */
  const LONG := P.RawRule("a", "allow", ["b:c"], "", map[], "", Some(P.RawLimit(2, "100ns", "")))
  const SHORT := P.RawRule("a:b", "allow", ["c"], "", map[], "", Some(P.RawLimit(1, "1ns", "")))
  const FILE := P.PolicyFile("1", map[], [LONG, SHORT])
  const KEY := "global:a:b:c"

  const LONG_RULE := P.Rule("a", {"b:c"}, map[], "", Some(P.Limit(2, 100, false)))
  const SHORT_RULE := P.Rule("a:b", {"c"}, map[], "", Some(P.Limit(1, 1, false)))
  const POLICY := P.CompiledPolicy({"b:c", "c"}, [LONG_RULE, SHORT_RULE], [])

  const SCOPE := Scope(LONG_RULE, "b:c", "")

  predicate ReadsDurations(env: P.Env)
  {
    env.duration("100ns") == Some(100) && env.duration("1ns") == Some(1)
  }

  lemma FileCompiles(env: P.Env)
    requires ReadsDurations(env)
    ensures P.Compilable(env, FILE)
  {
    assert P.RuleProblem(env, FILE, 0).None?;
    assert P.RuleProblem(env, FILE, 1).None?;
  }

  lemma RulesCompiled(env: P.Env)
    requires ReadsDurations(env)
    ensures P.RuleOf(env, FILE, LONG) == LONG_RULE && P.RuleOf(env, FILE, SHORT) == SHORT_RULE
  {
    assert P.ToolsOf(FILE, LONG) == {"b:c"} by {
      assert LONG.tools[0] == "b:c";
    }
    assert P.ToolsOf(FILE, SHORT) == {"c"} by {
      assert SHORT.tools[0] == "c";
    }
  }

  lemma PolicyCompiled(env: P.Env)
    requires ReadsDurations(env)
    ensures P.CompiledOf(env, FILE) == POLICY
  {
    RulesCompiled(env);
    var rules := FILE.rules;
    assert rules[0] == LONG && rules[1] == SHORT;
    assert P.RulesWith(env, FILE, "allow", 0) == [] && P.RulesWith(env, FILE, "deny", 0) == [];
    assert P.RulesWith(env, FILE, "allow", 1) == [LONG_RULE] && P.RulesWith(env, FILE, "deny", 1) == [];
    assert P.RulesWith(env, FILE, "allow", 2) == [LONG_RULE, SHORT_RULE] && P.RulesWith(env, FILE, "deny", 2) == [];
    var allows := [LONG_RULE, SHORT_RULE];
    forall t ensures t in P.SurfaceOf(allows) <==> t in {"b:c", "c"} {
      assert allows[0].tools == {"b:c"} && allows[1].tools == {"c"};
    }
  }

  lemma SameKey(client: string)
    ensures Key(LONG_RULE, "b:c", client) == KEY && Key(SHORT_RULE, "c", client) == KEY
  {
  }

  // ---- one call -----------------------------------------------------------

  function CallAt(tool: string, now: int): Request
  {
    Request(P.Call(tool, map[]), "", now)
  }

  lemma Passes(env: P.Env, tool: string, now: int)
    requires tool in POLICY.surface
    ensures P.Evaluate(env, POLICY, CallAt(tool, now).call).action == "allow"
  {
    var call := CallAt(tool, now).call;
    assert !P.Hits(env, LONG_RULE, call, false) && !P.Hits(env, SHORT_RULE, call, false);
    assert [LONG_RULE, SHORT_RULE][1..] == [SHORT_RULE] && [SHORT_RULE][1..] == [];
    assert P.FirstHit(env, [SHORT_RULE], call, false) == None;
    assert P.FirstHit(env, [LONG_RULE, SHORT_RULE], call, false) == None;
  }

  lemma OneCharge(first: P.Rule, second: P.Rule, req: Request, b: Buckets)
    requires Limits(first, req.call.name) && !Limits(second, req.call.name) && AdmitsBy(first, req, b)
    ensures Charge([first, second], req, b) == Outcome(None, b[KeyFor(first, req) := ChargedBy(first, req, b)])
    ensures Charge([second, first], req, b) == Outcome(None, b[KeyFor(first, req) := ChargedBy(first, req, b)])
  {
    var c := b[KeyFor(first, req) := ChargedBy(first, req, b)];
    assert [first, second][1..] == [second] && [second, first][1..] == [first];
    assert [first][1..] == [] && [second][1..] == [];
    assert Charge([second], req, c) == Outcome(None, c);
    assert Charge([first], req, b) == Outcome(None, c);
  }

  lemma LongCall(env: P.Env, b: Buckets, now: int)
    requires R.Admits(R.Lookup(b, KEY), 2, 100, now)
    ensures Allowed(env, POLICY, CallAt("b:c", now), b)
    ensures Step(env, Some(POLICY), CallAt("b:c", now), b).buckets == b[KEY := R.Charged(R.Lookup(b, KEY), 2, 100, now)]
  {
    SameKey("");
    Passes(env, "b:c", now);
    OneCharge(LONG_RULE, SHORT_RULE, CallAt("b:c", now), b);
  }

  lemma ShortCall(env: P.Env, b: Buckets, now: int)
    requires R.Admits(R.Lookup(b, KEY), 1, 1, now)
    ensures Allowed(env, POLICY, CallAt("c", now), b)
    ensures Step(env, Some(POLICY), CallAt("c", now), b).buckets == b[KEY := R.Charged(R.Lookup(b, KEY), 1, 1, now)]
  {
    SameKey("");
    Passes(env, "c", now);
    OneCharge(SHORT_RULE, LONG_RULE, CallAt("c", now), b);
  }

  // ---- the run ------------------------------------------------------------

  /** These requests leave this bucket, and these calls in scope were allowed. */
  predicate Led(env: P.Env, reqs: seq<Request>, bucket: Option<R.Bucket>, times: seq<int>)
  {
    R.Lookup(BucketsAfter(env, POLICY, reqs), KEY) == bucket && AllowedTimes(env, POLICY, reqs, SCOPE) == times
  }

  lemma ThenLong(env: P.Env, reqs: seq<Request>, bucket: Option<R.Bucket>, times: seq<int>, now: int)
    requires Led(env, reqs, bucket, times) && R.Admits(bucket, 2, 100, now)
    ensures Led(env, reqs + [CallAt("b:c", now)], Some(R.Charged(bucket, 2, 100, now)), times + [now])
  {
    assert (reqs + [CallAt("b:c", now)])[..|reqs|] == reqs;
    LongCall(env, BucketsAfter(env, POLICY, reqs), now);
  }

  lemma ThenShort(env: P.Env, reqs: seq<Request>, bucket: Option<R.Bucket>, times: seq<int>, now: int)
    requires Led(env, reqs, bucket, times) && R.Admits(bucket, 1, 1, now)
    ensures Led(env, reqs + [CallAt("c", now)], Some(R.Charged(bucket, 1, 1, now)), times)
  {
    assert (reqs + [CallAt("c", now)])[..|reqs|] == reqs;
    ShortCall(env, BucketsAfter(env, POLICY, reqs), now);
  }

  function Calls(): seq<Request>
  {
    [CallAt("b:c", 0), CallAt("b:c", 0), CallAt("c", 1), CallAt("b:c", 1), CallAt("c", 2), CallAt("b:c", 2)]
  }

  /** Two calls use up the limit; a call out of the scope opens a new window in the
      same bucket, and a third call passes. */
  lemma LedThree(env: P.Env)
    ensures Led(env, [CallAt("b:c", 0), CallAt("b:c", 0), CallAt("c", 1)], Some(R.Bucket(1, 1)), [0, 0])
  {
    var x, y := CallAt("b:c", 0), CallAt("c", 1);
    ThenLong(env, [], None, [], 0);
    ThenLong(env, [] + [x], Some(R.Bucket(0, 1)), [] + [0], 0);
    ThenShort(env, [] + [x] + [x], Some(R.Bucket(0, 2)), [] + [0] + [0], 1);
    assert [] + [x] + [x] + [y] == [x, x, y] && [] + [0] + [0] == [0, 0];
  }

  lemma LedTwoMore(env: P.Env, reqs: seq<Request>, times: seq<int>, now: int)
    requires Led(env, reqs, Some(R.Bucket(now, 1)), times)
    ensures Led(env, reqs + [CallAt("b:c", now)] + [CallAt("c", now + 1)], Some(R.Bucket(now + 1, 1)), times + [now])
  {
    ThenLong(env, reqs, Some(R.Bucket(now, 1)), times, now);
    ThenShort(env, reqs + [CallAt("b:c", now)], Some(R.Bucket(now, 2)), times + [now], now + 1);
  }

  lemma LedThrough(env: P.Env)
    ensures Led(env, Calls(), Some(R.Bucket(2, 2)), [0, 0, 1, 2])
  {
    var three := [CallAt("b:c", 0), CallAt("b:c", 0), CallAt("c", 1)];
    var five := three + [CallAt("b:c", 1)] + [CallAt("c", 2)];
    LedThree(env);
    LedTwoMore(env, three, [0, 0], 1);
    ThenLong(env, five, Some(R.Bucket(2, 1)), [0, 0] + [1], 2);
    assert five + [CallAt("b:c", 2)] == Calls() && [0, 0] + [1] + [2] == [0, 0, 1, 2];
  }

  lemma CountFour()
    ensures R.CountIn([0, 0, 1, 2], 0, 100) == 4
  {
    R.CountOneMore([], 0, 0, 100);
    R.CountOneMore([0], 0, 0, 100);
    R.CountOneMore([0, 0], 1, 0, 100);
    R.CountOneMore([0, 0, 1], 2, 0, 100);
    assert [] + [0] == [0] && [0] + [0] == [0, 0] && [0, 0] + [1] == [0, 0, 1] && [0, 0, 1] + [2] == [0, 0, 1, 2];
  }

  lemma ScopeMeetsConditions()
    ensures UniqueNames(POLICY.allowRules) && ScopeOf(POLICY, SCOPE) && PositiveLimit(SCOPE.rule.limit.value)
  {
    assert POLICY.allowRules[0] == LONG_RULE && "a" != "a:b";
  }

  /** The bound of EngineBound, in a run that meets all of its conditions but the
      one on names, under a policy that compiles: four calls are allowed where the
      limit of 2 promises three at most. */
  lemma SharedBucketBreaksBound(env: P.Env)
    requires ReadsDurations(env)
    ensures P.Compilable(env, FILE) && P.CompiledOf(env, FILE) == POLICY
    ensures UniqueNames(POLICY.allowRules) && ScopeOf(POLICY, SCOPE) && PositiveLimit(SCOPE.rule.limit.value)
    ensures InTimeOrder(Calls()) && forall i :: 0 <= i < |Calls()| ==> Calls()[i].client == SCOPE.client
    ensures R.CountIn(AllowedTimes(env, POLICY, Calls(), SCOPE), 0, 0 + SCOPE.rule.limit.value.window)
      > 2 * SCOPE.rule.limit.value.max - 1
  {
    FileCompiles(env);
    PolicyCompiled(env);
    LedThrough(env);
    CountFour();
    ScopeMeetsConditions();
  }
}
