/** The policy compiler and evaluator of internal/policy/loader.go. Regular
    expressions, argument validation and duration parsing are the parameters in
    `Env`. */
module Policy {
  import opened Options

  // ---- the rule file ------------------------------------------------------

  datatype ArgValidator = ArgValidator(matches: string, notMatches: string, oneOf: seq<string>, maxLen: int)

  datatype RawLimit = RawLimit(max: int, window: string, per: string)

  datatype RawRule = RawRule(
    name: string, action: string, tools: seq<string>, toolset: string,
    args: map<string, ArgValidator>, reason: string, limit: Option<RawLimit>)

  datatype PolicyFile = PolicyFile(version: string, toolsets: map<string, seq<string>>, rules: seq<RawRule>)

  /** An argument value as decoded from JSON. */
  datatype Value = Text(s: string) | NotText(json: string)

  datatype Call = Call(name: string, arguments: map<string, Value>)

  datatype Env = Env(
    compiles: ArgValidator -> bool,
    accepts: (ArgValidator, Value) -> bool,
    duration: string -> Option<int>)

  // ---- the compiled policy ------------------------------------------------

  datatype Limit = Limit(max: int, window: int, perClient: bool)

  datatype Rule = Rule(
    name: string, tools: set<string>, args: map<string, ArgValidator>, reason: string, limit: Option<Limit>)

  datatype CompiledPolicy = CompiledPolicy(surface: set<string>, allowRules: seq<Rule>, denyRules: seq<Rule>)

  datatype Problem =
    | BadVersion | NameRequired | BadAction | NoTools | DuplicateName | UnknownToolset | BadArg
    | LimitOnDeny | LimitMax | LimitWindow | LimitPer

  /** The compiled policy, or the problem and the index of the rule that has it. */
  datatype CompileResult = Compiled(policy: CompiledPolicy) | Rejected(problem: Problem, rule: nat)

  // ---- what compile accepts and produces ----------------------------------

  function LimitProblem(env: Env, r: RawRule): Option<Problem>
    requires r.limit.Some?
  {
    var l := r.limit.value;
    if r.action != "allow" then Some(LimitOnDeny)
    else if l.max <= 0 then Some(LimitMax)
    else if env.duration(l.window).None? || env.duration(l.window).value <= 0 then Some(LimitWindow)
    else if l.per != "" && l.per != "global" && l.per != "client" then Some(LimitPer)
    else None
  }

  /** The problem that compile reports for rule i, if it gets that far. */
  function RuleProblem(env: Env, pf: PolicyFile, i: nat): Option<Problem>
    requires i < |pf.rules|
  {
    var r := pf.rules[i];
    if r.name == "" then Some(NameRequired)
    else if r.action != "allow" && r.action != "deny" then Some(BadAction)
    else if r.tools == [] && r.toolset == "" then Some(NoTools)
    else if exists k :: 0 <= k < i && pf.rules[k].name == r.name then Some(DuplicateName)
    else if r.toolset != "" && r.toolset !in pf.toolsets then Some(UnknownToolset)
    else if exists a :: a in r.args && !env.compiles(r.args[a]) then Some(BadArg)
    else if r.limit.Some? then LimitProblem(env, r)
    else None
  }

  predicate Compilable(env: Env, pf: PolicyFile)
  {
    pf.version == "1" && forall i :: 0 <= i < |pf.rules| ==> RuleProblem(env, pf, i).None?
  }

  /** The tools a raw rule names, with its toolset resolved. */
  function ToolsOf(pf: PolicyFile, r: RawRule): set<string>
  {
    (set i | 0 <= i < |r.tools| :: r.tools[i]) +
    (if r.toolset != "" && r.toolset in pf.toolsets
     then set i | 0 <= i < |pf.toolsets[r.toolset]| :: pf.toolsets[r.toolset][i]
     else {})
  }

  function RuleLimit(env: Env, r: RawRule): Option<Limit>
  {
    if r.limit.None? || env.duration(r.limit.value.window).None? then None
    else Some(Limit(r.limit.value.max, env.duration(r.limit.value.window).value, r.limit.value.per == "client"))
  }

  function RuleOf(env: Env, pf: PolicyFile, r: RawRule): Rule
  {
    Rule(r.name, ToolsOf(pf, r), r.args, r.reason, RuleLimit(env, r))
  }

  /** The compiled rules with this action, in file order. */
  function RulesWith(env: Env, pf: PolicyFile, action: string, n: nat): seq<Rule>
    requires n <= |pf.rules|
  {
    if n == 0 then []
    else if pf.rules[n - 1].action == action then
      RulesWith(env, pf, action, n - 1) + [RuleOf(env, pf, pf.rules[n - 1])]
    else RulesWith(env, pf, action, n - 1)
  }

  function SurfaceOf(rules: seq<Rule>): set<string>
  {
    set i, t | 0 <= i < |rules| && t in rules[i].tools :: t
  }

  /** What compile yields for a file it accepts. */
  function CompiledOf(env: Env, pf: PolicyFile): CompiledPolicy
  {
    var allows := RulesWith(env, pf, "allow", |pf.rules|);
    CompiledPolicy(SurfaceOf(allows), allows, RulesWith(env, pf, "deny", |pf.rules|))
  }

  /** A limit that is accepted. */
  predicate SoundLimit(env: Env, l: RawLimit)
  {
    && l.max > 0 && env.duration(l.window).Some? && env.duration(l.window).value > 0
    && l.per in ["", "global", "client"]
  }

  /** A rule that is accepted after the rules before it. */
  predicate SoundRule(env: Env, pf: PolicyFile, i: nat)
    requires i < |pf.rules|
  {
    var r := pf.rules[i];
    && r.name != "" && r.action in ["allow", "deny"] && (r.tools != [] || r.toolset != "")
    && (forall k :: 0 <= k < i ==> pf.rules[k].name != r.name)
    && (r.toolset != "" ==> r.toolset in pf.toolsets)
    && (forall a :: a in r.args ==> env.compiles(r.args[a]))
    && (r.limit.Some? ==> r.action == "allow" && SoundLimit(env, r.limit.value))
  }

  /** Which files compile. */
  lemma CompilesExactly(env: Env, pf: PolicyFile)
    ensures Compilable(env, pf) <==> pf.version == "1" && forall i :: 0 <= i < |pf.rules| ==> SoundRule(env, pf, i)
  {
    forall i | 0 <= i < |pf.rules| ensures RuleProblem(env, pf, i).None? <==> SoundRule(env, pf, i) {
    }
  }

  // ---- compile ------------------------------------------------------------

  method ToolSet(pf: PolicyFile, r: RawRule) returns (tools: set<string>)
    requires r.toolset == "" || r.toolset in pf.toolsets
    ensures tools == ToolsOf(pf, r)
  {
    tools := {};
    for i := 0 to |r.tools|
      invariant tools == set k | 0 <= k < i :: r.tools[k]
    {
      tools := tools + {r.tools[i]};
    }
    if r.toolset != "" {
      var ts := pf.toolsets[r.toolset];
      ghost var own := tools;
      for i := 0 to |ts|
        invariant tools == own + set k | 0 <= k < i :: ts[k]
      {
        tools := tools + {ts[i]};
      }
    }
  }

  method ArgsCompile(env: Env, args: map<string, ArgValidator>) returns (ok: bool)
    ensures ok <==> forall a :: a in args ==> env.compiles(args[a])
  {
    var rest := args.Keys;
    while rest != {}
      invariant rest <= args.Keys
      invariant forall a :: a in args && a !in rest ==> env.compiles(args[a])
    {
      var a :| a in rest;
      if !env.compiles(args[a]) {
        return false;
      }
      rest := rest - {a};
    }
    return true;
  }

  /** The rate limit block of one rule. */
  method CompileLimit(env: Env, r: RawRule) returns (problem: Option<Problem>, limit: Option<Limit>)
    requires r.limit.Some?
    ensures problem == LimitProblem(env, r)
    ensures problem.None? ==> env.duration(r.limit.value.window).Some?
    ensures problem.None? ==> limit == RuleLimit(env, r)
  {
    var l := r.limit.value;
    if r.action != "allow" {
      return Some(LimitOnDeny), None;
    }
    if l.max <= 0 {
      return Some(LimitMax), None;
    }
    var d := env.duration(l.window);
    if d.None? || d.value <= 0 {
      return Some(LimitWindow), None;
    }
    var per := if l.per == "" then "global" else l.per;
    if per != "global" && per != "client" {
      return Some(LimitPer), None;
    }
    return None, Some(Limit(l.max, d.value, per == "client"));
  }

  /** compile: rejects the file at its first problem, or yields the rules by
      action in file order and the surface of the allow rules. */
  method Compile(env: Env, pf: PolicyFile) returns (c: CompileResult)
    ensures c.Compiled? <==> Compilable(env, pf)
    ensures c.Compiled? ==> c.policy == CompiledOf(env, pf)
    ensures c.Rejected? && c.problem.BadVersion? ==> pf.version != "1"
    ensures c.Rejected? && !c.problem.BadVersion? ==>
      && pf.version == "1" && c.rule < |pf.rules|
      && RuleProblem(env, pf, c.rule) == Some(c.problem)
      && forall i :: 0 <= i < c.rule ==> RuleProblem(env, pf, i).None?
  {
    if pf.version != "1" {
      return Rejected(BadVersion, 0);
    }
    var names: set<string> := {};
    var surface: set<string> := {};
    var allowRules: seq<Rule> := [];
    var denyRules: seq<Rule> := [];
    for i := 0 to |pf.rules|
      invariant forall k :: 0 <= k < i ==> RuleProblem(env, pf, k).None?
      invariant names == set k | 0 <= k < i :: pf.rules[k].name
      invariant allowRules == RulesWith(env, pf, "allow", i)
      invariant denyRules == RulesWith(env, pf, "deny", i)
      invariant surface == SurfaceOf(allowRules)
    {
      var r := pf.rules[i];
      if r.name == "" {
        assert RuleProblem(env, pf, i) == Some(NameRequired);
        return Rejected(NameRequired, i);
      }
      if r.action != "allow" && r.action != "deny" {
        assert RuleProblem(env, pf, i) == Some(BadAction);
        return Rejected(BadAction, i);
      }
      if r.tools == [] && r.toolset == "" {
        assert RuleProblem(env, pf, i) == Some(NoTools);
        return Rejected(NoTools, i);
      }
      if r.name in names {
        assert RuleProblem(env, pf, i) == Some(DuplicateName);
        return Rejected(DuplicateName, i);
      }
      names := names + {r.name};
      if r.toolset != "" && r.toolset !in pf.toolsets {
        assert RuleProblem(env, pf, i) == Some(UnknownToolset);
        return Rejected(UnknownToolset, i);
      }
      var tools := ToolSet(pf, r);
      var argsOk := ArgsCompile(env, r.args);
      if !argsOk {
        assert RuleProblem(env, pf, i) == Some(BadArg);
        return Rejected(BadArg, i);
      }
      var limit: Option<Limit> := None;
      if r.limit.Some? {
        var problem;
        problem, limit := CompileLimit(env, r);
        if problem.Some? {
          assert RuleProblem(env, pf, i) == problem;
          return Rejected(problem.value, i);
        }
      }
      var rule := Rule(r.name, tools, r.args, r.reason, limit);
      if r.action == "allow" {
        SurfaceGrows(allowRules, rule);
        allowRules := allowRules + [rule];
        surface := surface + tools;
      } else {
        denyRules := denyRules + [rule];
      }
    }
    return Compiled(CompiledPolicy(surface, allowRules, denyRules));
  }

  lemma SurfaceGrows(rules: seq<Rule>, r: Rule)
    ensures SurfaceOf(rules + [r]) == SurfaceOf(rules) + r.tools
  {
    var all := rules + [r];
    forall t | t in SurfaceOf(rules) + r.tools ensures t in SurfaceOf(all) {
      if t in r.tools {
        assert t in all[|rules|].tools;
      } else {
        var i :| 0 <= i < |rules| && t in rules[i].tools;
        assert t in all[i].tools;
      }
    }
  }

  // ---- evaluate -----------------------------------------------------------

  datatype Decision = Decision(action: string, rule: string, reason: string, rateLimited: bool, retryAfterMs: int)

  predicate AnyArgFails(env: Env, validators: map<string, ArgValidator>, args: map<string, Value>)
  {
    exists a :: a in validators && (a !in args || !env.accepts(validators[a], args[a]))
  }

  /** A rule covering the tool whose guard is hit: a deny rule without args or
      with a failing arg, an allow rule with a failing arg. */
  predicate Hits(env: Env, r: Rule, call: Call, bareHits: bool)
  {
    call.name in r.tools && ((bareHits && r.args == map[]) || AnyArgFails(env, r.args, call.arguments))
  }

  function FirstHit(env: Env, rules: seq<Rule>, call: Call, bareHits: bool): Option<Rule>
  {
    if rules == [] then None
    else if Hits(env, rules[0], call, bareHits) then Some(rules[0])
    else FirstHit(env, rules[1..], call, bareHits)
  }

  function Evaluate(env: Env, p: CompiledPolicy, call: Call): Decision
  {
    if call.name !in p.surface then Decision("deny", "", "tool not in allowed surface", false, 0)
    else
      match FirstHit(env, p.denyRules, call, true)
      case Some(r) =>
        Decision("deny", r.name, if r.reason == "" then "denied by rule " + r.name else r.reason, false, 0)
      case None =>
        match FirstHit(env, p.allowRules, call, false)
        case Some(r) => Decision("deny", r.name, "arg validation failed", false, 0)
        case None => Decision("allow", "", "", false, 0)
  }

  // ---- what a rule file means ---------------------------------------------

  predicate ArgsPass(env: Env, r: RawRule, call: Call)
  {
    forall a :: a in r.args ==> a in call.arguments && env.accepts(r.args[a], call.arguments[a])
  }

  predicate Covers(pf: PolicyFile, r: RawRule, tool: string)
  {
    tool in r.tools || (r.toolset != "" && r.toolset in pf.toolsets && tool in pf.toolsets[r.toolset])
  }

  /** What one rule demands of a call to a tool it covers. */
  predicate Tolerates(env: Env, r: RawRule, call: Call)
  {
    if r.action == "deny" then r.args != map[] && ArgsPass(env, r, call) else ArgsPass(env, r, call)
  }

  predicate CoveringAllow(pf: PolicyFile, r: RawRule, tool: string)
  {
    r.action == "allow" && Covers(pf, r, tool)
  }

  /** The direct reading of the rules: some allow rule covers the tool, and every
      covering rule, allow or deny, tolerates the call. */
  predicate Allows(env: Env, pf: PolicyFile, call: Call)
  {
    && (exists r :: r in pf.rules && CoveringAllow(pf, r, call.name))
    && (forall r :: r in pf.rules && Covers(pf, r, call.name) ==> Tolerates(env, r, call))
  }

  /** The first rule of the file with this action that covers the tool and does
      not tolerate the call, among the first n. */
  function FirstObjection(env: Env, pf: PolicyFile, action: string, call: Call, n: nat): Option<RawRule>
    requires n <= |pf.rules|
  {
    if n == 0 then None
    else
      var earlier := FirstObjection(env, pf, action, call, n - 1);
      var r := pf.rules[n - 1];
      if earlier.Some? then earlier
      else if r.action == action && Covers(pf, r, call.name) && !Tolerates(env, r, call) then Some(r)
      else None
  }

  /** The decision read directly off the rule file. */
  function DirectDecision(env: Env, pf: PolicyFile, call: Call): Decision
  {
    if !(exists r :: r in pf.rules && CoveringAllow(pf, r, call.name)) then
      Decision("deny", "", "tool not in allowed surface", false, 0)
    else
      match FirstObjection(env, pf, "deny", call, |pf.rules|)
      case Some(r) =>
        Decision("deny", r.name, if r.reason == "" then "denied by rule " + r.name else r.reason, false, 0)
      case None =>
        match FirstObjection(env, pf, "allow", call, |pf.rules|)
        case Some(r) => Decision("deny", r.name, "arg validation failed", false, 0)
        case None => Decision("allow", "", "", false, 0)
  }

  // ---- compile preserves that meaning -------------------------------------

  lemma ToolsAreCovered(pf: PolicyFile, r: RawRule, tool: string)
    ensures tool in ToolsOf(pf, r) <==> Covers(pf, r, tool)
  {
  }

  lemma HitIsObjection(env: Env, pf: PolicyFile, r: RawRule, call: Call)
    requires r.action == "allow" || r.action == "deny"
    ensures Hits(env, RuleOf(env, pf, r), call, r.action == "deny") <==>
      Covers(pf, r, call.name) && !Tolerates(env, r, call)
  {
  }

  lemma {:induction false} FirstHitSnoc(env: Env, rules: seq<Rule>, r: Rule, call: Call, bareHits: bool)
    ensures FirstHit(env, rules + [r], call, bareHits) ==
      if FirstHit(env, rules, call, bareHits).Some? then FirstHit(env, rules, call, bareHits)
      else if Hits(env, r, call, bareHits) then Some(r) else None
  {
    var all := rules + [r];
    if rules == [] {
      assert all[1..] == [];
    } else {
      assert all[1..] == rules[1..] + [r];
      FirstHitSnoc(env, rules[1..], r, call, bareHits);
    }
  }

  lemma {:induction false} FirstHitIsFirstObjection(env: Env, pf: PolicyFile, action: string, call: Call, n: nat)
    requires n <= |pf.rules| && (action == "allow" || action == "deny")
    ensures FirstHit(env, RulesWith(env, pf, action, n), call, action == "deny") ==
      match FirstObjection(env, pf, action, call, n)
      case None => None
      case Some(r) => Some(RuleOf(env, pf, r))
  {
    if n > 0 {
      var r := pf.rules[n - 1];
      FirstHitIsFirstObjection(env, pf, action, call, n - 1);
      if r.action == action {
        HitIsObjection(env, pf, r, call);
        FirstHitSnoc(env, RulesWith(env, pf, action, n - 1), RuleOf(env, pf, r), call, action == "deny");
      }
    }
  }

  lemma {:induction false} SurfaceIsCovered(env: Env, pf: PolicyFile, tool: string, n: nat)
    requires n <= |pf.rules|
    ensures tool in SurfaceOf(RulesWith(env, pf, "allow", n)) <==>
      exists i :: 0 <= i < n && CoveringAllow(pf, pf.rules[i], tool)
  {
    if n > 0 {
      var r := pf.rules[n - 1];
      SurfaceIsCovered(env, pf, tool, n - 1);
      ToolsAreCovered(pf, r, tool);
      if r.action == "allow" {
        SurfaceGrows(RulesWith(env, pf, "allow", n - 1), RuleOf(env, pf, r));
      }
      assert CoveringAllow(pf, pf.rules[n - 1], tool) <==> r.action == "allow" && tool in ToolsOf(pf, r);
    }
  }

  /** For every file and every call, the compiled policy decides exactly what
      the rules say when read directly: same action, same rule, same reason. The
      surface is the union of the tools of the allow rules. */
  lemma CompilePreservesMeaning(env: Env, pf: PolicyFile, call: Call)
    ensures Evaluate(env, CompiledOf(env, pf), call) == DirectDecision(env, pf, call)
    ensures call.name in CompiledOf(env, pf).surface <==>
      exists r :: r in pf.rules && CoveringAllow(pf, r, call.name)
  {
    SurfaceIsCovered(env, pf, call.name, |pf.rules|);
    FirstHitIsFirstObjection(env, pf, "deny", call, |pf.rules|);
    FirstHitIsFirstObjection(env, pf, "allow", call, |pf.rules|);
    if r :| r in pf.rules && CoveringAllow(pf, r, call.name) {
      var i :| 0 <= i < |pf.rules| && pf.rules[i] == r;
    }
  }

  predicate Objects(env: Env, pf: PolicyFile, r: RawRule, action: string, call: Call)
  {
    r.action == action && Covers(pf, r, call.name) && !Tolerates(env, r, call)
  }

  lemma {:induction false} NoObjection(env: Env, pf: PolicyFile, action: string, call: Call, n: nat)
    requires n <= |pf.rules|
    ensures FirstObjection(env, pf, action, call, n).None? <==>
      forall i :: 0 <= i < n ==> !Objects(env, pf, pf.rules[i], action, call)
  {
    if n > 0 {
      NoObjection(env, pf, action, call, n - 1);
      assert Objects(env, pf, pf.rules[n - 1], action, call) || !Objects(env, pf, pf.rules[n - 1], action, call);
    }
  }

  /** A file that compiles allows a call exactly when some allow rule covers the
      tool, every covering deny rule has args that all pass, and every covering
      allow rule's args all pass. */
  lemma AllowedExactly(env: Env, pf: PolicyFile, call: Call)
    requires Compilable(env, pf)
    ensures Evaluate(env, CompiledOf(env, pf), call).action == "allow" <==> Allows(env, pf, call)
  {
    CompilePreservesMeaning(env, pf, call);
    NoObjection(env, pf, "deny", call, |pf.rules|);
    NoObjection(env, pf, "allow", call, |pf.rules|);
    forall r | r in pf.rules && (forall i :: 0 <= i < |pf.rules| ==>
        !Objects(env, pf, pf.rules[i], "deny", call) && !Objects(env, pf, pf.rules[i], "allow", call))
      ensures Covers(pf, r, call.name) ==> Tolerates(env, r, call)
    {
      var i :| 0 <= i < |pf.rules| && pf.rules[i] == r;
      assert RuleProblem(env, pf, i).None?;
      assert !Objects(env, pf, pf.rules[i], "deny", call) && !Objects(env, pf, pf.rules[i], "allow", call);
    }
  }

  // ---- laws ---------------------------------------------------------------

  /** The action of the compiled policy. */
  function ActionOf(env: Env, pf: PolicyFile, call: Call): string
  {
    Evaluate(env, CompiledOf(env, pf), call).action
  }

  predicate SameRules(a: PolicyFile, b: PolicyFile)
  {
    a.toolsets == b.toolsets && multiset(a.rules) == multiset(b.rules)
  }

  /** Rule order does not matter: permuting the rules changes no action. */
  lemma OrderIrrelevant(env: Env, a: PolicyFile, b: PolicyFile, call: Call)
    requires Compilable(env, a) && Compilable(env, b) && SameRules(a, b)
    ensures ActionOf(env, a, call) == ActionOf(env, b, call)
  {
    AllowedExactly(env, a, call);
    AllowedExactly(env, b, call);
    assert forall r :: r in a.rules <==> r in multiset(a.rules);
    assert forall r :: r in b.rules <==> r in multiset(b.rules);
    assert forall r, t :: Covers(a, r, t) <==> Covers(b, r, t);
    assert Allows(env, a, call) <==> Allows(env, b, call) by {
      if Allows(env, a, call) {
        AllowsSubset(env, a, b, call);
      }
      if Allows(env, b, call) {
        AllowsSubset(env, b, a, call);
      }
    }
    ActionIsBinary(env, a, call);
    ActionIsBinary(env, b, call);
  }

  lemma AllowsSubset(env: Env, a: PolicyFile, b: PolicyFile, call: Call)
    requires a.toolsets == b.toolsets && (forall r :: r in a.rules <==> r in b.rules)
    requires Allows(env, a, call)
    ensures Allows(env, b, call)
  {
  }

  lemma ActionIsBinary(env: Env, pf: PolicyFile, call: Call)
    ensures ActionOf(env, pf, call) == "allow" || ActionOf(env, pf, call) == "deny"
  {
  }

  /** pf with one more rule, anywhere. */
  function WithRule(pf: PolicyFile, r: RawRule, at: nat): PolicyFile
    requires at <= |pf.rules|
  {
    pf.(rules := pf.rules[..at] + [r] + pf.rules[at..])
  }

  lemma WithRuleMembers(pf: PolicyFile, r: RawRule, at: nat)
    requires at <= |pf.rules|
    ensures forall q :: q in WithRule(pf, r, at).rules <==> q == r || q in pf.rules
  {
  }

  /** What one more rule does to a call, exactly: nothing to tools it does not
      cover; for a covered tool the call must now be tolerated by the new rule
      too, and an allow rule also puts the tool into the surface. */
  lemma OneMoreRule(env: Env, pf: PolicyFile, r: RawRule, at: nat, call: Call)
    requires at <= |pf.rules| && Compilable(env, pf) && Compilable(env, WithRule(pf, r, at))
    ensures !Covers(pf, r, call.name) ==> ActionOf(env, WithRule(pf, r, at), call) == ActionOf(env, pf, call)
    ensures Covers(pf, r, call.name) ==>
      (ActionOf(env, WithRule(pf, r, at), call) == "allow" <==>
        && Tolerates(env, r, call)
        && (r.action == "allow" || exists q :: q in pf.rules && CoveringAllow(pf, q, call.name))
        && forall q :: q in pf.rules && Covers(pf, q, call.name) ==> Tolerates(env, q, call))
  {
    var more := WithRule(pf, r, at);
    AllowedExactly(env, pf, call);
    AllowedExactly(env, more, call);
    WithRuleMembers(pf, r, at);
    ActionIsBinary(env, pf, call);
    ActionIsBinary(env, more, call);
    assert forall q, t :: Covers(more, q, t) <==> Covers(pf, q, t);
    assert forall q :: q in pf.rules && CoveringAllow(pf, q, call.name) ==>
      q in more.rules && CoveringAllow(more, q, call.name);
    assert forall q :: q in more.rules && CoveringAllow(more, q, call.name) ==>
      q == r || (q in pf.rules && CoveringAllow(pf, q, call.name));
    assert r in more.rules;
  }

  /** A deny rule never turns a deny into an allow; an allow rule can do so only
      for tools that no allow rule covered before. */
  lemma RulesNarrow(env: Env, pf: PolicyFile, r: RawRule, at: nat, call: Call)
    requires at <= |pf.rules| && Compilable(env, pf) && Compilable(env, WithRule(pf, r, at))
    requires r.action == "deny" || exists q :: q in pf.rules && CoveringAllow(pf, q, call.name)
    requires ActionOf(env, WithRule(pf, r, at), call) == "allow"
    ensures ActionOf(env, pf, call) == "allow"
  {
    OneMoreRule(env, pf, r, at, call);
    AllowedExactly(env, pf, call);
  }

  /** "First match wins" is not how rules are read: here the first rule that
      covers the tool allows the call, and a later one denies it. */
  lemma FirstMatchDoesNotWin(env: Env)
    ensures exists pf: PolicyFile, call: Call ::
      && Compilable(env, pf) && |pf.rules| == 2
      && CoveringAllow(pf, pf.rules[0], call.name) && Tolerates(env, pf.rules[0], call)
      && ActionOf(env, pf, call) == "deny"
  {
    var allow := RawRule("a", "allow", ["t"], "", map[], "", None);
    var deny := RawRule("b", "deny", ["t"], "", map[], "", None);
    var pf := PolicyFile("1", map[], [allow, deny]);
    var call := Call("t", map[]);
    assert RuleProblem(env, pf, 0).None? && RuleProblem(env, pf, 1).None?;
    assert Covers(pf, pf.rules[1], call.name) && pf.rules[1] in pf.rules && !Tolerates(env, pf.rules[1], call);
    AllowedExactly(env, pf, call);
    ActionIsBinary(env, pf, call);
    assert CoveringAllow(pf, pf.rules[0], call.name);
  }
}
