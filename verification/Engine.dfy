/** The older single-tenant engine (policy/policy.go): ordered rules, first match wins. */
module Engine {
  import opened Text
  import opened Policy
  import opened TenantDecide
  import opened Selection

  /** A rule of policy.yaml; `compiled` holds the domain patterns that compiled. */
  datatype EngineRule = EngineRule(
    id: string,
    domains: seq<string>,
    methods: seq<string>,
    compiled: seq<string>,
    action: Action,
    message: string)

  datatype Config = Config(defaultAction: string, rules: seq<EngineRule>)

  /** compilePatterns keeps the patterns that compile and only warns about the others. */
  function Compiled(rx: Regex, ps: seq<string>): seq<string> {
    if ps == [] then []
    else (if rx.compiles(ps[0]) then [ps[0]] else []) + Compiled(rx, ps[1..])
  }

  /** matchesDomainCondition and matchesMethodCondition. */
  predicate RuleMatches(rx: Regex, r: EngineRule, domain: string, m: string) {
    (r.domains == [] || AnyMatches(rx, r.compiled, domain)) && MethodMatches(r.methods, m)
  }

  function FirstMatch(rx: Regex, rules: seq<EngineRule>, domain: string, m: string): Option<EngineRule> {
    if rules == [] then None
    else if RuleMatches(rx, rules[0], domain, m) then Some(rules[0])
    else FirstMatch(rx, rules[1..], domain, m)
  }

  /** Engine.Decide. */
  function EngineDecide(rx: Regex, cfg: Config, domain: string, m: string): Outcome {
    match FirstMatch(rx, cfg.rules, Lower(domain), Upper(m))
    case Some(r) => Outcome(r.action, r.message)
    case None => Outcome(cfg.defaultAction, "")
  }

  method RuleMatchesLoop(rx: Regex, r: EngineRule, domain: string, m: string) returns (b: bool)
    ensures b == RuleMatches(rx, r, domain, m)
  {
    if |r.domains| > 0 {
      var matched := AnyMatchesLoop(rx, r.compiled, domain);
      if !matched { return false; }
    }
    if |r.methods| == 0 { return true; }
    for i := 0 to |r.methods|
      invariant forall k :: 0 <= k < i ==> !EqualFold(r.methods[k], m)
    {
      if EqualFold(r.methods[i], m) { return true; }
    }
    return false;
  }

  /** The loop of Decide: start from the default, overwrite at the first match and break. */
  method EngineDecideLoop(rx: Regex, cfg: Config, rawDomain: string, rawMethod: string) returns (o: Outcome)
    ensures o == EngineDecide(rx, cfg, rawDomain, rawMethod)
  {
    var action, message := cfg.defaultAction, "";
    var domain, m := Lower(rawDomain), Upper(rawMethod);
    var i := 0;
    while i < |cfg.rules|
      invariant 0 <= i <= |cfg.rules|
      invariant action == cfg.defaultAction && message == ""
      invariant FirstMatch(rx, cfg.rules, domain, m) == FirstMatch(rx, cfg.rules[i..], domain, m)
    {
      var matched := RuleMatchesLoop(rx, cfg.rules[i], domain, m);
      if matched {
        action, message := cfg.rules[i].action, cfg.rules[i].message;
        break;
      }
      i := i + 1;
    }
    o := Outcome(action, message);
  }

  function Taking(rx: Regex, domain: string, m: string): EngineRule -> bool {
    rule => RuleMatches(rx, rule, domain, m)
  }

  lemma {:induction false} FirstMatchIsFirst(rx: Regex, rules: seq<EngineRule>, domain: string, m: string)
    ensures var i := First(rules, Taking(rx, domain, m));
      FirstMatch(rx, rules, domain, m) == if i < |rules| then Some(rules[i]) else None
  {
    if rules != [] { FirstMatchIsFirst(rx, rules[1..], domain, m); }
  }

  lemma {:induction false} AllCompiled(rx: Regex, ps: seq<string>)
    requires forall i :: 0 <= i < |ps| ==> rx.compiles(ps[i])
    ensures Compiled(rx, ps) == ps
  {
    if ps != [] { AllCompiled(rx, ps[1..]); }
  }

  // ---------- what the engine answers ----------

  /** compilePatterns leaves exactly the patterns that compile. */
  lemma {:induction false} CompiledMembers(rx: Regex, ps: seq<string>, p: string)
    ensures p in Compiled(rx, ps) <==> p in ps && rx.compiles(p)
  {
    if ps != [] { CompiledMembers(rx, ps[1..], p); }
  }

  /** Some pattern that compiles matches, or there are no patterns; some method is the request's, or there are none. */
  ghost predicate TakesRequest(rx: Regex, r: EngineRule, domain: string, m: string) {
    && (r.domains == [] || exists p :: p in r.domains && rx.compiles(p) && rx.matches(p, domain))
    && (r.methods == [] || exists x :: x in r.methods && EqualFold(x, m))
  }

  ghost predicate FirstTaker(rx: Regex, rules: seq<EngineRule>, domain: string, m: string, k: nat) {
    && k < |rules| && TakesRequest(rx, rules[k], domain, m)
    && forall i :: 0 <= i < k ==> !TakesRequest(rx, rules[i], domain, m)
  }

  lemma MatchesIffTakes(rx: Regex, r: EngineRule, domain: string, m: string)
    requires r.compiled == Compiled(rx, r.domains)
    ensures RuleMatches(rx, r, domain, m) <==> TakesRequest(rx, r, domain, m)
  {
    forall p { CompiledMembers(rx, r.domains, p); }
    if AnyMatches(rx, r.compiled, domain) {
      var i :| 0 <= i < |r.compiled| && rx.matches(r.compiled[i], domain);
      assert r.compiled[i] in r.compiled;
    }
    if p :| p in r.domains && rx.compiles(p) && rx.matches(p, domain) {
      assert p in r.compiled;
      var i :| 0 <= i < |r.compiled| && r.compiled[i] == p;
      assert rx.matches(r.compiled[i], domain);
    }
    if x :| x in r.methods && EqualFold(x, m) {
      var i :| 0 <= i < |r.methods| && r.methods[i] == x;
      assert EqualFold(r.methods[i], m);
    }
  }

  /** The first rule that takes the request answers it, with its action and message; without one, the default does. */
  lemma EngineDecideMeans(rx: Regex, cfg: Config, domain: string, m: string)
    requires forall r :: r in cfg.rules ==> r.compiled == Compiled(rx, r.domains)
    ensures var o, d, u := EngineDecide(rx, cfg, domain, m), Lower(domain), Upper(m);
      && (forall k: nat :: FirstTaker(rx, cfg.rules, d, u, k) ==>
            o == Outcome(cfg.rules[k].action, cfg.rules[k].message))
      && ((forall r :: r in cfg.rules ==> !TakesRequest(rx, r, d, u)) ==> o == Outcome(cfg.defaultAction, ""))
  {
    var d, u := Lower(domain), Upper(m);
    FirstMatchIsFirst(rx, cfg.rules, d, u);
    forall i | 0 <= i < |cfg.rules|
      ensures RuleMatches(rx, cfg.rules[i], d, u) <==> TakesRequest(rx, cfg.rules[i], d, u)
    {
      MatchesIffTakes(rx, cfg.rules[i], d, u);
    }
  }
}
