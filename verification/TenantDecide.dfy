/** Evaluation of a tenant policy (policy/tenant_decide.go), and what it answers in terms of the rules alone. */
module TenantDecide {
  import opened Text
  import opened Policy
  import opened Ast
  import opened Json

  datatype Outcome = Outcome(action: Action, message: string)

  predicate AnyMatches(rx: Regex, ps: seq<string>, domain: string) {
    exists i :: 0 <= i < |ps| && rx.matches(ps[i], domain)
  }

  predicate MethodMatches(methods: seq<string>, m: string) {
    methods == [] || exists i :: 0 <= i < |methods| && EqualFold(methods[i], m)
  }

  /** matchesRule on an indexed rule: domains first, else the separate destinations. */
  predicate MatchesRule(rx: Regex, ir: IndexedRule, domain: string, m: string) {
    && (if ir.domains != [] then AnyMatches(rx, ir.domains, domain)
        else if ir.dests != [] then AnyMatches(rx, ir.dests, domain)
        else true)
    && MethodMatches(ir.record.conditions.methods, m)
  }

  /** mapTerminalAction (policy/load_db.go). */
  function MapTerminalAction(raw: string): Action {
    var u := Upper(Trim(raw));
    if u == "BLOCK" then BLOCK
    else if u == "COACH" then COACH
    else if u == "BYPASS" || u == "FWD" || u == "ALLOW" || u == "CONTINUE" then ALLOW
    else Lower(raw)
  }

  /** The raw MCP field decodes to true or to a non-empty object. */
  predicate McpOn(inspect: InspectConfig) {
    match inspect.mcp
    case None => false
    case Some(Bool(b)) => b
    case Some(Obj(m)) => m != map[]
    case Some(_) => false
  }

  /** terminalToProxyAction. */
  function Terminal(r: RuleRecord): Outcome {
    var u := Upper(r.action);
    Outcome(
      if r.policyType == "rtp" && r.inspect.dlp then INSPECT_DLP
      else if r.policyType == "rtp" && McpOn(r.inspect) then INSPECT_MCP
      else if u == "BLOCK" then BLOCK
      else if u == "COACH" then COACH
      else if u == "INSPECT_DLP" then INSPECT_DLP
      else if u == "INSPECT_MCP" then INSPECT_MCP
      else MapTerminalAction(r.action),
      r.message)
  }

  predicate IsContinue(r: RuleRecord) {
    EqualFold(r.action, "CONTINUE")
  }

  /** First rule of one list that matches and does not fall through. */
  function FirstIn(rx: Regex, irs: seq<IndexedRule>, domain: string, m: string): Option<RuleRecord> {
    if irs == [] then None
    else if MatchesRule(rx, irs[0], domain, m) && !IsContinue(irs[0].record) then Some(irs[0].record)
    else FirstIn(rx, irs[1..], domain, m)
  }

  function RulesOf(ast: AstMap, t: string): seq<IndexedRule> {
    if t in ast then ast[t] else []
  }

  /** First such rule over the types of the evaluation order. */
  function FirstOf(rx: Regex, ast: AstMap, order: seq<string>, domain: string, m: string): Option<RuleRecord> {
    if order == [] then None
    else
      match FirstIn(rx, RulesOf(ast, order[0]), domain, m)
      case Some(r) => Some(r)
      case None => FirstOf(rx, ast, order[1..], domain, m)
  }

  function EffectiveOrder(order: seq<string>): seq<string> {
    if order == [] then POLICY_TYPE_ORDER else order
  }

  /** TenantPolicy.Decide. */
  function Decide(rx: Regex, tp: TenantPolicy, domain: string, m: string): Outcome {
    DecideFields(rx, tp.ast, tp.evaluationOrder, tp.defaultAction, domain, m)
  }

  /** Decide in terms of the three fields it reads, one by one, under the read lock. */
  function DecideFields(rx: Regex, ast: Option<AstMap>, order: seq<string>, default: Action, domain: string,
                        m: string): Outcome {
    if ast.None? then Outcome(default, "")
    else
      match FirstOf(rx, ast.value, EffectiveOrder(order), Lower(domain), Upper(m))
      case Some(r) => Terminal(r)
      case None => Outcome(default, "")
  }

  // ---------- the loops of the source ----------

  method AnyMatchesLoop(rx: Regex, ps: seq<string>, domain: string) returns (matched: bool)
    ensures matched == AnyMatches(rx, ps, domain)
  {
    matched := false;
    for i := 0 to |ps|
      invariant !matched && forall k :: 0 <= k < i ==> !rx.matches(ps[k], domain)
    {
      if rx.matches(ps[i], domain) {
        matched := true;
        break;
      }
    }
  }

  method MatchesRuleLoop(rx: Regex, ir: IndexedRule, domain: string, m: string) returns (b: bool)
    ensures b == MatchesRule(rx, ir, domain, m)
  {
    if |ir.domains| > 0 {
      var matched := AnyMatchesLoop(rx, ir.domains, domain);
      if !matched { return false; }
    } else if |ir.dests| > 0 {
      var matched := AnyMatchesLoop(rx, ir.dests, domain);
      if !matched { return false; }
    }
    var methods := ir.record.conditions.methods;
    if |methods| > 0 {
      var ok := false;
      for i := 0 to |methods|
        invariant !ok && forall k :: 0 <= k < i ==> !EqualFold(methods[k], m)
      {
        if EqualFold(methods[i], m) {
          ok := true;
          break;
        }
      }
      if !ok { return false; }
    }
    return true;
  }

  /** The two nested loops of Decide, with the fall-through on CONTINUE. */
  method DecideLoop(rx: Regex, tp: TenantPolicy, rawDomain: string, rawMethod: string) returns (o: Outcome)
    ensures o == Decide(rx, tp, rawDomain, rawMethod)
  {
    if tp.ast.None? { return Outcome(tp.defaultAction, ""); }
    var ast, domain, m := tp.ast.value, Lower(rawDomain), Upper(rawMethod);
    var order := tp.evaluationOrder;
    if |order| == 0 { order := POLICY_TYPE_ORDER; }
    for i := 0 to |order|
      invariant FirstOf(rx, ast, order, domain, m) == FirstOf(rx, ast, order[i..], domain, m)
    {
      var rules := RulesOf(ast, order[i]);
      for j := 0 to |rules|
        invariant FirstIn(rx, rules, domain, m) == FirstIn(rx, rules[j..], domain, m)
      {
        var matched := MatchesRuleLoop(rx, rules[j], domain, m);
        if !matched { continue; }
        if EqualFold(rules[j].record.action, "CONTINUE") { continue; }
        return Terminal(rules[j].record);
      }
    }
    return Outcome(tp.defaultAction, "");
  }

  // ---------- the declarative specification ----------

  /** Some domain pattern matches; without domain patterns some destination pattern; without either, every domain. */
  predicate TakesDomain(rx: Regex, c: RuleConditions, domain: string) {
    if c.domains != [] then exists i :: 0 <= i < |c.domains| && rx.matches(c.domains[i], domain)
    else c.destinations == [] || exists i :: 0 <= i < |c.destinations| && rx.matches(c.destinations[i], domain)
  }

  predicate TakesMethod(c: RuleConditions, m: string) {
    c.methods == [] || exists i :: 0 <= i < |c.methods| && EqualFold(c.methods[i], m)
  }

  /** Whether a rule answers for a (lowered) domain and (uppered) method, read off the record alone. */
  predicate Eligible(rx: Regex, r: RuleRecord, domain: string, m: string) {
    TakesDomain(rx, r.conditions, domain) && TakesMethod(r.conditions, m) && !EqualFold(r.action, "CONTINUE")
  }

  /** First position of a type in the evaluation order. */
  function Position(order: seq<string>, t: string): nat {
    if order == [] || order[0] == t then 0 else 1 + Position(order[1..], t)
  }

  /** Least by (position of the type, priority, id). */
  predicate Beats(order: seq<string>, a: RuleRecord, b: RuleRecord) {
    var i, j := Position(order, a.policyType), Position(order, b.policyType);
    i < j || (i == j && Before(a, b))
  }

  ghost predicate Candidate(rx: Regex, rules: seq<RuleRecord>, order: seq<string>, domain: string, m: string,
                            r: RuleRecord) {
    r in rules && r.policyType in order && Eligible(rx, r, domain, m)
  }

  ghost predicate Winner(rx: Regex, rules: seq<RuleRecord>, order: seq<string>, domain: string, m: string,
                         w: RuleRecord) {
    && Candidate(rx, rules, order, domain, m, w)
    && forall r :: Candidate(rx, rules, order, domain, m, r) && r != w ==> Beats(order, w, r)
  }

  predicate UniqueKeys(rules: seq<RuleRecord>) {
    forall i, j :: 0 <= i < j < |rules| ==> (rules[i].policyType, rules[i].id) != (rules[j].policyType, rules[j].id)
  }

  /**
   * The destinations branch of matchesRule is dead on a built AST, so a rule matches when some pattern of its first
   * non-empty list matches the domain, or both lists are empty, and some method is the request's, or it lists none.
   */
  lemma IndexedMatchIsEligible(rx: Regex, r: RuleRecord, domain: string, m: string)
    ensures IndexRule(r).domains == [] ==> IndexRule(r).dests == []
    ensures Eligible(rx, r, domain, m) <==> MatchesRule(rx, IndexRule(r), domain, m) && !IsContinue(r)
  {
    var ir := IndexRule(r);
    assert (ir.domains == [] && ir.dests == []) || AnyMatches(rx, ir.domains, domain) <==>
      TakesDomain(rx, r.conditions, domain);
    assert MethodMatches(r.conditions.methods, m) <==> TakesMethod(r.conditions, m);
  }

  /** The k-th row is the first that answers. */
  ghost predicate FirstAt(rx: Regex, rs: seq<RuleRecord>, domain: string, m: string, k: nat) {
    k < |rs| && Eligible(rx, rs[k], domain, m) && forall i :: 0 <= i < k ==> !Eligible(rx, rs[i], domain, m)
  }

  lemma {:induction false} FirstInSpec(rx: Regex, rs: seq<RuleRecord>, domain: string, m: string)
    ensures var f := FirstIn(rx, IndexAll(rs), domain, m);
      && (f.None? ==> forall r :: r in rs ==> !Eligible(rx, r, domain, m))
      && (f.Some? ==> exists k: nat :: FirstAt(rx, rs, domain, m, k) && rs[k] == f.value)
  {
    if rs != [] {
      FirstInSpec(rx, rs[1..], domain, m);
      assert IndexAll(rs)[1..] == IndexAll(rs[1..]);
      IndexedMatchIsEligible(rx, rs[0], domain, m);
      var f := FirstIn(rx, IndexAll(rs[1..]), domain, m);
      if Eligible(rx, rs[0], domain, m) {
        assert FirstAt(rx, rs, domain, m, 0);
      } else if f.Some? {
        var k: nat :| FirstAt(rx, rs[1..], domain, m, k) && rs[1..][k] == f.value;
        forall i | 0 <= i < k + 1 ensures !Eligible(rx, rs[i], domain, m) {
          if i > 0 { assert rs[i] == rs[1..][i - 1]; }
        }
        assert FirstAt(rx, rs, domain, m, k + 1);
      }
    }
  }

  /** The least candidate among the rules of one type. */
  ghost predicate TypeWinner(rx: Regex, rules: seq<RuleRecord>, t: string, domain: string, m: string, w: RuleRecord) {
    && w in rules && w.policyType == t && Eligible(rx, w, domain, m)
    && forall r :: r in rules && r.policyType == t && Eligible(rx, r, domain, m) && r != w ==> Before(w, r)
  }

  /** What Decide walks for one type: the rows of that type, in order. */
  lemma SortedGroup(rules: seq<RuleRecord>, t: string)
    ensures var s := StableSort(Group(rules, t));
      && RulesOf(AstOf(rules), t) == IndexAll(s) && Sorted(s)
      && forall r :: r in s <==> r in rules && r.policyType == t
  {
    StableSortSorts(Group(rules, t));
    SortMembers(Group(rules, t));
    forall r { GroupMembers(rules, t, r); }
    if t !in Types(rules) { EmptyGroup(rules, t); }
  }

  /** Within one type the first match of the sorted group comes before every other candidate of the type. */
  lemma GroupWinner(rx: Regex, rules: seq<RuleRecord>, t: string, domain: string, m: string)
    requires UniqueKeys(rules)
    ensures var f := FirstIn(rx, RulesOf(AstOf(rules), t), domain, m);
      && (f.None? ==> forall r :: r in rules && r.policyType == t ==> !Eligible(rx, r, domain, m))
      && (f.Some? ==> TypeWinner(rx, rules, t, domain, m, f.value))
  {
    var s := StableSort(Group(rules, t));
    SortedGroup(rules, t);
    FirstInSpec(rx, s, domain, m);
    var f := FirstIn(rx, IndexAll(s), domain, m);
    if f.Some? {
      var k: nat :| FirstAt(rx, s, domain, m, k) && s[k] == f.value;
      forall r | r in s && Eligible(rx, r, domain, m) && r != s[k] ensures Before(s[k], r) {
        var j :| 0 <= j < |s| && s[j] == r;
        assert s[k] in s && k < j;
        BeforeTotal(s[k], r);
        DistinctIds(rules, s[k], r);
      }
    }
  }

  lemma DistinctIds(rules: seq<RuleRecord>, a: RuleRecord, b: RuleRecord)
    requires UniqueKeys(rules) && a in rules && b in rules && a != b && a.policyType == b.policyType
    ensures a.id != b.id
  {
    var i :| 0 <= i < |rules| && rules[i] == a;
    var j :| 0 <= j < |rules| && rules[j] == b;
    if i < j {
      assert (a.policyType, a.id) != (b.policyType, b.id);
    } else {
      assert (b.policyType, b.id) != (a.policyType, a.id);
    }
  }

  /** Putting a type without candidates in front of the order changes neither candidates nor winner. */
  lemma SkipType(rx: Regex, rules: seq<RuleRecord>, t: string, rest: seq<string>, domain: string, m: string)
    requires forall r :: r in rules && r.policyType == t ==> !Eligible(rx, r, domain, m)
    ensures forall r :: Candidate(rx, rules, [t] + rest, domain, m, r) <==> Candidate(rx, rules, rest, domain, m, r)
    ensures forall w :: Winner(rx, rules, rest, domain, m, w) ==> Winner(rx, rules, [t] + rest, domain, m, w)
  {
    assert ([t] + rest)[1..] == rest;
    assert forall x :: x != t ==> Position([t] + rest, x) == 1 + Position(rest, x);
  }

  /** The winner of the first type of the order beats every other candidate. */
  lemma TakeType(rx: Regex, rules: seq<RuleRecord>, t: string, rest: seq<string>, domain: string, m: string,
                 w: RuleRecord)
    requires TypeWinner(rx, rules, t, domain, m, w)
    ensures Winner(rx, rules, [t] + rest, domain, m, w)
  {
    assert forall x :: x != t ==> Position([t] + rest, x) > 0;
  }

  lemma {:induction false} FirstOfIsWinner(rx: Regex, rules: seq<RuleRecord>, order: seq<string>, domain: string,
                                           m: string)
    requires UniqueKeys(rules)
    ensures var f := FirstOf(rx, AstOf(rules), order, domain, m);
      && (f.None? ==> forall r :: !Candidate(rx, rules, order, domain, m, r))
      && (f.Some? ==> Winner(rx, rules, order, domain, m, f.value))
  {
    if order != [] {
      var t, rest := order[0], order[1..];
      assert order == [t] + rest;
      GroupWinner(rx, rules, t, domain, m);
      var f := FirstIn(rx, RulesOf(AstOf(rules), t), domain, m);
      if f.Some? {
        TakeType(rx, rules, t, rest, domain, m, f.value);
      } else {
        SkipType(rx, rules, t, rest, domain, m);
        FirstOfIsWinner(rx, rules, rest, domain, m);
      }
    }
  }

  /** The policy a load builds from rows `rules`. */
  function PolicyOf(default: Action, order: seq<string>, rules: seq<RuleRecord>): TenantPolicy {
    TenantPolicy(default, order, rules, Some(AstOf(rules)))
  }

  /** The answer of the least matching rule that does not fall through, else the default. */
  ghost predicate MeetsSpec(rx: Regex, default: Action, order: seq<string>, rules: seq<RuleRecord>,
                            domain: string, m: string, o: Outcome) {
    var eff, d, u := EffectiveOrder(order), Lower(domain), Upper(m);
    && (forall w :: Winner(rx, rules, eff, d, u, w) ==> o == Terminal(w))
    && ((exists r :: Candidate(rx, rules, eff, d, u, r)) ==> exists w :: Winner(rx, rules, eff, d, u, w))
    && ((forall r :: !Candidate(rx, rules, eff, d, u, r)) ==> o == Outcome(default, ""))
  }

  /** Decide answers with the least matching rule that does not fall through, else with the default. */
  lemma DecideMeetsSpec(rx: Regex, default: Action, order: seq<string>, rules: seq<RuleRecord>, domain: string,
                        m: string)
    requires UniqueKeys(rules)
    ensures MeetsSpec(rx, default, order, rules, domain, m, Decide(rx, PolicyOf(default, order, rules), domain, m))
  {
    var eff, d, u := EffectiveOrder(order), Lower(domain), Upper(m);
    FirstOfIsWinner(rx, rules, eff, d, u);
    forall w, v | Winner(rx, rules, eff, d, u, w) && Winner(rx, rules, eff, d, u, v) ensures w == v {
      if w != v {
        assert Beats(eff, w, v) && Beats(eff, v, w);
        BeforeTotal(w, v);
      }
    }
  }

  /** Without an AST every request gets the default. */
  lemma NoAstDefault(rx: Regex, tp: TenantPolicy, domain: string, m: string)
    requires tp.ast.None?
    ensures Decide(rx, tp, domain, m) == Outcome(tp.defaultAction, "")
  {}

  /** The order in which the rows come does not matter. */
  lemma DecideIgnoresRowOrder(rx: Regex, default: Action, order: seq<string>, rules: seq<RuleRecord>,
                              rules': seq<RuleRecord>, domain: string, m: string)
    requires UniqueKeys(rules) && UniqueKeys(rules')
    requires forall r :: r in rules <==> r in rules'
    ensures Decide(rx, PolicyOf(default, order, rules), domain, m) ==
      Decide(rx, PolicyOf(default, order, rules'), domain, m)
  {
    var eff, d, u := EffectiveOrder(order), Lower(domain), Upper(m);
    DecideMeetsSpec(rx, default, order, rules, domain, m);
    DecideMeetsSpec(rx, default, order, rules', domain, m);
    assert forall r :: Candidate(rx, rules, eff, d, u, r) <==> Candidate(rx, rules', eff, d, u, r);
    assert forall w :: Winner(rx, rules, eff, d, u, w) <==> Winner(rx, rules', eff, d, u, w);
  }

  /** Upper-case text without blanks at its ends is its own trimmed, upper-case form. */
  lemma PlainName(n: string)
    requires n != [] && forall i :: 0 <= i < |n| ==> 'A' <= n[i] <= 'Z'
    ensures Trim(n) == n && Upper(n) == n
  {}

  /** What mapTerminalAction makes of a schema action, and when such an action falls through. */
  lemma TerminalName(n: string)
    requires n in {"ALLOW", "BLOCK", "BYPASS", "FWD", "COACH", "CONTINUE"}
    ensures MapTerminalAction(n) == if n == "BLOCK" then BLOCK else if n == "COACH" then COACH else ALLOW
    ensures EqualFold(n, "CONTINUE") <==> n == "CONTINUE"
    ensures Upper(n) == n
  {
    PlainName(n);
    PlainName("CONTINUE");
    FoldIsUpper(n, "CONTINUE");
  }

  /** mapTerminalAction on any text: the six names in any case and between blanks, and other texts in lower case. */
  lemma MappedAction(raw: string)
    ensures var o := MapTerminalAction(raw);
      && (EqualFold(Trim(raw), "BLOCK") ==> o == "block") && (EqualFold(Trim(raw), "COACH") ==> o == "coach")
      && (forall n :: n in {"ALLOW", "BYPASS", "FWD", "CONTINUE"} && EqualFold(Trim(raw), n) ==> o == "allow")
      && ((forall n :: n in {"BLOCK", "COACH", "ALLOW", "BYPASS", "FWD", "CONTINUE"} ==> !EqualFold(Trim(raw), n)) ==>
          o == Lower(raw))
  {
    FoldOfName(Trim(raw), "BLOCK");
    FoldOfName(Trim(raw), "COACH");
    FoldOfName(Trim(raw), "ALLOW");
    FoldOfName(Trim(raw), "BYPASS");
    FoldOfName(Trim(raw), "FWD");
    FoldOfName(Trim(raw), "CONTINUE");
  }

  /** Equality up to case with a name in capitals. */
  lemma FoldOfName(a: string, n: string)
    requires n in {"BLOCK", "COACH", "ALLOW", "BYPASS", "FWD", "CONTINUE", "INSPECT_DLP", "INSPECT_MCP"}
    ensures EqualFold(a, n) <==> Upper(a) == n
  {
    FoldIsUpper(a, n);
    assert Upper(n) == n;
  }

  /** What a rule answers: its inspection first, in rtp rules, then its action, and always its message. */
  lemma TerminalMeans(r: RuleRecord)
    ensures var o, mcp := Terminal(r), r.inspect.mcp;
      var inspected := mcp == Some(Bool(true)) || (mcp.Some? && mcp.value.Obj? && mcp.value.fields != map[]);
      && o.message == r.message
      && (r.policyType == "rtp" && r.inspect.dlp ==> o.action == "inspect_dlp")
      && (r.policyType == "rtp" && !r.inspect.dlp && inspected ==> o.action == "inspect_mcp")
      && (r.policyType != "rtp" || (!r.inspect.dlp && !inspected) ==>
          if EqualFold(r.action, "BLOCK") then o.action == "block"
          else if EqualFold(r.action, "COACH") then o.action == "coach"
          else if EqualFold(r.action, "INSPECT_DLP") then o.action == "inspect_dlp"
          else if EqualFold(r.action, "INSPECT_MCP") then o.action == "inspect_mcp"
          else o.action == MapTerminalAction(r.action))
  {
    FoldOfName(r.action, "BLOCK");
    FoldOfName(r.action, "COACH");
    FoldOfName(r.action, "INSPECT_DLP");
    FoldOfName(r.action, "INSPECT_MCP");
  }
}
