/** Grouping, sorting and compiling rules into the AST (policy/ast.go). */
module Ast {
  import opened Text
  import opened Policy

  /** The comparator of buildAST: priority, then id. */
  predicate Before(a: RuleRecord, b: RuleRecord) {
    a.priority < b.priority || (a.priority == b.priority && Less(a.id, b.id))
  }

  /** sort.SliceStable with that comparator. */
  function StableSort(s: seq<RuleRecord>): seq<RuleRecord> {
    if s == [] then [] else InsertRecord(s[0], StableSort(s[1..]))
  }

  function InsertRecord(x: RuleRecord, s: seq<RuleRecord>): seq<RuleRecord> {
    if s != [] && Before(s[0], x) then [s[0]] + InsertRecord(x, s[1..]) else [x] + s
  }

  predicate Sorted(s: seq<RuleRecord>) {
    forall i, j :: 0 <= i < j < |s| ==> !Before(s[j], s[i])
  }

  lemma BeforeTotal(a: RuleRecord, b: RuleRecord)
    ensures !Before(a, a)
    ensures Before(a, b) || Before(b, a) || (a.priority == b.priority && a.id == b.id)
    ensures !(Before(a, b) && Before(b, a))
  {
    LessIrreflexive(a.id);
    LessTotal(a.id, b.id);
    if Less(a.id, b.id) && Less(b.id, a.id) {
      LessTransitive(a.id, b.id, a.id);
    }
  }

  /** "Not after" is transitive, which is what makes the order a weak one. */
  lemma NotAfterTransitive(a: RuleRecord, b: RuleRecord, c: RuleRecord)
    requires !Before(b, a) && !Before(c, b)
    ensures !Before(c, a)
  {
    if Before(c, a) {
      BeforeTotal(a, b);
      BeforeTotal(b, c);
      if c.priority == b.priority == a.priority {
        LessTotal(c.id, b.id);
        LessTotal(b.id, a.id);
        if Less(b.id, c.id) { LessTransitive(b.id, c.id, a.id); }
      }
    }
  }

  lemma {:induction false} InsertPermutes(x: RuleRecord, s: seq<RuleRecord>)
    ensures multiset(InsertRecord(x, s)) == multiset([x] + s)
  {
    if s != [] && Before(s[0], x) {
      InsertPermutes(x, s[1..]);
      assert s == [s[0]] + s[1..];
      assert [x] + s == [x] + [s[0]] + s[1..];
    }
  }

  lemma {:induction false} InsertSorted(x: RuleRecord, s: seq<RuleRecord>)
    requires Sorted(s)
    ensures Sorted(InsertRecord(x, s))
  {
    if s != [] && Before(s[0], x) {
      var t := InsertRecord(x, s[1..]);
      InsertSorted(x, s[1..]);
      BeforeTotal(s[0], x);
      forall j | 0 <= j < |t| ensures !Before(t[j], s[0]) {
        InsertPermutes(x, s[1..]);
        assert t[j] in multiset([x] + s[1..]);
      }
    } else {
      forall j | 0 <= j < |s| ensures !Before(s[j], x) {
        if j > 0 { NotAfterTransitive(x, s[0], s[j]); }
      }
    }
  }

  lemma {:induction false} StableSortSorts(s: seq<RuleRecord>)
    ensures Sorted(StableSort(s)) && multiset(StableSort(s)) == multiset(s)
  {
    if s != [] {
      StableSortSorts(s[1..]);
      var t := StableSort(s[1..]);
      InsertSorted(s[0], t);
      InsertPermutes(s[0], t);
      assert s == [s[0]] + s[1..];
    }
  }

  /** The sorted rows are the rows. */
  lemma SortMembers(s: seq<RuleRecord>)
    ensures |StableSort(s)| == |s| && forall r :: r in StableSort(s) <==> r in s
  {
    StableSortSorts(s);
    assert |multiset(s)| == |s| && |multiset(StableSort(s))| == |StableSort(s)|;
    forall r ensures r in StableSort(s) <==> r in s {
      assert r in s <==> r in multiset(s);
      assert r in StableSort(s) <==> r in multiset(StableSort(s));
    }
  }

  /** The rows of one type, in row order. */
  function Group(rules: seq<RuleRecord>, t: string): seq<RuleRecord> {
    if rules == [] then []
    else if rules[0].policyType == t then [rules[0]] + Group(rules[1..], t)
    else Group(rules[1..], t)
  }

  lemma {:induction false} GroupMembers(rules: seq<RuleRecord>, t: string, r: RuleRecord)
    ensures r in Group(rules, t) <==> r in rules && r.policyType == t
  {
    if rules != [] {
      GroupMembers(rules[1..], t, r);
      assert r in rules <==> r == rules[0] || r in rules[1..];
    }
  }

  lemma {:induction false} GroupSnoc(rules: seq<RuleRecord>, r: RuleRecord, t: string)
    ensures Group(rules + [r], t) == Group(rules, t) + if r.policyType == t then [r] else []
  {
    if rules == [] {
      assert rules + [r] == [r];
    } else {
      assert (rules + [r])[1..] == rules[1..] + [r];
      GroupSnoc(rules[1..], r, t);
    }
  }

  function Types(rules: seq<RuleRecord>): set<string> {
    set r | r in rules :: r.policyType
  }

  /** domainPatterns: the domains, or else the destinations. */
  function DomainPatterns(c: RuleConditions): seq<string> {
    if c.domains != [] then c.domains else c.destinations
  }

  predicate AllCompile(rx: Regex, ps: seq<string>) {
    forall p :: p in ps ==> rx.compiles(p)
  }

  predicate RuleCompiles(rx: Regex, r: RuleRecord) {
    AllCompile(rx, DomainPatterns(r.conditions)) && AllCompile(rx, r.conditions.destinations)
  }

  predicate GroupCompiles(rx: Regex, rs: seq<RuleRecord>) {
    forall r :: r in rs ==> RuleCompiles(rx, r)
  }

  function IndexRule(r: RuleRecord): IndexedRule {
    IndexedRule(r, DomainPatterns(r.conditions), r.conditions.destinations)
  }

  function IndexAll(rs: seq<RuleRecord>): seq<IndexedRule> {
    seq(|rs|, i requires 0 <= i < |rs| => IndexRule(rs[i]))
  }

  function AstOf(rules: seq<RuleRecord>): AstMap {
    map t | t in Types(rules) :: IndexAll(StableSort(Group(rules, t)))
  }

  /** buildAST: an error as soon as one pattern does not compile, else the sorted groups. */
  function BuildAst(rx: Regex, rules: seq<RuleRecord>): Option<AstMap> {
    if GroupCompiles(rx, rules) then Some(AstOf(rules)) else None
  }

  /** Compiling one list of patterns, stopping at the first that fails. */
  method CompilePatterns(rx: Regex, ps: seq<string>) returns (ok: bool, compiled: seq<string>)
    ensures ok == AllCompile(rx, ps)
    ensures ok ==> compiled == ps
  {
    compiled := [];
    for i := 0 to |ps|
      invariant compiled == ps[..i] && AllCompile(rx, ps[..i])
    {
      if !rx.compiles(ps[i]) { return false, []; }
      compiled := compiled + [ps[i]];
    }
    return true, compiled;
  }

  method CompileRule(rx: Regex, rec: RuleRecord) returns (ok: bool, ir: IndexedRule)
    ensures ok == RuleCompiles(rx, rec)
    ensures ok ==> ir == IndexRule(rec)
  {
    ir := IndexedRule(rec, [], []);
    var domains, dests;
    ok, domains := CompilePatterns(rx, DomainPatterns(rec.conditions));
    if !ok { return; }
    ok, dests := CompilePatterns(rx, rec.conditions.destinations);
    ir := IndexedRule(rec, domains, dests);
  }

  /** One type's rows: sorted, then compiled one by one. */
  method IndexGroup(rx: Regex, recs: seq<RuleRecord>) returns (ok: bool, indexed: seq<IndexedRule>)
    ensures ok == GroupCompiles(rx, recs)
    ensures ok ==> indexed == IndexAll(StableSort(recs))
  {
    var sorted := StableSort(recs);
    SortMembers(recs);
    indexed := [];
    for i := 0 to |sorted|
      invariant indexed == IndexAll(sorted[..i])
      invariant forall k :: 0 <= k < i ==> RuleCompiles(rx, sorted[k])
    {
      assert sorted[i] in sorted;
      var good, ir := CompileRule(rx, sorted[i]);
      if !good { return false, []; }
      indexed := indexed + [ir];
    }
    return true, indexed;
  }

  /** Appending each row to the slice of its type. */
  method GroupRules(rules: seq<RuleRecord>) returns (grouped: map<string, seq<RuleRecord>>)
    ensures grouped == map t | t in Types(rules) :: Group(rules, t)
  {
    grouped := map[];
    for i := 0 to |rules|
      invariant grouped.Keys == Types(rules[..i])
      invariant forall t :: t in grouped ==> grouped[t] == Group(rules[..i], t)
    {
      var r := rules[i];
      assert rules[..i + 1] == rules[..i] + [r];
      forall t { GroupSnoc(rules[..i], r, t); }
      forall t | t !in Types(rules[..i]) ensures Group(rules[..i], t) == [] {
        EmptyGroup(rules[..i], t);
      }
      var bucket := if r.policyType in grouped then grouped[r.policyType] else [];
      grouped := grouped[r.policyType := bucket + [r]];
    }
    assert rules[..|rules|] == rules;
  }

  lemma {:induction false} EmptyGroup(rules: seq<RuleRecord>, t: string)
    requires t !in Types(rules)
    ensures Group(rules, t) == []
  {
    if Group(rules, t) != [] {
      GroupMembers(rules, t, Group(rules, t)[0]);
    }
  }

  lemma GroupsCompile(rx: Regex, rules: seq<RuleRecord>)
    ensures GroupCompiles(rx, rules) <==> forall t :: t in Types(rules) ==> GroupCompiles(rx, Group(rules, t))
  {
    forall t, x { GroupMembers(rules, t, x); }
    if forall t :: t in Types(rules) ==> GroupCompiles(rx, Group(rules, t)) {
      forall x | x in rules ensures RuleCompiles(rx, x) {
        assert GroupCompiles(rx, Group(rules, x.policyType));
      }
    }
  }

  /** buildAST: Go ranges over the groups in no fixed order, and any order gives the same map. */
  method BuildAstLoop(rx: Regex, rules: seq<RuleRecord>) returns (r: Option<AstMap>)
    ensures r == BuildAst(rx, rules)
  {
    var grouped := GroupRules(rules);
    var ast: AstMap := map[];
    var todo := grouped.Keys;
    while todo != {}
      invariant todo <= grouped.Keys && ast.Keys == grouped.Keys - todo
      invariant forall t :: t in ast ==> ast[t] == IndexAll(StableSort(grouped[t]))
      invariant forall t :: t in ast ==> GroupCompiles(rx, grouped[t])
      decreases todo
    {
      var t :| t in todo;
      var ok, indexed := IndexGroup(rx, grouped[t]);
      if !ok {
        GroupsCompile(rx, rules);
        return None;
      }
      ast, todo := ast[t := indexed], todo - {t};
    }
    GroupsCompile(rx, rules);
    assert forall t :: t in Types(rules) ==> t in ast && grouped[t] == Group(rules, t);
    assert ast == AstOf(rules);
    return Some(ast);
  }
}
