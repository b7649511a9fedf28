/** Which documents validation accepts, stated on the document alone (controlplane/policy_compiler/validator.py). */
module Acceptance {
  import opened Text
  import opened Json
  import opened Normalizer
  import opened Validator
  import opened Schema
  import SchemaMeaning

  const FOUR_TYPES: set<string> := {"rtp", "bypass", "egress_ip", "enterprise_browser"}

  /** The rules of one block of an envelope; none when the block is missing. */
  function RulesIn(d: Json, t: string): seq<Json> {
    if d.Obj? && "policies" in d.fields && d.fields["policies"].Obj? && t in d.fields["policies"].fields then
      var block := d.fields["policies"].fields[t];
      if block.Obj? && "rules" in block.fields && block.fields["rules"].Arr? then block.fields["rules"].items else []
    else []
  }

  /** Every pattern that iterating over the value yields compiles; what cannot be iterated must be falsy. */
  ghost predicate PatternsCompile(env: Env, j: Json) {
    match j
    case Arr(xs) => forall x :: x in xs ==> x.Str? && env.compiles(x.s)
    case Str(s) => forall c :: c in s ==> env.compiles([c])
    case Obj(m) => forall k :: k in m ==> env.compiles(k)
    case Null => true
    case Bool(b) => !b
    case Int(n) => n == 0
    case Float(r) => r == 0.0
  }

  /** The domain and destination patterns compile, in rtp rules the tool names too, and the priority is an integer. */
  ghost predicate SoundRule(env: Env, t: string, rule: Json) {
    rule.Obj? ==>
      var m := rule.fields;
      && ("conditions" in m && m["conditions"].Obj? ==>
          var c := m["conditions"].fields;
          && ("domains" in c ==> PatternsCompile(env, c["domains"]))
          && ("destinations" in c ==> PatternsCompile(env, c["destinations"])))
      && (t == "rtp" && "inspect" in m && m["inspect"].Obj? && "mcp" in m["inspect"].fields ==>
          var mcp := m["inspect"].fields["mcp"];
          mcp.Obj? && "tool_names" in mcp.fields ==> PatternsCompile(env, mcp.fields["tool_names"]))
      && ("priority" in m ==> m["priority"].Int?)
  }

  /** No two rules of a list have the same id. */
  ghost predicate IdsDiffer(rules: seq<Json>) {
    forall i, j :: 0 <= i < j < |rules| ==> IdOf(rules[i]) != IdOf(rules[j])
  }

  function RuleTotal(d: Json): nat {
    |RulesIn(d, "rtp")| + |RulesIn(d, "bypass")| + |RulesIn(d, "egress_ip")| + |RulesIn(d, "enterprise_browser")|
  }

  /** What a normalised document must be to be accepted. */
  ghost predicate Accepted(env: Env, d: Json) {
    && env.size(d) <= env.maxBytes && Conforms(POLICY, d) && 1 <= RuleTotal(d) <= env.maxRules
    && (forall t :: t in FOUR_TYPES ==> IdsDiffer(RulesIn(d, t)))
    && (forall t, r :: t in FOUR_TYPES && r in RulesIn(d, t) ==> SoundRule(env, t, r))
  }

  // ---------- the rules one by one ----------

  lemma SameRules(d: Json, t: string)
    ensures BlockRules(d, t) == RulesIn(d, t)
  {}

  /** The rules of a document are those of the four blocks, in this order. */
  lemma FourBlocks(d: Json)
    ensures IterRules(d) ==
      Tag("rtp", RulesIn(d, "rtp")) + (Tag("bypass", RulesIn(d, "bypass")) +
      (Tag("egress_ip", RulesIn(d, "egress_ip")) + Tag("enterprise_browser", RulesIn(d, "enterprise_browser"))))
  {
    var types := POLICY_TYPES;
    assert types[1..][0] == "bypass" && types[1..][1..][0] == "egress_ip";
    assert types[1..][1..][1..][0] == "enterprise_browser" && types[1..][1..][1..][1..] == [];
    assert RulesOfTypes(d, types[1..][1..][1..]) == Tag("enterprise_browser", RulesIn(d, "enterprise_browser")) + [];
    assert RulesOfTypes(d, types[1..][1..]) ==
      Tag("egress_ip", RulesIn(d, "egress_ip")) + RulesOfTypes(d, types[1..][1..][1..]);
    assert RulesOfTypes(d, types[1..]) == Tag("bypass", RulesIn(d, "bypass")) + RulesOfTypes(d, types[1..][1..]);
  }

  lemma {:induction false} ListIff(env: Env, xs: seq<Json>)
    ensures CheckList(env, xs).None? <==> forall x :: x in xs ==> x.Str? && env.compiles(x.s)
  {
    if xs != [] {
      ListIff(env, xs[1..]);
      assert forall x :: x in xs <==> x == xs[0] || x in xs[1..];
    }
  }

  lemma PatternsIff(env: Env, j: Json)
    ensures CheckPatterns(env, j).None? <==> PatternsCompile(env, j)
  {
    if j.Arr? { ListIff(env, j.items); }
  }

  lemma BusinessIff(env: Env, t: string, rule: Json)
    ensures Business(env, t, FieldsOf(rule)).None? <==> SoundRule(env, t, rule)
  {
    var m := FieldsOf(rule);
    PatternsIff(env, Get(Conditions(m), "domains", Null));
    PatternsIff(env, Get(Conditions(m), "destinations", Null));
    PatternsIff(env, ToolNames(m));
  }

  lemma BusinessOfAll(env: Env, rules: seq<(string, Json)>)
    ensures (forall i :: 0 <= i < |rules| ==> Business(env, rules[i].0, FieldsOf(rules[i].1)).None?) <==>
      forall x :: x in rules ==> SoundRule(env, x.0, x.1)
  {
    forall i | 0 <= i < |rules|
      ensures Business(env, rules[i].0, FieldsOf(rules[i].1)).None? <==> SoundRule(env, rules[i].0, rules[i].1)
    {
      BusinessIff(env, rules[i].0, rules[i].1);
    }
    if forall x :: x in rules ==> SoundRule(env, x.0, x.1) {
      forall i | 0 <= i < |rules| ensures Business(env, rules[i].0, FieldsOf(rules[i].1)).None? {
        assert rules[i] in rules;
      }
    }
  }

  lemma TagMembers(t: string, rules: seq<Json>, x: (string, Json))
    ensures x in Tag(t, rules) <==> x.0 == t && x.1 in rules
  {
    if x.0 == t && x.1 in rules {
      var i :| 0 <= i < |rules| && rules[i] == x.1;
      assert Tag(t, rules)[i] == x;
    }
  }

  lemma {:induction false} TypesMembers(d: Json, types: seq<string>, x: (string, Json))
    ensures x in RulesOfTypes(d, types) <==> x.0 in types && x.1 in RulesIn(d, x.0)
  {
    if types != [] {
      TypesMembers(d, types[1..], x);
      TagMembers(types[0], BlockRules(d, types[0]), x);
    }
  }

  /** Ids are unique in a document when they are within each of its blocks. */
  lemma UniqueAppend(t: string, block: seq<Json>, rest: seq<(string, Json)>)
    requires forall x :: x in rest ==> x.0 != t
    ensures UniqueIds(Tag(t, block) + rest) <==> IdsDiffer(block) && UniqueIds(rest)
  {
    var all, n := Tag(t, block) + rest, |block|;
    assert forall i :: 0 <= i < n ==> all[i] == (t, block[i]);
    assert forall i :: n <= i < |all| ==> all[i] == rest[i - n];
    if UniqueIds(all) {
      forall i, j | 0 <= i < j < n ensures IdOf(block[i]) != IdOf(block[j]) {
        assert (all[i].0, IdOf(all[i].1)) != (all[j].0, IdOf(all[j].1));
      }
      forall i, j | 0 <= i < j < |rest| ensures (rest[i].0, IdOf(rest[i].1)) != (rest[j].0, IdOf(rest[j].1)) {
        assert all[n + i] == rest[i] && all[n + j] == rest[j];
      }
    }
    if IdsDiffer(block) && UniqueIds(rest) {
      forall i, j | 0 <= i < j < |all| ensures (all[i].0, IdOf(all[i].1)) != (all[j].0, IdOf(all[j].1)) {
        if i < n <= j { assert rest[j - n] in rest; }
        if n <= i { assert all[i] == rest[i - n] && all[j] == rest[j - n]; }
      }
    }
  }

  lemma {:induction false} UniqueByType(d: Json, types: seq<string>)
    requires forall i, j :: 0 <= i < j < |types| ==> types[i] != types[j]
    ensures UniqueIds(RulesOfTypes(d, types)) <==> forall t :: t in types ==> IdsDiffer(RulesIn(d, t))
  {
    if types != [] {
      UniqueByType(d, types[1..]);
      forall x | x in RulesOfTypes(d, types[1..]) ensures x.0 != types[0] { TypesMembers(d, types[1..], x); }
      SameRules(d, types[0]);
      UniqueAppend(types[0], RulesIn(d, types[0]), RulesOfTypes(d, types[1..]));
      assert RulesOfTypes(d, types) == Tag(types[0], RulesIn(d, types[0])) + RulesOfTypes(d, types[1..]);
      assert forall t :: t in types <==> t == types[0] || t in types[1..];
    }
  }

  lemma ChecksByType(env: Env, d: Json, types: seq<string>)
    requires forall i, j :: 0 <= i < j < |types| ==> types[i] != types[j]
    requires forall t :: t in types ==> t in POLICY_TYPES
    ensures CheckRules(env, RulesOfTypes(d, types), {}).None? <==>
      && (forall t :: t in types ==> IdsDiffer(RulesIn(d, t)))
      && (forall t, r :: t in types && r in RulesIn(d, t) ==> SoundRule(env, t, r))
  {
    var rules := RulesOfTypes(d, types);
    TypesAreKnown(d, types);
    CheckRulesMeaning(env, rules, {});
    UniqueByType(d, types);
    BusinessOfAll(env, rules);
    SoundByType(env, d, types);
  }

  lemma ChecksIff(env: Env, d: Json)
    ensures CheckRules(env, IterRules(d), {}).None? <==>
      && (forall t :: t in FOUR_TYPES ==> IdsDiffer(RulesIn(d, t)))
      && (forall t, r :: t in FOUR_TYPES && r in RulesIn(d, t) ==> SoundRule(env, t, r))
  {
    var types := POLICY_TYPES;
    ChecksByType(env, d, types);
    assert forall t :: t in types <==> t in FOUR_TYPES;
  }

  lemma SoundByType(env: Env, d: Json, types: seq<string>)
    ensures (forall x :: x in RulesOfTypes(d, types) ==> SoundRule(env, x.0, x.1)) <==>
      forall t, r :: t in types && r in RulesIn(d, t) ==> SoundRule(env, t, r)
  {
    forall x { TypesMembers(d, types, x); }
    if forall x :: x in RulesOfTypes(d, types) ==> SoundRule(env, x.0, x.1) {
      forall t, r | t in types && r in RulesIn(d, t) ensures SoundRule(env, t, r) {
        assert (t, r) in RulesOfTypes(d, types);
      }
    }
  }

  lemma TotalRules(d: Json)
    ensures |IterRules(d)| == RuleTotal(d)
  {
    FourBlocks(d);
  }

  // ---------- the verdict ----------

  /** A document is accepted if and only if its normal form is well sized, of the schema, and sound rule by rule. */
  lemma AcceptedIff(env: Env, raw: Json)
    ensures Validate(env, raw).Valid? <==> Normalize(raw).Ok? && Accepted(env, Normalize(raw).value)
    ensures Validate(env, raw).Valid? ==> Validate(env, raw).doc == Normalize(raw).value
  {
    if Normalize(raw).Ok? {
      var d := Normalize(raw).value;
      SchemaMeaning.SchemaValidIff(d);
      TotalRules(d);
      ChecksIff(env, d);
    }
  }

  /** The reason given for a document that fails as a whole. */
  lemma RejectedBecause(env: Env, raw: Json)
    requires Normalize(raw).Ok?
    ensures var d, v := Normalize(raw).value, Validate(env, raw);
      && (v == Invalid(TooBig) <==> env.size(d) > env.maxBytes)
      && (v == Invalid(SchemaViolation) <==> env.size(d) <= env.maxBytes && !Conforms(POLICY, d))
      && (v == Invalid(TooManyRules) <==>
          env.size(d) <= env.maxBytes && Conforms(POLICY, d) && RuleTotal(d) > env.maxRules)
      && (v == Invalid(NoRulesAtAll) <==>
          env.size(d) <= env.maxBytes && Conforms(POLICY, d) && RuleTotal(d) == 0)
  {
    var d := Normalize(raw).value;
    SchemaMeaning.SchemaValidIff(d);
    TotalRules(d);
    NormalVerdict(env, d);
  }

  lemma NormalVerdict(env: Env, d: Json)
    ensures var v, n := ValidateNormal(env, d), |IterRules(d)|;
      && (v == Invalid(TooBig) <==> env.size(d) > env.maxBytes)
      && (v == Invalid(SchemaViolation) <==> env.size(d) <= env.maxBytes && !SchemaValid(d))
      && (v == Invalid(TooManyRules) <==> env.size(d) <= env.maxBytes && SchemaValid(d) && n > env.maxRules)
      && (v == Invalid(NoRulesAtAll) <==> env.size(d) <= env.maxBytes && SchemaValid(d) && n == 0)
  {
    ChecksNameARule(env, IterRules(d), {});
  }

  lemma {:induction false} ChecksNameARule(env: Env, rules: seq<(string, Json)>, seen: set<string>)
    ensures var p := CheckRules(env, rules, seen);
      p.Some? ==> p.value.DuplicateId? || p.value.BadPattern? || p.value.BadPriority? || p.value.Crashed?
  {
    if rules != [] {
      if Business(env, rules[0].0, FieldsOf(rules[0].1)).Some? { BusinessProblem(env, rules[0].0, rules[0].1); }
      ChecksNameARule(env, rules[1..], seen + {RuleKey(rules[0].0, IdOf(rules[0].1))});
    }
  }

  // ---------- the reason given for a rule ----------

  /** Iterating over the value meets a text that does not compile before anything else that is wrong. */
  ghost predicate HasBadPattern(env: Env, j: Json) {
    match j
    case Arr(xs) => exists k: nat :: FirstText(env, xs, k)
    case Str(s) => exists c :: c in s && !env.compiles([c])
    case Obj(m) => exists k :: k in m && !env.compiles(k)
    case _ => false
  }

  ghost predicate FirstText(env: Env, xs: seq<Json>, k: nat) {
    && k < |xs| && xs[k].Str? && !env.compiles(xs[k].s)
    && forall i :: 0 <= i < k ==> xs[i].Str? && env.compiles(xs[i].s)
  }

  /** The pattern values of a rule, in the order of their checks; Null where there is none. */
  function PatternValues(t: string, rule: Json): seq<Json> {
    if !rule.Obj? then [Null, Null, Null]
    else
      var m := rule.fields;
      var c := if "conditions" in m && m["conditions"].Obj? then m["conditions"].fields else map[];
      var i := if "inspect" in m && m["inspect"].Obj? then m["inspect"].fields else map[];
      var mcp := if "mcp" in i && i["mcp"].Obj? then i["mcp"].fields else map[];
      [if "domains" in c then c["domains"] else Null,
       if "destinations" in c then c["destinations"] else Null,
       if t == "rtp" && "tool_names" in mcp then mcp["tool_names"] else Null]
  }

  /** The first value that is not sound decides: a pattern in it does not compile, or it does not yield texts. */
  ghost predicate FirstBad(env: Env, values: seq<Json>, k: nat, p: Problem) {
    && k < |values| && !PatternsCompile(env, values[k]) && (forall i :: 0 <= i < k ==> PatternsCompile(env, values[i]))
    && p == if HasBadPattern(env, values[k]) then BadPattern else Crashed
  }

  ghost predicate RuleProblem(env: Env, t: string, rule: Json, p: Problem) {
    var values := PatternValues(t, rule);
    if forall j :: j in values ==> PatternsCompile(env, j) then
      p == BadPriority && rule.Obj? && "priority" in rule.fields && !rule.fields["priority"].Int?
    else exists k: nat :: FirstBad(env, values, k, p)
  }

  lemma {:induction false} ListProblem(env: Env, xs: seq<Json>)
    requires CheckList(env, xs).Some?
    ensures CheckList(env, xs).value == if exists k: nat :: FirstText(env, xs, k) then BadPattern else Crashed
  {
    if xs[0].Str? && env.compiles(xs[0].s) {
      ListProblem(env, xs[1..]);
      if k: nat :| FirstText(env, xs[1..], k) { assert FirstText(env, xs, k + 1); }
      if k: nat :| FirstText(env, xs, k) { assert FirstText(env, xs[1..], k - 1); }
    } else {
      if xs[0].Str? { assert FirstText(env, xs, 0); }
      if k: nat :| FirstText(env, xs, k) { assert k == 0; }
    }
  }

  lemma PatternProblem(env: Env, j: Json)
    requires CheckPatterns(env, j).Some?
    ensures !PatternsCompile(env, j)
    ensures CheckPatterns(env, j).value == if HasBadPattern(env, j) then BadPattern else Crashed
  {
    PatternsIff(env, j);
    if j.Arr? { ListProblem(env, j.items); }
  }

  lemma BusinessProblem(env: Env, t: string, rule: Json)
    requires Business(env, t, FieldsOf(rule)).Some?
    ensures RuleProblem(env, t, rule, Business(env, t, FieldsOf(rule)).value)
  {
    var m, values := FieldsOf(rule), PatternValues(t, rule);
    var p := Business(env, t, m).value;
    assert values[0] == Get(Conditions(m), "domains", Null) && values[1] == Get(Conditions(m), "destinations", Null);
    assert values[2] == if t == "rtp" then ToolNames(m) else Null;
    PatternsIff(env, values[0]);
    PatternsIff(env, values[1]);
    PatternsIff(env, values[2]);
    if CheckPatterns(env, values[0]).Some? {
      PatternProblem(env, values[0]);
      assert FirstBad(env, values, 0, p) && values[0] in values;
    } else if CheckPatterns(env, values[1]).Some? {
      PatternProblem(env, values[1]);
      assert FirstBad(env, values, 1, p) && values[1] in values;
    } else if CheckPatterns(env, values[2]).Some? {
      PatternProblem(env, values[2]);
      assert FirstBad(env, values, 2, p) && values[2] in values;
    }
  }

  /** The first rule that repeats an id or is not sound gives the reason, its id first. */
  ghost predicate RuleToBlame(env: Env, rules: seq<(string, Json)>, i: nat, p: Problem) {
    && i < |rules| && UniqueIds(rules[..i]) && (forall k :: 0 <= k < i ==> SoundRule(env, rules[k].0, rules[k].1))
    && if exists k :: 0 <= k < i && SameKey(rules[k], rules[i])
       then p == DuplicateId(rules[i].0, IdOf(rules[i].1))
       else RuleProblem(env, rules[i].0, rules[i].1, p)
  }

  predicate SameKey(x: (string, Json), y: (string, Json)) {
    x.0 == y.0 && IdOf(x.1) == IdOf(y.1)
  }

  lemma {:induction false} BlamedRule(env: Env, rules: seq<(string, Json)>, n: nat, seen: set<string>) returns (i: nat)
    requires KnownTypes(rules) && n <= |rules| && UniqueIds(rules[..n])
    requires forall k :: 0 <= k < n ==> SoundRule(env, rules[k].0, rules[k].1)
    requires seen == set k | 0 <= k < n :: RuleKey(rules[k].0, IdOf(rules[k].1))
    requires CheckRules(env, rules[n..], seen).Some?
    ensures RuleToBlame(env, rules, i, CheckRules(env, rules[n..], seen).value)
    decreases |rules| - n
  {
    var (t, rule) := rules[n];
    var key := RuleKey(t, IdOf(rule));
    SeenBefore(rules, n, seen);
    if key in seen {
      i := n;
    } else if Business(env, t, FieldsOf(rule)).Some? {
      BusinessProblem(env, t, rule);
      i := n;
    } else {
      BusinessIff(env, t, rule);
      assert rules[n..][1..] == rules[n + 1..];
      UniqueSoFar(rules, n);
      i := BlamedRule(env, rules, n + 1, seen + {key});
    }
  }

  lemma SeenBefore(rules: seq<(string, Json)>, n: nat, seen: set<string>)
    requires KnownTypes(rules) && n < |rules|
    requires seen == set k | 0 <= k < n :: RuleKey(rules[k].0, IdOf(rules[k].1))
    ensures RuleKey(rules[n].0, IdOf(rules[n].1)) in seen <==> exists k :: 0 <= k < n && SameKey(rules[k], rules[n])
  {
    var key := RuleKey(rules[n].0, IdOf(rules[n].1));
    forall k | 0 <= k < n ensures RuleKey(rules[k].0, IdOf(rules[k].1)) == key <==> SameKey(rules[k], rules[n]) {
      if RuleKey(rules[k].0, IdOf(rules[k].1)) == key {
        RuleKeyInjective(rules[k].0, IdOf(rules[k].1), rules[n].0, IdOf(rules[n].1));
      }
    }
  }

  lemma UniqueSoFar(rules: seq<(string, Json)>, n: nat)
    requires n < |rules| && UniqueIds(rules[..n]) && !exists k :: 0 <= k < n && SameKey(rules[k], rules[n])
    ensures UniqueIds(rules[..n + 1])
  {
    var s := rules[..n + 1];
    forall i, j | 0 <= i < j < |s| ensures (s[i].0, IdOf(s[i].1)) != (s[j].0, IdOf(s[j].1)) {
      if j < n { assert s[i] == rules[..n][i] && s[j] == rules[..n][j]; } else { assert !SameKey(rules[i], rules[n]); }
    }
  }

  /** A document that is well sized and of the schema is rejected for its first bad rule. */
  lemma RuleRejected(env: Env, raw: Json) returns (i: nat)
    requires Normalize(raw).Ok? && Validate(env, raw).Invalid?
    requires var d := Normalize(raw).value;
      env.size(d) <= env.maxBytes && Conforms(POLICY, d) && 1 <= RuleTotal(d) <= env.maxRules
    ensures RuleToBlame(env, IterRules(Normalize(raw).value), i, Validate(env, raw).why)
  {
    var d := Normalize(raw).value;
    SchemaMeaning.SchemaValidIff(d);
    TotalRules(d);
    var types := POLICY_TYPES;
    TypesAreKnown(d, types);
    var rules := RulesOfTypes(d, types);
    assert rules[0..] == rules && rules[..0] == [];
    i := BlamedRule(env, rules, 0, {});
  }
}
