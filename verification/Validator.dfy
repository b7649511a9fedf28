/** Schema and business rules (controlplane/policy_compiler/validator.py, controlplane/schema/policy.schema.json). */
module Validator {
  import opened Text
  import opened Json
  import opened Normalizer

  /** Python's re.compile, the size of the compact JSON text, and the two limits. */
  datatype Env = Env(compiles: string -> bool, size: Json -> nat, maxRules: nat, maxBytes: nat)

  datatype Problem =
    | TooBig
    | SchemaViolation
    | TooManyRules
    | NoRulesAtAll
    | DuplicateId(policyType: string, id: string)
    | BadPattern
    | BadPriority
    | Crashed

  datatype Verdict = Valid(doc: Json) | Invalid(why: Problem)

  // ---------- the schema ----------

  predicate IsStr(j: Json) {
    j.Str?
  }

  predicate NonEmptyStr(j: Json) {
    j.Str? && j.s != ""
  }

  predicate StrArray(j: Json) {
    j.Arr? && forall x :: x in j.items ==> x.Str?
  }

  predicate NonEmptyStrArray(j: Json) {
    j.Arr? && forall x :: x in j.items ==> NonEmptyStr(x)
  }

  /** JSON Schema's "integer": an integer, or a float without a fraction. */
  predicate IntegerAtLeast(j: Json, least: int) {
    match j
    case Int(n) => n >= least
    case Float(r) => r == r.Floor as real && r.Floor >= least
    case _ => false
  }

  predicate McpConfigOk(j: Json) {
    && j.Obj? && j.fields.Keys <= {"tool_names", "message_types"}
    && forall k :: k in j.fields ==> StrArray(j.fields[k])
  }

  predicate InspectOk(j: Json) {
    && j.Obj? && j.fields.Keys <= {"dlp", "mcp"}
    && ("dlp" in j.fields ==> j.fields["dlp"].Bool?)
    && ("mcp" in j.fields ==> j.fields["mcp"].Bool? || McpConfigOk(j.fields["mcp"]))
  }

  /** The conditions object of one block type; only rtp admits further keys. */
  predicate ConditionsOk(t: string, j: Json) {
    && j.Obj?
    && j.fields.Keys <= (
         if t == "rtp" then j.fields.Keys
         else if t == "bypass" then {"domains"}
         else if t == "egress_ip" then {"egress_ips", "destinations", "protocols"}
         else {"domains", "browser_profiles", "user_agents"})
    && forall k :: k in j.fields ==> ConditionFieldOk(t, k, j.fields[k])
  }

  predicate ConditionFieldOk(t: string, k: string, v: Json) {
    if k == "domains" then NonEmptyStrArray(v)
    else if t == "rtp" then
      (k == "methods" ==> NonEmptyStrArray(v))
      && (k == "groups" || k == "saml_groups" ==> StrArray(v))
      && (k == "content_direction" ==> v.Str? && v.s in {"upload", "download", "both"})
    else if t == "egress_ip" then NonEmptyStrArray(v)
    else StrArray(v)
  }

  function AllowedKeys(t: string): set<string> {
    {"id", "name", "priority", "conditions", "action", "message"} + (
      if t == "rtp" then {"inspect", "scan_fallback"}
      else if t == "bypass" then {"ssl_mode"}
      else if t == "egress_ip" then {}
      else {"isolation"})
  }

  function RequiredKeys(t: string): set<string> {
    if t == "bypass" then {"id", "ssl_mode", "action"} else {"id", "action"}
  }

  predicate RuleFieldOk(t: string, k: string, v: Json) {
    if k == "id" then NonEmptyStr(v)
    else if k == "name" || k == "message" then IsStr(v)
    else if k == "priority" then IntegerAtLeast(v, 0)
    else if k == "action" then v.Str? && IsTerminal(v.s)
    else if k == "conditions" then ConditionsOk(t, v)
    else if k == "inspect" then InspectOk(v)
    else if k == "scan_fallback" then v.Str? && v.s in {"fallback_allow", "fallback_alert", "fallback_block"}
    else if k == "ssl_mode" then v.Str? && v.s in {"dnd", "decrypt"}
    else v.Str? && v.s in {"none", "rbi", "native"}
  }

  predicate RuleSchema(t: string, rule: Json) {
    && rule.Obj?
    && RequiredKeys(t) <= rule.fields.Keys <= AllowedKeys(t)
    && forall k :: k in rule.fields ==> RuleFieldOk(t, k, rule.fields[k])
  }

  predicate BlockSchema(t: string, block: Json) {
    && block.Obj? && block.fields.Keys == {"rules"} && block.fields["rules"].Arr?
    && forall r :: r in block.fields["rules"].items ==> RuleSchema(t, r)
  }

  predicate SchemaValid(doc: Json) {
    && doc.Obj?
    && {"default_action", "policies"} <= doc.fields.Keys <= {"tenant_id", "default_action", "policies"}
    && ("tenant_id" in doc.fields ==> IntegerAtLeast(doc.fields["tenant_id"], 1))
    && doc.fields["default_action"].Str? && IsTerminal(doc.fields["default_action"].s)
    && doc.fields["policies"].Obj?
    && var ps := doc.fields["policies"].fields;
       && ps != map[]
       && ps.Keys <= {"rtp", "bypass", "egress_ip", "enterprise_browser"}
       && forall t :: t in ps ==> BlockSchema(t, ps[t])
  }

  // ---------- business rules ----------

  /** The loop of _validate_regex_patterns over a list: re.compile raises a TypeError on what is not a text. */
  function CheckList(env: Env, xs: seq<Json>): Option<Problem> {
    if xs == [] then None
    else if !xs[0].Str? then Some(Crashed)
    else if !env.compiles(xs[0].s) then Some(BadPattern)
    else CheckList(env, xs[1..])
  }

  /** The same over any value of the document: a text yields its characters, an object its keys. */
  function CheckPatterns(env: Env, j: Json): Option<Problem> {
    if !Truthy(j) then None
    else
      match j
      case Arr(xs) => CheckList(env, xs)
      case Str(s) => if exists c :: c in s && !env.compiles([c]) then Some(BadPattern) else None
      case Obj(m) => if exists k :: k in m && !env.compiles(k) then Some(BadPattern) else None
      case _ => Some(Crashed)
  }

  function Conditions(rule: map<string, Json>): map<string, Json> {
    var c := Get(rule, "conditions", Null);
    if c.Obj? then c.fields else map[]
  }

  /** The tool-name patterns of an rtp rule. */
  function ToolNames(rule: map<string, Json>): Json {
    var i := Get(rule, "inspect", Null);
    if i.Obj? && "mcp" in i.fields && i.fields["mcp"].Obj? then Get(i.fields["mcp"].fields, "tool_names", Null)
    else Null
  }

  function OrElse(a: Option<Problem>, b: Option<Problem>): Option<Problem> {
    if a.Some? then a else b
  }

  /** _validate_rule_business. */
  function Business(env: Env, t: string, rule: map<string, Json>): Option<Problem> {
    OrElse(CheckPatterns(env, Get(Conditions(rule), "domains", Null)),
    OrElse(CheckPatterns(env, Get(Conditions(rule), "destinations", Null)),
    OrElse(if t == "rtp" then CheckPatterns(env, ToolNames(rule)) else None,
           if "priority" in rule && !rule["priority"].Int? then Some(BadPriority) else None)))
  }

  /** The f-string key of the duplicate check. */
  function RuleKey(t: string, id: string): string {
    t + ":" + id
  }

  function IdOf(rule: Json): string {
    if rule.Obj? then StrField(rule.fields, "id") else ""
  }

  function FieldsOf(rule: Json): map<string, Json> {
    if rule.Obj? then rule.fields else map[]
  }

  /** The loop over all rules with its growing set of seen keys. */
  function CheckRules(env: Env, rules: seq<(string, Json)>, seen: set<string>): Option<Problem> {
    if rules == [] then None
    else
      var (t, rule) := rules[0];
      var key := RuleKey(t, IdOf(rule));
      if key in seen then Some(DuplicateId(t, IdOf(rule)))
      else OrElse(Business(env, t, FieldsOf(rule)), CheckRules(env, rules[1..], seen + {key}))
  }

  /** validate_policy_document on an already normalised document. */
  function ValidateNormal(env: Env, doc: Json): Verdict {
    var rules := IterRules(doc);
    if env.size(doc) > env.maxBytes then Invalid(TooBig)
    else if !SchemaValid(doc) then Invalid(SchemaViolation)
    else if |rules| > env.maxRules then Invalid(TooManyRules)
    else if |rules| == 0 then Invalid(NoRulesAtAll)
    else
      match CheckRules(env, rules, {})
      case Some(p) => Invalid(p)
      case None => Valid(doc)
  }

  /** validate_policy_document with its default normalisation. */
  function Validate(env: Env, doc: Json): Verdict {
    match Normalize(doc)
    case Crash => Invalid(Crashed)
    case Ok(d) => ValidateNormal(env, d)
  }

  method ValidateDocument(env: Env, raw: Json) returns (v: Verdict)
    ensures v == Validate(env, raw)
  {
    var n := NormalizeDocument(raw);
    if n.Crash? { return Invalid(Crashed); }
    var doc := n.value;
    if env.size(doc) > env.maxBytes { return Invalid(TooBig); }
    if !SchemaValid(doc) { return Invalid(SchemaViolation); }
    var rules := IterRulesLoop(doc);
    if |rules| > env.maxRules { return Invalid(TooManyRules); }
    if |rules| == 0 { return Invalid(NoRulesAtAll); }
    var seenIds: set<string> := {};
    for i := 0 to |rules|
      invariant CheckRules(env, rules, {}) == CheckRules(env, rules[i..], seenIds)
    {
      var (t, rule) := rules[i];
      var key := RuleKey(t, IdOf(rule));
      if key in seenIds { return Invalid(DuplicateId(t, IdOf(rule))); }
      seenIds := seenIds + {key};
      var problem := Business(env, t, FieldsOf(rule));
      if problem.Some? { return Invalid(problem.value); }
    }
    var policies := doc.fields["policies"].fields;
    for i := 0 to |POLICY_TYPES| {
      // The schema has already checked what this last loop of the source checks.
      assert POLICY_TYPES[i] in policies ==> policies[POLICY_TYPES[i]].Obj?;
    }
    return Valid(doc);
  }

  // ---------- properties ----------

  /** Validating again what validation returned gives the same answer. */
  lemma ValidateAgain(env: Env, doc: Json)
    requires Validate(env, doc).Valid?
    ensures Validate(env, Validate(env, doc).doc) == Validate(env, doc)
  {
    NormalizeIdempotent(doc);
    var d := Normalize(doc).value;
    assert Normalize(d) == Normalize(doc) && Validate(env, doc) == ValidateNormal(env, d);
  }

  /** Keys "type:id" of block types are equal only for equal pairs, as no type name holds a colon. */
  lemma RuleKeyInjective(t: string, id: string, t': string, id': string)
    requires ':' !in t && ':' !in t' && RuleKey(t, id) == RuleKey(t', id')
    ensures t == t' && id == id'
  {
    var k, k' := RuleKey(t, id), RuleKey(t', id');
    assert k[|t|] == ':' && k'[|t'|] == ':';
    assert forall i :: 0 <= i < |t| ==> k[i] == t[i] && t[i] != ':';
    assert forall i :: 0 <= i < |t'| ==> k'[i] == t'[i] && t'[i] != ':';
    assert t == k[..|t|] == k'[..|t'|] == t';
    assert id == k[|t| + 1..] == k'[|t'| + 1..] == id';
  }

  predicate KnownTypes(rules: seq<(string, Json)>) {
    forall i :: 0 <= i < |rules| ==> rules[i].0 in POLICY_TYPES
  }

  predicate UniqueIds(rules: seq<(string, Json)>) {
    forall i, j :: 0 <= i < j < |rules| ==> (rules[i].0, IdOf(rules[i].1)) != (rules[j].0, IdOf(rules[j].1))
  }

  /** The duplicate loop and the business checks pass exactly on unique ids and clean rules. */
  lemma {:induction false} CheckRulesMeaning(env: Env, rules: seq<(string, Json)>, seen: set<string>)
    requires KnownTypes(rules)
    ensures CheckRules(env, rules, seen).None? <==>
      && UniqueIds(rules)
      && (forall i :: 0 <= i < |rules| ==> RuleKey(rules[i].0, IdOf(rules[i].1)) !in seen)
      && (forall i :: 0 <= i < |rules| ==> Business(env, rules[i].0, FieldsOf(rules[i].1)).None?)
  {
    if rules != [] {
      var rest := rules[1..];
      var key := RuleKey(rules[0].0, IdOf(rules[0].1));
      CheckRulesMeaning(env, rest, seen + {key});
      UniqueIdsFirst(rules);
      assert forall i :: 1 <= i < |rules| ==> rules[i] == rest[i - 1];
    }
  }

  /** Ids are unique when those of the rest are and no key of the rest is that of the first rule. */
  lemma UniqueIdsFirst(rules: seq<(string, Json)>)
    requires KnownTypes(rules) && rules != []
    ensures var rest, key := rules[1..], RuleKey(rules[0].0, IdOf(rules[0].1));
      UniqueIds(rules) <==>
        UniqueIds(rest) && forall i :: 0 <= i < |rest| ==> RuleKey(rest[i].0, IdOf(rest[i].1)) != key
  {
    var rest, key := rules[1..], RuleKey(rules[0].0, IdOf(rules[0].1));
    assert forall i :: 1 <= i < |rules| ==> rules[i] == rest[i - 1];
    forall i | 0 <= i < |rest|
      ensures RuleKey(rest[i].0, IdOf(rest[i].1)) == key <==>
        (rest[i].0, IdOf(rest[i].1)) == (rules[0].0, IdOf(rules[0].1))
    {
      if RuleKey(rest[i].0, IdOf(rest[i].1)) == key {
        RuleKeyInjective(rest[i].0, IdOf(rest[i].1), rules[0].0, IdOf(rules[0].1));
      }
    }
    if UniqueIds(rest) && forall i :: 0 <= i < |rest| ==> RuleKey(rest[i].0, IdOf(rest[i].1)) != key {
      forall i, j | 0 <= i < j < |rules| ensures (rules[i].0, IdOf(rules[i].1)) != (rules[j].0, IdOf(rules[j].1)) {
        if i == 0 {
          assert rules[j] == rest[j - 1];
        } else {
          assert rules[i] == rest[i - 1] && rules[j] == rest[j - 1];
        }
      }
    }
  }

  lemma {:induction false} TypesAreKnown(doc: Json, types: seq<string>)
    requires forall t :: t in types ==> t in POLICY_TYPES
    ensures KnownTypes(RulesOfTypes(doc, types))
  {
    if types != [] { TypesAreKnown(doc, types[1..]); }
  }

  ghost predicate BlockClean(doc: Json, t: string) {
    forall r :: r in BlockRules(doc, t) ==> RuleSchema(t, r)
  }

  ghost predicate SchemaRules(rules: seq<(string, Json)>) {
    forall i :: 0 <= i < |rules| ==> RuleSchema(rules[i].0, rules[i].1)
  }

  lemma SchemaOfBlock(doc: Json, t: string)
    requires SchemaValid(doc)
    ensures BlockClean(doc, t)
  {
    var ps := doc.fields["policies"].fields;
    if t in ps { assert BlockSchema(t, ps[t]); }
  }

  lemma {:induction false} SchemaOfEachRule(doc: Json, types: seq<string>)
    requires forall t :: t in types ==> BlockClean(doc, t)
    ensures SchemaRules(RulesOfTypes(doc, types))
  {
    if types != [] {
      SchemaOfEachRule(doc, types[1..]);
      var rules, block := RulesOfTypes(doc, types), BlockRules(doc, types[0]);
      assert BlockClean(doc, types[0]);
      forall i | 0 <= i < |rules| ensures RuleSchema(rules[i].0, rules[i].1) {
        if i < |block| {
          assert rules[i] == (types[0], block[i]) && block[i] in block;
        } else {
          assert rules[i] == RulesOfTypes(doc, types[1..])[i - |block|];
        }
      }
    }
  }

  /** What validation has established for every rule that reaches the compiler. */
  ghost predicate CleanRule(t: string, rule: Json) {
    && t in POLICY_TYPES && RuleSchema(t, rule)
    && ("priority" in rule.fields ==> rule.fields["priority"].Int?)
  }

  ghost predicate CleanRules(rules: seq<(string, Json)>) {
    forall i :: 0 <= i < |rules| ==> CleanRule(rules[i].0, rules[i].1)
  }

  lemma AcceptedRules(env: Env, rules: seq<(string, Json)>)
    requires KnownTypes(rules) && CheckRules(env, rules, {}).None?
    requires SchemaRules(rules)
    ensures UniqueIds(rules) && CleanRules(rules)
  {
    CheckRulesMeaning(env, rules, {});
    forall i | 0 <= i < |rules| ensures CleanRule(rules[i].0, rules[i].1) {
      assert Business(env, rules[i].0, FieldsOf(rules[i].1)).None?;
    }
  }

  /** A validated document has unique ids per block, between 1 and the maximum number of rules, all of them clean. */
  lemma ValidMeans(env: Env, doc: Json)
    requires Validate(env, doc).Valid?
    ensures var d := Validate(env, doc).doc;
      && SchemaValid(d) && 1 <= |IterRules(d)| <= env.maxRules
      && UniqueIds(IterRules(d)) && CleanRules(IterRules(d))
  {
    var d := Validate(env, doc).doc;
    var types := POLICY_TYPES;
    TypesAreKnown(d, types);
    forall t { SchemaOfBlock(d, t); }
    SchemaOfEachRule(d, types);
    AcceptedRules(env, RulesOfTypes(d, types));
  }
}
