/** From a validated document to the policy in memory: nothing is lost, and legacy documents keep their meaning. */
module Pipeline {
  import opened Text
  import opened Json
  import opened Policy
  import opened Ast
  import opened TenantDecide
  import opened Normalizer
  import opened Validator
  import opened PolicyDb
  import opened LoadDb

  /** The record a load builds for one rule of a document. */
  function RecordOf(t: string, rule: Json): RuleRecord {
    Hydrate(RowOf(t, rule))
  }

  function RecordsOf(rules: seq<(string, Json)>): seq<RuleRecord> {
    seq(|rules|, i requires 0 <= i < |rules| => RecordOf(rules[i].0, rules[i].1))
  }

  /** Sorted as the load returns them: by type, then priority, then id. */
  predicate RecordsInOrder(rs: seq<RuleRecord>) {
    forall i, j :: 0 <= i < j < |rs| ==>
      !Less(rs[j].policyType, rs[i].policyType) && (rs[i].policyType == rs[j].policyType ==> !Before(rs[j], rs[i]))
  }

  /** `scan` is what a load may read from the compiled file of the validated document `d`. */
  ghost predicate Compiles(env: Env, doc: Json, d: Json, scan: seq<Row>) {
    && Validate(env, doc) == Valid(d)
    && InsertAll(map[], RowsOf(IterRules(d))).Some?
    && IsScan(InsertAll(map[], RowsOf(IterRules(d))).value, scan)
  }

  /** The meta rows a load looks at. */
  ghost predicate MetaReads(meta: map<string, MetaValue>, default: string) {
    && PlainMeta(meta, "schema_version") == "2" && OrderOf(meta) == EVALUATION_ORDER
    && PlainMeta(meta, "default_action") == default
  }

  function DefaultOf(d: Json): string {
    StrField(FieldsOf(d), "default_action")
  }

  lemma CompiledMeta(d: Json)
    requires SchemaValid(d)
    ensures MetaReads(MetaOf(d), DefaultOf(d)) && MetaOf(d)["rule_count"] == Count(|IterRules(d)|)
  {}

  /** What a load of a current-schema file returns. */
  lemma LoadResult(rx: Regex, meta: map<string, MetaValue>, default: string, scan: seq<Row>)
    requires MetaReads(meta, default)
    ensures Load(rx, meta, scan) ==
      if GroupCompiles(rx, HydrateAll(scan))
      then Some(PolicyOf(MapTerminalAction(default), EVALUATION_ORDER, HydrateAll(scan))) else None
  {}

  lemma ValidIsSchemaValid(env: Env, doc: Json)
    requires Validate(env, doc).Valid?
    ensures SchemaValid(Validate(env, doc).doc)
  {
    ValidMeans(env, doc);
  }

  /** A load succeeds exactly when every domain and destination pattern of the document compiles in Go. */
  lemma LoadSucceedsIff(env: Env, rx: Regex, doc: Json, d: Json, scan: seq<Row>)
    requires Compiles(env, doc, d, scan)
    ensures Load(rx, MetaOf(d), scan).Some? <==> GroupCompiles(rx, RecordsOf(IterRules(d)))
  {
    ScannedRecords(env, doc, d, scan);
    ValidIsSchemaValid(env, doc);
    CompiledMeta(d);
    LoadResult(rx, MetaOf(d), DefaultOf(d), scan);
  }

  /** The scanned rows are the rows of the document, each once. */
  lemma ScannedRecords(env: Env, doc: Json, d: Json, scan: seq<Row>)
    requires Compiles(env, doc, d, scan)
    ensures |scan| == |IterRules(d)|
    ensures UniqueKeys(HydrateAll(scan)) && UniqueKeys(RecordsOf(IterRules(d)))
    ensures forall r :: r in HydrateAll(scan) <==> r in RecordsOf(IterRules(d))
  {
    var rows := RowsOf(IterRules(d));
    ScannedRows(env, doc, d, scan);
    HydratedKeys(scan);
    HydratedKeys(rows);
    assert HydrateAll(rows) == RecordsOf(IterRules(d));
    SameRows(scan, rows);
  }

  lemma ScannedRows(env: Env, doc: Json, d: Json, scan: seq<Row>)
    requires Compiles(env, doc, d, scan)
    ensures var rows := RowsOf(IterRules(d));
      && DistinctKeys(rows) && DistinctKeys(scan) && |scan| == |rows| == |IterRules(d)|
      && forall r :: r in scan <==> r in rows
  {
    CompileSucceedsIff(env, doc);
    ValidMeans(env, doc);
    RowKeys(IterRules(d));
    ScanIsTable(RowsOf(IterRules(d)), scan);
  }

  lemma SameRows(a: seq<Row>, b: seq<Row>)
    requires forall r :: r in a <==> r in b
    ensures forall x :: x in HydrateAll(a) <==> x in HydrateAll(b)
  {
    SameHydrated(a, b);
    SameHydrated(b, a);
  }

  lemma SameHydrated(a: seq<Row>, b: seq<Row>)
    requires forall r :: r in a ==> r in b
    ensures forall x :: x in HydrateAll(a) ==> x in HydrateAll(b)
  {
    forall x | x in HydrateAll(a) ensures x in HydrateAll(b) {
      var i :| 0 <= i < |a| && HydrateAll(a)[i] == x;
      assert a[i] in b;
      var j :| 0 <= j < |b| && b[j] == a[i];
      assert HydrateAll(b)[j] == x;
    }
  }

  /** A text field of a document, "" when it is absent. */
  ghost predicate TextIs(m: map<string, Json>, key: string, s: string) {
    if key in m then m[key] == Str(s) else s == ""
  }

  function Strs(xs: seq<string>): Json {
    Arr(seq(|xs|, i requires 0 <= i < |xs| => Str(xs[i])))
  }

  /** A list of texts in a document, [] when it is absent; what Go makes of a value of another shape is left open. */
  ghost predicate ListIs(m: map<string, Json>, key: string, xs: seq<string>) {
    if key in m then StrArray(m[key]) ==> m[key] == Strs(xs) else xs == []
  }

  ghost predicate SaysTexts(t: string, m: map<string, Json>, r: RuleRecord) {
    && r.policyType == t && "id" in m && m["id"] == Str(r.id) && "action" in m && m["action"] == Str(r.action)
    && (if "priority" in m then m["priority"] == Int(r.priority) else r.priority == 0)
    && TextIs(m, "name", r.name) && TextIs(m, "message", r.message) && TextIs(m, "scan_fallback", r.scanFallback)
    && TextIs(m, "ssl_mode", r.sslMode) && TextIs(m, "isolation", r.isolation)
  }

  ghost predicate SaysConditions(c: map<string, Json>, x: RuleConditions) {
    && ListIs(c, "domains", x.domains) && ListIs(c, "methods", x.methods) && ListIs(c, "groups", x.groups)
    && ListIs(c, "saml_groups", x.samlGroups) && ListIs(c, "egress_ips", x.egressIps)
    && ListIs(c, "destinations", x.destinations) && ListIs(c, "protocols", x.protocols)
  }

  ghost predicate SaysInspect(i: Json, x: InspectConfig) {
    && (x.dlp <==> i.Obj? && "dlp" in i.fields && i.fields["dlp"] == Bool(true))
    && x.mcp == if i.Obj? && "mcp" in i.fields then Some(i.fields["mcp"]) else None
  }

  /** The record says what the rule of the document says, with the defaults filled in. */
  ghost predicate Says(t: string, rule: Json, r: RuleRecord) {
    && rule.Obj? && SaysTexts(t, rule.fields, r) && SaysConditions(Conditions(rule.fields), r.conditions)
    && SaysInspect(Get(rule.fields, "inspect", Null), r.inspect)
  }

  lemma ListDecodes(m: map<string, Json>, key: string)
    ensures ListIs(m, key, StringList(m, key))
  {
    if key in m && StrArray(m[key]) {
      var xs := m[key].items;
      assert forall i :: 0 <= i < |xs| ==> xs[i] in xs;
    }
  }

  lemma RecordSaysTexts(t: string, rule: Json)
    requires CleanRule(t, rule)
    ensures SaysTexts(t, rule.fields, RecordOf(t, rule))
  {
    var m := rule.fields;
    assert "id" in RequiredKeys(t) && "action" in RequiredKeys(t);
    forall k | k in m ensures RuleFieldOk(t, k, m[k]) {}
  }

  lemma RecordSaysConditions(t: string, rule: Json)
    ensures SaysConditions(Conditions(FieldsOf(rule)), RecordOf(t, rule).conditions)
  {
    var c := Conditions(FieldsOf(rule));
    ListDecodes(c, "domains");
    ListDecodes(c, "methods");
    ListDecodes(c, "groups");
    ListDecodes(c, "saml_groups");
    ListDecodes(c, "egress_ips");
    ListDecodes(c, "destinations");
    ListDecodes(c, "protocols");
  }

  lemma RecordSaysInspect(t: string, rule: Json)
    ensures SaysInspect(Get(FieldsOf(rule), "inspect", Null), RecordOf(t, rule).inspect)
  {}

  /** Compiling and loading a rule that validation let through keeps all it says. */
  lemma RecordSays(t: string, rule: Json)
    requires CleanRule(t, rule)
    ensures Says(t, rule, RecordOf(t, rule))
  {
    RecordSaysTexts(t, rule);
    RecordSaysConditions(t, rule);
    RecordSaysInspect(t, rule);
  }

  /** Every rule of a validated document has its record, and every record its rule. */
  ghost predicate SayTheSame(rules: seq<(string, Json)>, records: seq<RuleRecord>) {
    && (forall i :: 0 <= i < |rules| ==> exists r :: r in records && Says(rules[i].0, rules[i].1, r))
    && (forall r :: r in records ==> exists i :: 0 <= i < |rules| && Says(rules[i].0, rules[i].1, r))
  }

  lemma RecordsSay(rules: seq<(string, Json)>, records: seq<RuleRecord>)
    requires CleanRules(rules) && forall r :: r in records <==> r in RecordsOf(rules)
    ensures SayTheSame(rules, records)
  {
    forall i | 0 <= i < |rules| ensures exists r :: r in records && Says(rules[i].0, rules[i].1, r) {
      assert CleanRule(rules[i].0, rules[i].1);
      RecordSays(rules[i].0, rules[i].1);
      var r := RecordsOf(rules)[i];
      assert r in RecordsOf(rules) && r == RecordOf(rules[i].0, rules[i].1);
      assert r in records && Says(rules[i].0, rules[i].1, r);
    }
    forall r | r in records ensures exists i :: 0 <= i < |rules| && Says(rules[i].0, rules[i].1, r) {
      var i :| 0 <= i < |rules| && RecordsOf(rules)[i] == r;
      RecordSays(rules[i].0, rules[i].1);
    }
  }

  /** Compile then load is lossless: exactly the document's rules, each once, in order; all three counts agree. */
  lemma CompileLoadLossless(env: Env, rx: Regex, doc: Json, d: Json, scan: seq<Row>)
    requires Compiles(env, doc, d, scan) && Load(rx, MetaOf(d), scan).Some?
    ensures var tp := Load(rx, MetaOf(d), scan).value;
      && UniqueKeys(tp.rules) && RecordsInOrder(tp.rules)
      && (forall r :: r in tp.rules <==> r in RecordsOf(IterRules(d))) && SayTheSame(IterRules(d), tp.rules)
      && MetaOf(d)["rule_count"] == Count(|tp.rules|)
      && |tp.rules| == |IterRules(d)| == TotalSize(AstOf(tp.rules), POLICY_TYPES)
      && tp == PolicyOf(MapTerminalAction(DefaultOf(d)), EVALUATION_ORDER, tp.rules)
  {
    ValidMeans(env, doc);
    ScannedRecords(env, doc, d, scan);
    RecordsSay(IterRules(d), HydrateAll(scan));
    ValidIsSchemaValid(env, doc);
    CompiledMeta(d);
    LoadResult(rx, MetaOf(d), DefaultOf(d), scan);
    ScanOrder(scan);
    ScannedSize(d, HydrateAll(scan));
  }

  lemma ScanOrder(scan: seq<Row>)
    requires InOrder(scan)
    ensures RecordsInOrder(HydrateAll(scan))
  {
    forall a, b { OrderOfRecords(a, b); }
  }

  lemma ScannedSize(d: Json, rules: seq<RuleRecord>)
    requires forall r :: r in rules ==> r in RecordsOf(IterRules(d))
    ensures TotalSize(AstOf(rules), POLICY_TYPES) == |rules|
  {
    var types := POLICY_TYPES;
    TypesAreKnown(d, types);
    RecordTypes(IterRules(d));
    GroupsPartition(rules, types);
    AstSize(rules, types);
  }

  lemma OrderOfRecords(a: Row, b: Row)
    ensures !SqlLess(b, a) ==> !Less(b.policyType, a.policyType)
    ensures !SqlLess(b, a) && a.policyType == b.policyType ==> !Before(Hydrate(b), Hydrate(a))
  {}

  lemma RecordTypes(rules: seq<(string, Json)>)
    requires KnownTypes(rules)
    ensures forall r :: r in RecordsOf(rules) ==> r.policyType in POLICY_TYPES
  {
    forall r | r in RecordsOf(rules) ensures r.policyType in POLICY_TYPES {
      var i :| 0 <= i < |rules| && RecordsOf(rules)[i] == r;
    }
  }
}

/** Legacy documents answer as the older engine did (controlplane normaliser and compiler against policy/policy.go). */
module Migration {
  import opened Text
  import opened Json
  import opened Policy
  import opened Ast
  import opened TenantDecide
  import opened Engine
  import opened Normalizer
  import opened Validator
  import opened PolicyDb
  import opened LoadDb
  import opened Pipeline
  import opened Selection

  /** The rules of a legacy document. */
  function LegacyRules(doc: Json): seq<Json> {
    if doc.Obj? && "rules" in doc.fields && doc.fields["rules"].Arr? then doc.fields["rules"].items else []
  }

  /** The engine's view of one legacy rule. */
  function EngineRuleOf(rx: Regex, rule: Json): EngineRule {
    var m := FieldsOf(rule);
    var domains := StringList(Conditions(m), "domains");
    EngineRule(StrField(m, "id"), domains, StringList(Conditions(m), "methods"), Engine.Compiled(rx, domains),
      StrField(m, "action"), StrField(m, "message"))
  }

  function EngineRulesOf(rx: Regex, rules: seq<Json>): seq<EngineRule> {
    seq(|rules|, i requires 0 <= i < |rules| => EngineRuleOf(rx, rules[i]))
  }

  /** The engine loaded from the same default and rules; an omitted default is allow. */
  function EngineOf(rx: Regex, doc: Json, rules: seq<Json>): Config {
    var default := StrField(FieldsOf(doc), "default_action");
    Config(if default == "" then "allow" else default, EngineRulesOf(rx, rules))
  }

  predicate PreservedAction(a: string) {
    a in {"allow", "block", "coach", "inspect_dlp", "inspect_mcp"}
  }

  /** A rule the older engine and the compiled policy read alike. */
  predicate FaithfulRule(rx: Regex, rule: Json) {
    && rule.Obj?
    && "action" in rule.fields && rule.fields["action"].Str? && PreservedAction(rule.fields["action"].s)
    && "inspect" !in rule.fields
    && (var c := DecodeConditions(Obj(Conditions(rule.fields)));
        (c.domains == [] ==> c.destinations == []) && AllCompile(rx, c.domains) && AllCompile(rx, c.destinations))
  }

  predicate FaithfulDoc(rx: Regex, doc: Json) {
    && doc.Obj? && "policies" !in doc.fields
    && ("default_action" in doc.fields ==>
        doc.fields["default_action"].Str? && doc.fields["default_action"].s in {"allow", "block", "coach"})
    && forall i :: 0 <= i < |LegacyRules(doc)| ==> FaithfulRule(rx, LegacyRules(doc)[i])
  }

  /** The order in which the compiled policy tries the rules. */
  predicate Ascending(rules: seq<Json>) {
    forall i, j :: 0 <= i < j < |rules| ==> KeyBefore(rules[i], rules[j])
  }

  predicate KeyBefore(a: Json, b: Json) {
    var p, q := PriorityOf(FieldsOf(a)), PriorityOf(FieldsOf(b));
    p < q || (p == q && Less(IdOf(a), IdOf(b)))
  }

  /** The record of a legacy rule after migration, compilation and load. */
  function MigratedRecord(rule: Json): RuleRecord
    requires MigrateRule(rule).Ok?
  {
    RecordOf("rtp", MigrateRule(rule).value)
  }

  /** The mcp setting a migrated inspect_mcp rule carries. */
  function McpSetting(m: map<string, Json>): Json {
    if "mcp" in m && Truthy(m["mcp"]) then m["mcp"] else Bool(true)
  }

  /** The inspect object migration gives to a rule with action `a`. */
  function InspectSetting(m: map<string, Json>, a: string): Option<Json> {
    if Lower(a) == "inspect_dlp" then Some(Obj(map["dlp" := Bool(true)]))
    else if Lower(a) == "inspect_mcp" then Some(Obj(map["mcp" := McpSetting(m)]))
    else None
  }

  function ActionSetting(a: string): string {
    if Lower(a) == "inspect_dlp" || Lower(a) == "inspect_mcp" then "ALLOW" else NormalizeAction(a)
  }

  /** What migration changes: the action and the inspect object; ids, priorities, conditions and messages stay. */
  lemma MigratedFields(m: map<string, Json>)
    requires "action" in m && m["action"].Str? && "inspect" !in m
    ensures MigrateRule(Obj(m)).Ok?
    ensures var m', a := MigrateRule(Obj(m)).value.fields, m["action"].s;
      && (forall k :: k in {"id", "priority", "conditions", "message"} ==>
          (k in m <==> k in m') && (k in m ==> m'[k] == m[k]))
      && StrField(m', "action") == ActionSetting(a)
      && (if "inspect" in m' then Some(m'["inspect"]) else None) == InspectSetting(m, a)
  {}

  /** The record of a migrated rule, field by field. */
  lemma RecordFields(m: map<string, Json>)
    requires "action" in m && m["action"].Str? && "inspect" !in m
    ensures MigrateRule(Obj(m)).Ok?
    ensures var r, a := MigratedRecord(Obj(m)), m["action"].s;
      && r.id == StrField(m, "id") && r.policyType == "rtp" && r.priority == PriorityOf(m)
      && r.action == ActionSetting(a) && r.message == StrField(m, "message")
      && r.conditions == DecodeConditions(Obj(Conditions(m)))
      && r.inspect == DecodeInspect(InspectSetting(m, a))
  {
    MigratedFields(m);
    var m' := MigrateRule(Obj(m)).value.fields;
    assert Conditions(m') == Conditions(m);
  }

  /** A migrated rule with an inspection setting answers with that inspection and never falls through. */
  lemma InspectAction(m: map<string, Json>)
    requires "action" in m && m["action"].Str? && "inspect" !in m
    requires Lower(m["action"].s) == "inspect_dlp" || Lower(m["action"].s) == "inspect_mcp"
    requires Lower(m["action"].s) == "inspect_mcp" ==> McpSetting(m).Bool? || McpConfigOk(McpSetting(m))
    ensures MigrateRule(Obj(m)).Ok? && !IsContinue(MigratedRecord(Obj(m)))
    ensures Terminal(MigratedRecord(Obj(m))).action == Lower(m["action"].s)
  {
    RecordFields(m);
    TerminalName("ALLOW");
  }

  /** Without one it answers with what its normalised action maps to. */
  lemma PlainAction(m: map<string, Json>)
    requires "action" in m && m["action"].Str? && "inspect" !in m
    requires Lower(m["action"].s) != "inspect_dlp" && Lower(m["action"].s) != "inspect_mcp"
    requires IsTerminal(NormalizeAction(m["action"].s))
    ensures MigrateRule(Obj(m)).Ok?
    ensures var r, n := MigratedRecord(Obj(m)), NormalizeAction(m["action"].s);
      && (IsContinue(r) <==> n == "CONTINUE")
      && Terminal(r).action == if n == "BLOCK" then BLOCK else if n == "COACH" then COACH else ALLOW
  {
    RecordFields(m);
    TerminalName(NormalizeAction(m["action"].s));
  }

  lemma PreservedNames(a: string)
    ensures a == "allow" ==> NormalizeAction(a) == "ALLOW"
    ensures a == "block" ==> NormalizeAction(a) == "BLOCK"
    ensures a == "coach" ==> NormalizeAction(a) == "COACH"
    ensures a == "inspect_dlp" || a == "inspect_mcp" ==> Lower(a) == a
  {
    if a in {"allow", "block", "coach"} {
      assert Upper("allow") == "ALLOW";
      assert Upper("block") == "BLOCK";
      assert Upper("coach") == "COACH";
    }
  }

  /** An action survives migration, compilation and evaluation exactly when it is one of the five lower-case names. */
  lemma ActionPreservedIff(m: map<string, Json>)
    requires "action" in m && m["action"].Str? && "inspect" !in m
    requires MigrateRule(Obj(m)).Ok? && RuleSchema("rtp", MigrateRule(Obj(m)).value)
    ensures var r, a := MigratedRecord(Obj(m)), m["action"].s;
      !IsContinue(r) && Terminal(r).action == a <==> PreservedAction(a)
  {
    var a := m["action"].s;
    PreservedNames(a);
    MigratedSchema(m);
    if Lower(a) == "inspect_dlp" || Lower(a) == "inspect_mcp" {
      InspectAction(m);
    } else {
      PlainAction(m);
    }
  }

  lemma MigratedSchema(m: map<string, Json>)
    requires "action" in m && m["action"].Str? && "inspect" !in m
    requires MigrateRule(Obj(m)).Ok? && RuleSchema("rtp", MigrateRule(Obj(m)).value)
    ensures Lower(m["action"].s) == "inspect_mcp" ==> McpSetting(m).Bool? || McpConfigOk(McpSetting(m))
    ensures Lower(m["action"].s) !in {"inspect_dlp", "inspect_mcp"} ==> IsTerminal(NormalizeAction(m["action"].s))
  {
    MigratedFields(m);
    var m', a := MigrateRule(Obj(m)).value.fields, m["action"].s;
    assert RuleFieldOk("rtp", "action", m'["action"]);
    if Lower(a) == "inspect_mcp" {
      assert RuleFieldOk("rtp", "inspect", m'["inspect"]);
    }
  }

  // ---------- the two evaluators, rule by rule ----------

  /** A faithful, accepted legacy rule matches and answers alike in both evaluators. */
  lemma RuleAgrees(rx: Regex, rule: Json, domain: string, m: string)
    requires FaithfulRule(rx, rule) && MigrateRule(rule).Ok? && RuleSchema("rtp", MigrateRule(rule).value)
    ensures Eligible(rx, MigratedRecord(rule), domain, m) <==> RuleMatches(rx, EngineRuleOf(rx, rule), domain, m)
    ensures Terminal(MigratedRecord(rule)) == Outcome(EngineRuleOf(rx, rule).action, EngineRuleOf(rx, rule).message)
    ensures RuleCompiles(rx, MigratedRecord(rule))
  {
    RecordFields(rule.fields);
    ActionPreservedIff(rule.fields);
    AllCompiled(rx, StringList(Conditions(rule.fields), "domains"));
  }

  /** Rules that pass through migration and the schema. */
  ghost predicate Accepted(rx: Regex, rules: seq<Json>) {
    forall i :: 0 <= i < |rules| ==>
      FaithfulRule(rx, rules[i]) && MigrateRule(rules[i]).Ok? && RuleSchema("rtp", MigrateRule(rules[i]).value)
  }

  ghost function MigratedRecords(rx: Regex, rules: seq<Json>): seq<RuleRecord>
    requires Accepted(rx, rules)
  {
    seq(|rules|, i requires 0 <= i < |rules| => MigratedRecord(rules[i]))
  }

  /** A record and an engine rule that match and answer alike for one request. */
  ghost predicate Alike(rx: Regex, r: RuleRecord, e: EngineRule, domain: string, m: string) {
    && (Eligible(rx, r, domain, m) <==> RuleMatches(rx, e, domain, m))
    && Terminal(r) == Outcome(e.action, e.message)
  }

  /** First match among the records against first match in the engine, on lists that are alike entry by entry. */
  lemma {:induction false} FirstMatchAgrees(rx: Regex, rs: seq<RuleRecord>, es: seq<EngineRule>, domain: string,
                                            m: string)
    requires |rs| == |es| && forall i :: 0 <= i < |rs| ==> Alike(rx, rs[i], es[i], domain, m)
    ensures var f, e := FirstIn(rx, IndexAll(rs), domain, m), FirstMatch(rx, es, domain, m);
      && (f.None? <==> e.None?)
      && (f.Some? ==> Terminal(f.value) == Outcome(e.value.action, e.value.message))
  {
    if rs != [] {
      assert Alike(rx, rs[0], es[0], domain, m);
      IndexedMatchIsEligible(rx, rs[0], domain, m);
      FirstMatchAgrees(rx, rs[1..], es[1..], domain, m);
      assert IndexAll(rs)[1..] == IndexAll(rs[1..]);
    }
  }

  /** Sorting rows already in order changes nothing. */
  lemma {:induction false} SortOfSorted(s: seq<RuleRecord>)
    requires Sorted(s)
    ensures StableSort(s) == s
  {
    if s != [] {
      SortOfSorted(s[1..]);
      if |s| > 1 { assert !Before(s[1], s[0]); }
    }
  }

  lemma {:induction false} GroupOfOneType(s: seq<RuleRecord>, t: string)
    requires forall i :: 0 <= i < |s| ==> s[i].policyType == t
    ensures Group(s, t) == s
  {
    if s != [] { GroupOfOneType(s[1..], t); }
  }

  /** With rtp rules only, the evaluation order comes down to the rtp list. */
  lemma RtpOnly(rx: Regex, rules: seq<RuleRecord>, domain: string, m: string)
    requires Sorted(rules) && forall i :: 0 <= i < |rules| ==> rules[i].policyType == "rtp"
    ensures FirstOf(rx, AstOf(rules), EVALUATION_ORDER, domain, m) == FirstIn(rx, IndexAll(rules), domain, m)
  {
    GroupOfOneType(rules, "rtp");
    SortOfSorted(rules);
    assert forall t :: t != "rtp" ==> t !in AstOf(rules);
    if rules == [] { assert IndexAll(rules) == []; }
    LastOfOrder(rx, AstOf(rules), EVALUATION_ORDER, domain, m);
  }

  lemma {:induction false} LastOfOrder(rx: Regex, ast: AstMap, order: seq<string>, domain: string, m: string)
    requires forall t :: t != "rtp" ==> t !in ast
    requires order != [] && order[|order| - 1] == "rtp"
    ensures FirstOf(rx, ast, order, domain, m) == FirstIn(rx, RulesOf(ast, "rtp"), domain, m)
  {
    if |order| > 1 {
      LastOfOrder(rx, ast, order[1..], domain, m);
    } else {
      assert FirstOf(rx, ast, order[1..], domain, m).None?;
    }
  }

  /** Sorted records of unique ids evaluate as the engine does on the same list. */
  lemma EvaluatorsAgree(rx: Regex, rules: seq<Json>, default: Action, domain: string, m: string)
    requires Accepted(rx, rules) && Ascending(rules)
    ensures var tp := PolicyOf(default, EVALUATION_ORDER, MigratedRecords(rx, rules));
      Decide(rx, tp, domain, m) == EngineDecide(rx, Config(default, EngineRulesOf(rx, rules)), domain, m)
  {
    var rs := MigratedRecords(rx, rules);
    forall i | 0 <= i < |rules|
      ensures rs[i].policyType == "rtp" && rs[i].priority == PriorityOf(FieldsOf(rules[i]))
      ensures rs[i].id == IdOf(rules[i])
    {
      RecordFields(rules[i].fields);
    }
    assert Sorted(rs) by {
      forall i, j | 0 <= i < j < |rs| ensures !Before(rs[j], rs[i]) {
        assert KeyBefore(rules[i], rules[j]);
        BeforeTotal(rs[i], rs[j]);
      }
    }
    RtpOnly(rx, rs, Lower(domain), Upper(m));
    var es := EngineRulesOf(rx, rules);
    forall i | 0 <= i < |rs| ensures Alike(rx, rs[i], es[i], Lower(domain), Upper(m)) {
      RuleAgrees(rx, rules[i], Lower(domain), Upper(m));
    }
    FirstMatchAgrees(rx, rs, es, Lower(domain), Upper(m));
  }

  predicate DistinctRuleIds(rules: seq<Json>) {
    forall i, j :: 0 <= i < j < |rules| ==> IdOf(rules[i]) != IdOf(rules[j])
  }

  ghost predicate SameMembers(a: seq<Json>, b: seq<Json>) {
    forall r :: r in a <==> r in b
  }

  /** A strictly ascending arrangement of rules with distinct ids has distinct ids again. */
  lemma ArrangedIds(rules: seq<Json>, ordered: seq<Json>)
    requires DistinctRuleIds(rules) && Ascending(ordered) && SameMembers(rules, ordered)
    ensures DistinctRuleIds(ordered)
  {
    forall i, j | 0 <= i < j < |ordered| ensures IdOf(ordered[i]) != IdOf(ordered[j]) {
      assert KeyBefore(ordered[i], ordered[j]);
      LessIrreflexive(IdOf(ordered[i]));
      assert ordered[i] in rules && ordered[j] in rules;
      var k :| 0 <= k < |rules| && rules[k] == ordered[i];
      var l :| 0 <= l < |rules| && rules[l] == ordered[j];
      if k < l { assert IdOf(rules[k]) != IdOf(rules[l]); } else { assert IdOf(rules[l]) != IdOf(rules[k]); }
    }
  }

  lemma MigratedKeys(rx: Regex, rules: seq<Json>)
    requires Accepted(rx, rules) && DistinctRuleIds(rules)
    ensures UniqueKeys(MigratedRecords(rx, rules))
  {
    var rs := MigratedRecords(rx, rules);
    forall i | 0 <= i < |rules| ensures rs[i].id == IdOf(rules[i]) {
      RecordFields(rules[i].fields);
    }
  }

  /** What a validated legacy document was normalised to. */
  lemma LegacyNormal(env: Env, doc: Json, d: Json)
    requires Validate(env, doc) == Valid(d) && doc.Obj? && "policies" !in doc.fields
    ensures "rules" in doc.fields && doc.fields["rules"].Arr? && MigrateRules(LegacyRules(doc)).Ok?
    ensures Get(doc.fields, "default_action", Str("ALLOW")).Str?
    ensures d == LegacyEnvelope(NormalizeAction(Get(doc.fields, "default_action", Str("ALLOW")).s),
      MigrateRules(LegacyRules(doc)).value)
    ensures IterRules(d) == Tag("rtp", MigrateRules(LegacyRules(doc)).value)
  {
    var listed := Get(doc.fields, "rules", Arr([]));
    var default := NormalizeAction(Get(doc.fields, "default_action", Str("ALLOW")).s);
    assert d == LegacyEnvelope(default, MigrateList(listed).value);
    LegacyEnvelopeRules(default, MigrateList(listed).value);
    assert IterRules(d) != [];
    assert MigrateList(listed).value != [];
  }

  /** What the pipeline has in hand for an accepted faithful legacy document. */
  lemma LegacyAccepted(env: Env, rx: Regex, doc: Json, d: Json)
    requires Validate(env, doc) == Valid(d) && FaithfulDoc(rx, doc)
    ensures Accepted(rx, LegacyRules(doc)) && DistinctRuleIds(LegacyRules(doc))
    ensures RecordsOf(IterRules(d)) == MigratedRecords(rx, LegacyRules(doc))
  {
    ValidMeans(env, doc);
    LegacyNormal(env, doc, d);
    MigrateRulesPointwise(LegacyRules(doc));
    TaggedRules(rx, LegacyRules(doc), MigrateRules(LegacyRules(doc)).value);
  }

  lemma TaggedRules(rx: Regex, rules: seq<Json>, migrated: seq<Json>)
    requires |migrated| == |rules|
    requires forall i :: 0 <= i < |rules| ==> FaithfulRule(rx, rules[i]) && MigrateRule(rules[i]) == Ok(migrated[i])
    requires CleanRules(Tag("rtp", migrated)) && UniqueIds(Tag("rtp", migrated))
    ensures Accepted(rx, rules) && DistinctRuleIds(rules)
    ensures RecordsOf(Tag("rtp", migrated)) == MigratedRecords(rx, rules)
  {
    var tagged := Tag("rtp", migrated);
    forall i | 0 <= i < |rules| ensures RuleSchema("rtp", migrated[i]) && IdOf(migrated[i]) == IdOf(rules[i]) {
      assert CleanRule(tagged[i].0, tagged[i].1);
      MigratedFields(rules[i].fields);
    }
    forall i, j | 0 <= i < j < |rules| ensures IdOf(rules[i]) != IdOf(rules[j]) {
      assert (tagged[i].0, IdOf(tagged[i].1)) != (tagged[j].0, IdOf(tagged[j].1));
    }
  }

  lemma DefaultAgrees(env: Env, rx: Regex, doc: Json, d: Json)
    requires Validate(env, doc) == Valid(d) && FaithfulDoc(rx, doc)
    ensures MapTerminalAction(DefaultOf(d)) == EngineOf(rx, doc, []).defaultAction
  {
    LegacyNormal(env, doc, d);
    DefaultName(Get(doc.fields, "default_action", Str("ALLOW")).s);
  }

  lemma DefaultName(a: string)
    requires a in {"ALLOW", "allow", "block", "coach"}
    ensures MapTerminalAction(NormalizeAction(a)) == if a == "ALLOW" then "allow" else a
  {
    PreservedNames(a);
    if a == "ALLOW" { PlainName("ALLOW"); }
    TerminalName(NormalizeAction(a));
  }

  /** The rules arranged by (priority, id): each placed before the first that comes after it. */
  function PlaceByKey(x: Json, s: seq<Json>): seq<Json> {
    if s == [] || KeyBefore(x, s[0]) then [x] + s else [s[0]] + PlaceByKey(x, s[1..])
  }

  function ArrangedByKey(rules: seq<Json>): seq<Json> {
    if rules == [] then [] else PlaceByKey(rules[0], ArrangedByKey(rules[1..]))
  }

  lemma KeyBeforeTransitive(a: Json, b: Json, c: Json)
    requires KeyBefore(a, b) && KeyBefore(b, c)
    ensures KeyBefore(a, c)
  {
    if Less(IdOf(a), IdOf(b)) && Less(IdOf(b), IdOf(c)) { LessTransitive(IdOf(a), IdOf(b), IdOf(c)); }
  }

  lemma {:induction false} PlaceByKeyAscends(x: Json, s: seq<Json>)
    requires Ascending(s) && forall r :: r in s ==> IdOf(r) != IdOf(x)
    ensures Ascending(PlaceByKey(x, s)) && forall r :: r in PlaceByKey(x, s) <==> r == x || r in s
  {
    var out := PlaceByKey(x, s);
    if s == [] {
    } else if KeyBefore(x, s[0]) {
      forall j | 0 <= j < |s| ensures KeyBefore(x, s[j]) {
        if j > 0 { KeyBeforeTransitive(x, s[0], s[j]); }
      }
    } else {
      var rest := PlaceByKey(x, s[1..]);
      PlaceByKeyAscends(x, s[1..]);
      LessTotal(IdOf(s[0]), IdOf(x));
      assert KeyBefore(s[0], x) && (forall r :: r in s <==> r == s[0] || r in s[1..]);
      forall j | 0 <= j < |rest| ensures KeyBefore(s[0], rest[j]) {
        if rest[j] != x {
          assert rest[j] in s[1..];
          var k :| 0 <= k < |s[1..]| && s[1..][k] == rest[j];
          assert KeyBefore(s[0], s[k + 1]);
        }
      }
    }
  }

  /** Rules with distinct ids have an ascending arrangement. */
  lemma {:induction false} ArrangedByKeyAscends(rules: seq<Json>)
    requires DistinctRuleIds(rules)
    ensures Ascending(ArrangedByKey(rules)) && SameMembers(rules, ArrangedByKey(rules))
  {
    if rules != [] {
      ArrangedByKeyAscends(rules[1..]);
      forall r | r in ArrangedByKey(rules[1..]) ensures IdOf(r) != IdOf(rules[0]) {
        var k :| 0 <= k < |rules[1..]| && rules[1..][k] == r;
        assert rules[k + 1] == r;
      }
      PlaceByKeyAscends(rules[0], ArrangedByKey(rules[1..]));
      assert forall r :: r in rules <==> r == rules[0] || r in rules[1..];
    }
  }

  /**
   * Migration preserves meaning. Normalised, validated, compiled, loaded and evaluated, a faithful legacy document
   * answers every request as the older engine does on its rules arranged by (priority, id).
   */
  lemma MigrationPreservesMeaning(env: Env, rx: Regex, doc: Json, d: Json, scan: seq<Row>, ordered: seq<Json>,
                                  domain: string, m: string)
    requires Compiles(env, doc, d, scan) && FaithfulDoc(rx, doc)
    requires Ascending(ordered) && SameMembers(LegacyRules(doc), ordered)
    ensures Load(rx, MetaOf(d), scan).Some?
    ensures Decide(rx, Load(rx, MetaOf(d), scan).value, domain, m) ==
      EngineDecide(rx, EngineOf(rx, doc, ordered), domain, m)
  {
    var rules := LegacyRules(doc);
    LegacyAccepted(env, rx, doc, d);
    ArrangedIds(rules, ordered);
    AcceptedMembers(rx, rules, ordered);
    MigratedKeys(rx, ordered);
    LoadSucceedsIff(env, rx, doc, d, scan);
    AllMigratedCompile(rx, rules);
    ValidIsSchemaValid(env, doc);
    CompiledMeta(d);
    LoadResult(rx, MetaOf(d), DefaultOf(d), scan);
    DefaultAgrees(env, rx, doc, d);
    ScannedRecords(env, doc, d, scan);
    var default := MapTerminalAction(DefaultOf(d));
    DecideIgnoresRowOrder(rx, default, EVALUATION_ORDER, HydrateAll(scan), MigratedRecords(rx, ordered), domain, m);
    EvaluatorsAgree(rx, ordered, default, domain, m);
  }

  lemma AcceptedMembers(rx: Regex, rules: seq<Json>, ordered: seq<Json>)
    requires Accepted(rx, rules) && SameMembers(rules, ordered)
    ensures Accepted(rx, ordered)
    ensures forall r :: r in MigratedRecords(rx, rules) <==> r in MigratedRecords(rx, ordered)
  {
    forall i | 0 <= i < |ordered| ensures ordered[i] in rules {}
    MembersMigrated(rx, rules, ordered);
    MembersMigrated(rx, ordered, rules);
  }

  lemma MembersMigrated(rx: Regex, a: seq<Json>, b: seq<Json>)
    requires Accepted(rx, a) && Accepted(rx, b) && forall r :: r in a ==> r in b
    ensures forall x :: x in MigratedRecords(rx, a) ==> x in MigratedRecords(rx, b)
  {
    forall x | x in MigratedRecords(rx, a) ensures x in MigratedRecords(rx, b) {
      var i :| 0 <= i < |a| && MigratedRecord(a[i]) == x;
      assert a[i] in b;
      var j :| 0 <= j < |b| && b[j] == a[i];
      assert MigratedRecords(rx, b)[j] == x;
    }
  }

  lemma AllMigratedCompile(rx: Regex, rules: seq<Json>)
    requires Accepted(rx, rules)
    ensures GroupCompiles(rx, MigratedRecords(rx, rules))
  {
    forall x | x in MigratedRecords(rx, rules) ensures RuleCompiles(rx, x) {
      var i :| 0 <= i < |rules| && MigratedRecord(rules[i]) == x;
      RuleAgrees(rx, rules[i], "", "");
    }
  }

  /**
   * Every accepted faithful legacy document has such an arrangement, so its compiled policy always has that meaning.
   */
  lemma MigrationHasMeaning(env: Env, rx: Regex, doc: Json, d: Json, scan: seq<Row>)
    requires Compiles(env, doc, d, scan) && FaithfulDoc(rx, doc)
    ensures var ordered := ArrangedByKey(LegacyRules(doc));
      && Ascending(ordered) && SameMembers(LegacyRules(doc), ordered) && Load(rx, MetaOf(d), scan).Some?
      && forall domain, m :: Decide(rx, Load(rx, MetaOf(d), scan).value, domain, m) ==
                             EngineDecide(rx, EngineOf(rx, doc, ordered), domain, m)
  {
    LegacyAccepted(env, rx, doc, d);
    var ordered := ArrangedByKey(LegacyRules(doc));
    ArrangedByKeyAscends(LegacyRules(doc));
    forall domain, m ensures Load(rx, MetaOf(d), scan).Some? &&
      Decide(rx, Load(rx, MetaOf(d), scan).value, domain, m) == EngineDecide(rx, EngineOf(rx, doc, ordered), domain, m)
    {
      MigrationPreservesMeaning(env, rx, doc, d, scan, ordered, domain, m);
    }
    MigrationPreservesMeaning(env, rx, doc, d, scan, ordered, "", "");
  }

  /** In particular a document whose rules already ascend by (priority, id) keeps its own first-match meaning. */
  lemma AscendingDocumentKeepsMeaning(env: Env, rx: Regex, doc: Json, d: Json, scan: seq<Row>, domain: string,
                                      m: string)
    requires Compiles(env, doc, d, scan) && FaithfulDoc(rx, doc) && Ascending(LegacyRules(doc))
    ensures Load(rx, MetaOf(d), scan).Some?
    ensures Decide(rx, Load(rx, MetaOf(d), scan).value, domain, m) ==
      EngineDecide(rx, EngineOf(rx, doc, LegacyRules(doc)), domain, m)
  {
    MigrationPreservesMeaning(env, rx, doc, d, scan, LegacyRules(doc), domain, m);
  }

  // ---------- when document order keeps its meaning ----------

  /** Whether a rule takes a (lowered) domain and (uppered) method in the older engine, and what it then answers. */
  function Takes(rx: Regex, domain: string, m: string): Json -> bool {
    rule => RuleMatches(rx, EngineRuleOf(rx, rule), domain, m)
  }

  function AnswerOf(rx: Regex, rule: Json): Outcome {
    Outcome(EngineRuleOf(rx, rule).action, EngineRuleOf(rx, rule).message)
  }

  lemma KeyBeforeAsymmetric(a: Json, b: Json)
    ensures !(KeyBefore(a, b) && KeyBefore(b, a))
  {
    LessIrreflexive(IdOf(a));
    if Less(IdOf(a), IdOf(b)) && Less(IdOf(b), IdOf(a)) { LessTransitive(IdOf(a), IdOf(b), IdOf(a)); }
  }

  lemma KeyBeforeStrict()
    ensures Strict(KeyBefore)
  {
    forall a, b, c | KeyBefore(a, b) && KeyBefore(b, c) ensures KeyBefore(a, c) { KeyBeforeTransitive(a, b, c); }
    forall a, b | KeyBefore(a, b) ensures !KeyBefore(b, a) { KeyBeforeAsymmetric(a, b); }
  }

  lemma KeysComparable(rules: seq<Json>)
    requires DistinctRuleIds(rules)
    ensures Comparable(rules, KeyBefore)
  {
    forall i, j | 0 <= i < j < |rules| ensures KeyBefore(rules[i], rules[j]) || KeyBefore(rules[j], rules[i]) {
      LessTotal(IdOf(rules[i]), IdOf(rules[j]));
    }
  }

  lemma FirstOfArranged(rules: seq<Json>, ordered: seq<Json>, hit: Json -> bool)
    requires DistinctRuleIds(rules) && Ascending(ordered) && SameMembers(rules, ordered)
    ensures var f, k := First(ordered, hit), Least(rules, hit, KeyBefore);
      (f < |ordered| <==> k < |rules|) && (f < |ordered| ==> ordered[f] == rules[k])
  {
    KeyBeforeStrict();
    KeysComparable(rules);
    FirstOfChain(rules, ordered, hit, KeyBefore);
  }

  lemma FirstMatchTakes(rx: Regex, rules: seq<Json>, domain: string, m: string)
    ensures var i := First(rules, Takes(rx, domain, m));
      FirstMatch(rx, EngineRulesOf(rx, rules), domain, m) ==
        if i < |rules| then Some(EngineRuleOf(rx, rules[i])) else None
  {
    var es := EngineRulesOf(rx, rules);
    FirstMatchIsFirst(rx, es, domain, m);
    FirstAlike(rules, es, Takes(rx, domain, m), Taking(rx, domain, m));
  }

  /** The older engine answers with the first rule that takes the request, else with its default. */
  lemma EngineAnswers(rx: Regex, doc: Json, rules: seq<Json>, domain: string, m: string)
    ensures var cfg, i := EngineOf(rx, doc, rules), First(rules, Takes(rx, Lower(domain), Upper(m)));
      EngineDecide(rx, cfg, domain, m) ==
        if i < |rules| then AnswerOf(rx, rules[i]) else Outcome(cfg.defaultAction, "")
  {
    FirstMatchTakes(rx, rules, Lower(domain), Upper(m));
  }

  /** The condition under which one request keeps the answer of the document. */
  predicate SameAnswer(rx: Regex, rules: seq<Json>, domain: string, m: string) {
    var hit := Takes(rx, Lower(domain), Upper(m));
    var i, k := First(rules, hit), Least(rules, hit, KeyBefore);
    i < |rules| && k < |rules| ==> AnswerOf(rx, rules[i]) == AnswerOf(rx, rules[k])
  }

  /** The answers before and after the change of order. */
  lemma RequestKeptIff(rx: Regex, doc: Json, rules: seq<Json>, ordered: seq<Json>, domain: string, m: string)
    requires DistinctRuleIds(rules) && Ascending(ordered) && SameMembers(rules, ordered)
    ensures
      EngineDecide(rx, EngineOf(rx, doc, ordered), domain, m) == EngineDecide(rx, EngineOf(rx, doc, rules), domain, m)
      <==> SameAnswer(rx, rules, domain, m)
  {
    EngineAnswers(rx, doc, rules, domain, m);
    EngineAnswers(rx, doc, ordered, domain, m);
    FirstOfArranged(rules, ordered, Takes(rx, Lower(domain), Upper(m)));
  }

  /** The compiled policy answers a request as the older engine answers it in document order. */
  ghost predicate KeepsAnswer(rx: Regex, doc: Json, d: Json, scan: seq<Row>, domain: string, m: string) {
    var tp := Load(rx, MetaOf(d), scan);
    tp.Some? && Decide(rx, tp.value, domain, m) == EngineDecide(rx, EngineOf(rx, doc, LegacyRules(doc)), domain, m)
  }

  /**
   * For every accepted faithful document of any length and every request: the compiled policy answers as the document
   * does, read from top to bottom, if and only if the first rule that takes the request and the least one by
   * (priority, id) that takes it say the same, or none takes it.
   */
  lemma MeaningKeptIff(env: Env, rx: Regex, doc: Json, d: Json, scan: seq<Row>, domain: string, m: string)
    requires Compiles(env, doc, d, scan) && FaithfulDoc(rx, doc)
    ensures KeepsAnswer(rx, doc, d, scan, domain, m) <==> SameAnswer(rx, LegacyRules(doc), domain, m)
  {
    MigrationHasMeaning(env, rx, doc, d, scan);
    LegacyAccepted(env, rx, doc, d);
    RequestKeptIff(rx, doc, LegacyRules(doc), ArrangedByKey(LegacyRules(doc)), domain, m);
  }

  /** Every pair of rules that the keys put the other way round says the same. */
  predicate HarmlessInversions(rx: Regex, rules: seq<Json>) {
    forall i, j :: 0 <= i < j < |rules| && KeyBefore(rules[j], rules[i]) ==>
      AnswerOf(rx, rules[i]) == AnswerOf(rx, rules[j])
  }

  lemma HarmlessGivesSame(rx: Regex, rules: seq<Json>, domain: string, m: string)
    requires DistinctRuleIds(rules) && HarmlessInversions(rx, rules)
    ensures SameAnswer(rx, rules, domain, m)
  {
    KeyBeforeStrict();
    KeysComparable(rules);
    FirstAgreesWithLeast(rules, Takes(rx, Lower(domain), Upper(m)), KeyBefore, rule => AnswerOf(rx, rule));
  }

  /** A document of any length in which all inverted pairs say the same keeps its meaning on every request. */
  lemma HarmlessInversionsKeepMeaning(env: Env, rx: Regex, doc: Json, d: Json, scan: seq<Row>)
    requires Compiles(env, doc, d, scan) && FaithfulDoc(rx, doc) && HarmlessInversions(rx, LegacyRules(doc))
    ensures forall domain, m :: KeepsAnswer(rx, doc, d, scan, domain, m)
  {
    LegacyAccepted(env, rx, doc, d);
    forall domain, m ensures KeepsAnswer(rx, doc, d, scan, domain, m) {
      HarmlessGivesSame(rx, LegacyRules(doc), domain, m);
      MeaningKeptIff(env, rx, doc, d, scan, domain, m);
    }
  }

  predicate TakesAll(rx: Regex, rule: Json) {
    EngineRuleOf(rx, rule).domains == [] && EngineRuleOf(rx, rule).methods == []
  }

  lemma TakesEvery(rx: Regex, rule: Json, domain: string, m: string)
    requires TakesAll(rx, rule)
    ensures Takes(rx, domain, m)(rule)
  {}

  lemma TakeAllSameIff(rx: Regex, rules: seq<Json>, domain: string, m: string)
    requires DistinctRuleIds(rules) && rules != [] && forall r :: r in rules ==> TakesAll(rx, r)
    ensures var ordered := ArrangedByKey(rules);
      ordered != [] && (SameAnswer(rx, rules, domain, m) <==> AnswerOf(rx, rules[0]) == AnswerOf(rx, ordered[0]))
  {
    var ordered, hit := ArrangedByKey(rules), Takes(rx, Lower(domain), Upper(m));
    ArrangedByKeyAscends(rules);
    assert rules[0] in rules && rules[0] in ordered && ordered[0] in rules;
    TakesEvery(rx, rules[0], Lower(domain), Upper(m));
    TakesEvery(rx, ordered[0], Lower(domain), Upper(m));
    FirstOfArranged(rules, ordered, hit);
  }

  /** Rules that all take every request keep their meaning exactly when the first and the least of them say the same. */
  lemma TakeAllKeptIff(env: Env, rx: Regex, doc: Json, d: Json, scan: seq<Row>, domain: string, m: string)
    requires Compiles(env, doc, d, scan) && FaithfulDoc(rx, doc)
    requires forall r :: r in LegacyRules(doc) ==> TakesAll(rx, r)
    ensures var rules := LegacyRules(doc);
      && rules != [] && ArrangedByKey(rules) != []
      && (KeepsAnswer(rx, doc, d, scan, domain, m) <==> AnswerOf(rx, rules[0]) == AnswerOf(rx, ArrangedByKey(rules)[0]))
  {
    LegacyAccepted(env, rx, doc, d);
    LegacyNotEmpty(env, doc, d);
    TakeAllSameIff(rx, LegacyRules(doc), domain, m);
    MeaningKeptIff(env, rx, doc, d, scan, domain, m);
  }

  lemma LegacyNotEmpty(env: Env, doc: Json, d: Json)
    requires Validate(env, doc) == Valid(d) && doc.Obj? && "policies" !in doc.fields
    ensures LegacyRules(doc) != []
  {
    ValidMeans(env, doc);
    LegacyNormal(env, doc, d);
    MigrateRulesPointwise(LegacyRules(doc));
  }

  // ---------- document order alone is not kept ----------

  /** A rule for every request, without a priority. */
  function PlainRule(id: string, action: string): Json {
    Obj(map["id" := Str(id), "action" := Str(action)])
  }

  function PairDoc(first: Json, second: Json): Json {
    Obj(map["default_action" := Str("allow"), "rules" := Arr([first, second])])
  }

  /** Rule actions that map to a terminal action of the schema. */
  predicate PlainActionName(a: string) {
    Lower(a) != "inspect_dlp" && Lower(a) != "inspect_mcp" && IsTerminal(NormalizeAction(a))
  }

  lemma PlainMigrates(id: string, action: string)
    requires PlainActionName(action)
    ensures MigrateRule(PlainRule(id, action)) == Ok(PlainRule(id, NormalizeAction(action)))
  {
    var m := PlainRule(id, action).fields;
    assert m["action" := Str(NormalizeAction(action))] - {"mcp"} == PlainRule(id, NormalizeAction(action)).fields;
  }

  lemma PlainIsClean(id: string, action: string)
    requires id != "" && IsTerminal(action)
    ensures RuleSchema("rtp", PlainRule(id, action)) && IdOf(PlainRule(id, action)) == id
  {}

  lemma PairMigrates(first: Json, second: Json, p: Json, q: Json)
    requires MigrateRule(first) == Ok(p) && MigrateRule(second) == Ok(q)
    ensures MigrateRules([first, second]) == Ok([p, q])
  {
    var rules := [first, second];
    assert rules[1..] == [second] && rules[1..][1..] == [];
    assert MigrateRules([]) == Ok([]);
    assert MigrateRules([second]) == Prepend([q], MigrateRules([second][1..]));
    assert Prepend([q], Ok([])) == Ok([q]) by { assert [q] + [] == [q]; }
    assert [p] + [q] == [p, q];
  }

  /** An accepted pair: both migrate to schema rules with different ids. */
  ghost predicate GoodPair(env: Env, first: Json, second: Json, p: Json, q: Json) {
    && MigrateRule(first) == Ok(p) && MigrateRule(second) == Ok(q)
    && RuleSchema("rtp", p) && RuleSchema("rtp", q) && IdOf(p) != IdOf(q)
    && Business(env, "rtp", FieldsOf(p)).None? && Business(env, "rtp", FieldsOf(q)).None?
    && env.size(LegacyEnvelope("ALLOW", [p, q])) <= env.maxBytes && 2 <= env.maxRules
  }

  lemma PairNormal(first: Json, second: Json, p: Json, q: Json)
    requires MigrateRule(first) == Ok(p) && MigrateRule(second) == Ok(q)
    ensures Normalize(PairDoc(first, second)) == Ok(LegacyEnvelope("ALLOW", [p, q]))
  {
    PreservedNames("allow");
    PairMigrates(first, second, p, q);
  }

  lemma PairSchema(p: Json, q: Json)
    requires RuleSchema("rtp", p) && RuleSchema("rtp", q)
    ensures SchemaValid(LegacyEnvelope("ALLOW", [p, q]))
  {
    assert BlockSchema("rtp", LegacyEnvelope("ALLOW", [p, q]).fields["policies"].fields["rtp"]);
  }

  lemma PairChecks(env: Env, p: Json, q: Json)
    requires IdOf(p) != IdOf(q)
    requires Business(env, "rtp", FieldsOf(p)).None? && Business(env, "rtp", FieldsOf(q)).None?
    ensures CheckRules(env, Tag("rtp", [p, q]), {}).None?
  {
    CheckRulesMeaning(env, Tag("rtp", [p, q]), {});
  }

  lemma PairIsValid(env: Env, first: Json, second: Json, p: Json, q: Json)
    requires GoodPair(env, first, second, p, q)
    ensures Validate(env, PairDoc(first, second)) == Valid(LegacyEnvelope("ALLOW", [p, q]))
  {
    PairNormal(first, second, p, q);
    PairSchema(p, q);
    LegacyEnvelopeRules("ALLOW", [p, q]);
    PairChecks(env, p, q);
  }

  lemma PlainPairIsGood(env: Env, x: string, a: string, y: string, b: string)
    requires PlainActionName(a) && PlainActionName(b) && x != "" && y != "" && x != y
    requires 2 <= env.maxRules
    requires var p, q := PlainRule(x, NormalizeAction(a)), PlainRule(y, NormalizeAction(b));
      env.size(LegacyEnvelope("ALLOW", [p, q])) <= env.maxBytes
    ensures var p, q := PlainRule(x, NormalizeAction(a)), PlainRule(y, NormalizeAction(b));
      GoodPair(env, PlainRule(x, a), PlainRule(y, b), p, q)
  {
    PlainMigrates(x, a);
    PlainMigrates(y, b);
    PlainIsClean(x, NormalizeAction(a));
    PlainIsClean(y, NormalizeAction(b));
  }

  /** The priorities of a migrated pair are 64-bit integers. */
  predicate PairFits(p: Json, q: Json) {
    Fits(RowOf("rtp", p)) && Fits(RowOf("rtp", q))
  }

  /** The compiled file of an accepted pair whose priorities fit. */
  lemma PairCompiles(env: Env, first: Json, second: Json, p: Json, q: Json, scan: seq<Row>)
    requires GoodPair(env, first, second, p, q) && PairFits(p, q)
    requires IsScan(TableOf(RowsOf(Tag("rtp", [p, q]))), scan)
    ensures Compiles(env, PairDoc(first, second), LegacyEnvelope("ALLOW", [p, q]), scan)
  {
    PairIsValid(env, first, second, p, q);
    PairRows(env, PairDoc(first, second), p, q);
  }

  lemma PairRowsFit(p: Json, q: Json)
    requires PairFits(p, q)
    ensures forall r :: r in RowsOf(Tag("rtp", [p, q])) ==> Fits(r)
  {
    var rows := RowsOf(Tag("rtp", [p, q]));
    assert |rows| == 2 && rows[0] == RowOf("rtp", p) && rows[1] == RowOf("rtp", q);
  }

  lemma PairRows(env: Env, doc: Json, p: Json, q: Json)
    requires Validate(env, doc) == Valid(LegacyEnvelope("ALLOW", [p, q])) && PairFits(p, q)
    ensures IterRules(LegacyEnvelope("ALLOW", [p, q])) == Tag("rtp", [p, q])
    ensures InsertAll(map[], RowsOf(Tag("rtp", [p, q]))) == Some(TableOf(RowsOf(Tag("rtp", [p, q]))))
  {
    LegacyEnvelopeRules("ALLOW", [p, q]);
    PairRowsFit(p, q);
    CompilesWhenFit(env, doc, LegacyEnvelope("ALLOW", [p, q]));
  }

  lemma CompilesWhenFit(env: Env, doc: Json, d: Json)
    requires Validate(env, doc) == Valid(d)
    requires forall i :: 0 <= i < |RowsOf(IterRules(d))| ==> Fits(RowsOf(IterRules(d))[i])
    ensures InsertAll(map[], RowsOf(IterRules(d))) == Some(TableOf(RowsOf(IterRules(d))))
  {
    CompileSucceedsIff(env, doc);
  }

  /** The engine's answer when the first rule takes every request. */
  lemma FirstTakesAll(rx: Regex, cfg: Config, domain: string, m: string)
    requires cfg.rules != [] && cfg.rules[0].domains == [] && cfg.rules[0].methods == []
    ensures EngineDecide(rx, cfg, domain, m) == Outcome(cfg.rules[0].action, cfg.rules[0].message)
  {}

  lemma PlainEngineRule(rx: Regex, id: string, a: string)
    requires PreservedAction(a)
    ensures FaithfulRule(rx, PlainRule(id, a))
    ensures EngineRuleOf(rx, PlainRule(id, a)) == EngineRule(id, [], [], [], a, "")
  {}

  lemma ThreeActions(a: string)
    requires a in {"allow", "block", "coach"}
    ensures PlainActionName(a)
  {
    PreservedNames(a);
    if a == "allow" { assert Lower("allow") == "allow"; }
    if a == "block" { assert Lower("block") == "block"; }
    if a == "coach" { assert Lower("coach") == "coach"; }
  }

  /** Two faithful rules for every request, with different answers. */
  ghost predicate TakeAllPair(rx: Regex, first: Json, second: Json) {
    var e, f := EngineRuleOf(rx, first), EngineRuleOf(rx, second);
    && FaithfulRule(rx, first) && FaithfulRule(rx, second)
    && e.domains == [] && e.methods == [] && f.domains == [] && f.methods == []
    && (e.action, e.message) != (f.action, f.message) && IdOf(first) != IdOf(second)
  }

  lemma ArrangedPair(first: Json, second: Json)
    ensures ArrangedByKey([first, second]) == if KeyBefore(first, second) then [first, second] else [second, first]
  {
    assert [first, second][1..] == [second] && [second][1..] == [];
    assert ArrangedByKey([second]) == [second];
    assert PlaceByKey(first, [second]) ==
      if KeyBefore(first, second) then [first] + [second] else [second] + PlaceByKey(first, []);
  }

  lemma ArrangedAnswer(rx: Regex, first: Json, second: Json, domain: string, m: string)
    requires TakeAllPair(rx, first, second)
    ensures EngineDecide(rx, EngineOf(rx, PairDoc(first, second), ArrangedByKey([first, second])), domain, m)
      == EngineDecide(rx, EngineOf(rx, PairDoc(first, second), [first, second]), domain, m)
      <==> KeyBefore(first, second)
  {
    ArrangedPair(first, second);
    FirstTakesAll(rx, EngineOf(rx, PairDoc(first, second), [first, second]), domain, m);
    FirstTakesAll(rx, EngineOf(rx, PairDoc(first, second), ArrangedByKey([first, second])), domain, m);
  }

  lemma PairIsFaithful(rx: Regex, first: Json, second: Json)
    requires FaithfulRule(rx, first) && FaithfulRule(rx, second)
    ensures FaithfulDoc(rx, PairDoc(first, second)) && LegacyRules(PairDoc(first, second)) == [first, second]
  {}

  /**
   * Document order alone is not kept: two accepted rules for every request, of any priorities that fit and with
   * different answers, answer after compilation as in the older engine exactly when they ascend by (priority, id).
   */
  lemma PairGoesByKey(env: Env, rx: Regex, first: Json, second: Json, p: Json, q: Json, scan: seq<Row>,
                      domain: string, m: string)
    requires GoodPair(env, first, second, p, q) && PairFits(p, q) && TakeAllPair(rx, first, second)
    requires IsScan(TableOf(RowsOf(Tag("rtp", [p, q]))), scan)
    ensures var doc, d := PairDoc(first, second), LegacyEnvelope("ALLOW", [p, q]);
      && Compiles(env, doc, d, scan) && Load(rx, MetaOf(d), scan).Some?
      && var tp := Load(rx, MetaOf(d), scan).value;
         Decide(rx, tp, domain, m) == EngineDecide(rx, EngineOf(rx, doc, LegacyRules(doc)), domain, m)
         <==> KeyBefore(first, second)
  {
    var doc, d := PairDoc(first, second), LegacyEnvelope("ALLOW", [p, q]);
    PairCompiles(env, first, second, p, q, scan);
    PairIsFaithful(rx, first, second);
    MigrationHasMeaning(env, rx, doc, d, scan);
    ArrangedAnswer(rx, first, second, domain, m);
  }

  /** In particular, rules of one priority, given or not, keep their order exactly when their ids happen to ascend. */
  lemma TiesGoById(env: Env, rx: Regex, first: Json, second: Json, p: Json, q: Json, scan: seq<Row>,
                   domain: string, m: string)
    requires GoodPair(env, first, second, p, q) && PairFits(p, q) && TakeAllPair(rx, first, second)
    requires PriorityOf(FieldsOf(first)) == PriorityOf(FieldsOf(second))
    requires IsScan(TableOf(RowsOf(Tag("rtp", [p, q]))), scan)
    ensures var doc, d := PairDoc(first, second), LegacyEnvelope("ALLOW", [p, q]);
      && Load(rx, MetaOf(d), scan).Some?
      && var tp := Load(rx, MetaOf(d), scan).value;
         Decide(rx, tp, domain, m) == EngineDecide(rx, EngineOf(rx, doc, LegacyRules(doc)), domain, m)
         <==> Less(IdOf(first), IdOf(second))
  {
    PairGoesByKey(env, rx, first, second, p, q, scan, domain, m);
  }

  /** Such pairs exist: ids "2" and "10" in document order, allow before block, do not ascend. */
  lemma TwoBeforeTen(env: Env, rx: Regex)
    requires 2 <= env.maxRules
    requires env.size(LegacyEnvelope("ALLOW", [PlainRule("2", "ALLOW"), PlainRule("10", "BLOCK")])) <= env.maxBytes
    ensures var first, second := PlainRule("2", "allow"), PlainRule("10", "block");
      && GoodPair(env, first, second, PlainRule("2", "ALLOW"), PlainRule("10", "BLOCK"))
      && PairFits(PlainRule("2", "ALLOW"), PlainRule("10", "BLOCK"))
      && TakeAllPair(rx, first, second) && !KeyBefore(first, second)
  {
    TwoAndTenAreGood(env);
    PlainPairTakesAll(rx, "2", "allow", "10", "block");
    NotAscending("2", "allow", "10", "block");
  }

  lemma TwoAndTenAreGood(env: Env)
    requires 2 <= env.maxRules
    requires env.size(LegacyEnvelope("ALLOW", [PlainRule("2", "ALLOW"), PlainRule("10", "BLOCK")])) <= env.maxBytes
    ensures GoodPair(env, PlainRule("2", "allow"), PlainRule("10", "block"), PlainRule("2", "ALLOW"),
      PlainRule("10", "BLOCK"))
  {
    ThreeActions("allow");
    ThreeActions("block");
    PreservedNames("allow");
    PreservedNames("block");
    PlainPairIsGood(env, "2", "allow", "10", "block");
  }

  lemma NotAscending(x: string, a: string, y: string, b: string)
    requires !Less(x, y)
    ensures !KeyBefore(PlainRule(x, a), PlainRule(y, b))
    ensures forall n, m :: PairFits(PlainRule(x, n), PlainRule(y, m))
  {}

  lemma PlainPairTakesAll(rx: Regex, x: string, a: string, y: string, b: string)
    requires PreservedAction(a) && PreservedAction(b) && a != b && x != y
    ensures TakeAllPair(rx, PlainRule(x, a), PlainRule(y, b)) && IdOf(PlainRule(x, a)) == x
    ensures IdOf(PlainRule(y, b)) == y
  {
    PlainEngineRule(rx, x, a);
    PlainEngineRule(rx, y, b);
  }
}
