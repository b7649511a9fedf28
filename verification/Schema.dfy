/** The JSON Schema of policies as data, and the JSON Schema it needs (controlplane/schema/policy.schema.json). */
module Schema {
  import opened Json

  datatype Schema =
    | Text(minLength: nat)
    | Enum(values: set<string>)
    | Integer(minimum: int)
    | Boolean
    | List(items: Schema)
    | Object(required: set<string>, properties: map<string, Schema>, open: bool, minProperties: nat)
    | OneOf(first: Schema, second: Schema)

  /** jsonschema.validate. An integer may be written as a float without a fraction. */
  predicate Conforms(s: Schema, j: Json)
    decreases s
  {
    match s
    case Text(n) => j.Str? && |j.s| >= n
    case Enum(vs) => j.Str? && j.s in vs
    case Integer(n) => (j.Int? && j.n >= n) || (j.Float? && j.r == j.r.Floor as real && j.r >= n as real)
    case Boolean => j.Bool?
    case List(items) => j.Arr? && forall x :: x in j.items ==> Conforms(items, x)
    case Object(required, properties, open, least) =>
      && j.Obj? && required <= j.fields.Keys && (open || j.fields.Keys <= properties.Keys) && |j.fields| >= least
      && forall k :: k in properties && k in j.fields ==> Conforms(properties[k], j.fields[k])
    case OneOf(a, b) => Conforms(a, j) != Conforms(b, j)
  }

  // ---------- the schema document ----------

  const TEXT := Text(0)
  const NAME := Text(1)
  const TEXTS := List(TEXT)
  const NAMES := List(NAME)
  const ACTION := Enum({"ALLOW", "BLOCK", "BYPASS", "FWD", "COACH", "CONTINUE"})

  const RTP_CONDITIONS := Object({}, map[
    "domains" := NAMES, "methods" := NAMES, "groups" := TEXTS, "saml_groups" := TEXTS,
    "content_direction" := Enum({"upload", "download", "both"})], true, 0)

  const MCP := Object({}, map["tool_names" := TEXTS, "message_types" := TEXTS], false, 0)

  const INSPECT := Object({}, map["dlp" := Boolean, "mcp" := OneOf(Boolean, MCP)], false, 0)

  const RTP_RULE := Object({"id", "action"}, map[
    "id" := NAME, "name" := TEXT, "priority" := Integer(0), "conditions" := RTP_CONDITIONS, "inspect" := INSPECT,
    "action" := ACTION, "scan_fallback" := Enum({"fallback_allow", "fallback_alert", "fallback_block"}),
    "message" := TEXT], false, 0)

  const BYPASS_RULE := Object({"id", "ssl_mode", "action"}, map[
    "id" := NAME, "name" := TEXT, "priority" := Integer(0), "ssl_mode" := Enum({"dnd", "decrypt"}),
    "conditions" := Object({}, map["domains" := NAMES], false, 0), "action" := ACTION, "message" := TEXT], false, 0)

  const EGRESS_RULE := Object({"id", "action"}, map[
    "id" := NAME, "name" := TEXT, "priority" := Integer(0),
    "conditions" := Object({}, map["egress_ips" := NAMES, "destinations" := NAMES, "protocols" := NAMES], false, 0),
    "action" := ACTION, "message" := TEXT], false, 0)

  const BROWSER_RULE := Object({"id", "action"}, map[
    "id" := NAME, "name" := TEXT, "priority" := Integer(0),
    "conditions" := Object({}, map["domains" := NAMES, "browser_profiles" := TEXTS, "user_agents" := TEXTS], false, 0),
    "isolation" := Enum({"none", "rbi", "native"}), "action" := ACTION, "message" := TEXT], false, 0)

  function Block(rule: Schema): Schema {
    Object({"rules"}, map["rules" := List(rule)], false, 0)
  }

  const BLOCKS := Object({}, map[
    "rtp" := Block(RTP_RULE), "bypass" := Block(BYPASS_RULE), "egress_ip" := Block(EGRESS_RULE),
    "enterprise_browser" := Block(BROWSER_RULE)], false, 1)

  const POLICY := Object({"default_action", "policies"}, map[
    "tenant_id" := Integer(1), "default_action" := ACTION, "policies" := BLOCKS], false, 0)
}

/** The schema check of the validator is the schema document. */
module SchemaMeaning {
  import opened Json
  import opened Normalizer
  import opened Validator
  import opened Schema

  lemma NamesConform(j: Json)
    ensures Conforms(NAMES, j) <==> NonEmptyStrArray(j)
    ensures Conforms(TEXTS, j) <==> StrArray(j)
  {}

  lemma IntegerConforms(j: Json, n: int)
    ensures Conforms(Integer(n), j) <==> IntegerAtLeast(j, n)
  {}

  lemma ActionConforms(j: Json)
    ensures Conforms(ACTION, j) <==> j.Str? && IsTerminal(j.s)
  {}

  lemma RtpCondition(k: string, v: Json)
    ensures var c := RTP_CONDITIONS;
      if k in c.properties then Conforms(c.properties[k], v) <==> ConditionFieldOk("rtp", k, v)
      else ConditionFieldOk("rtp", k, v)
  {
    NamesConform(v);
  }

  lemma RtpConditions(j: Json)
    ensures Conforms(RTP_CONDITIONS, j) <==> ConditionsOk("rtp", j)
  {
    if j.Obj? {
      forall k | k in j.fields { RtpCondition(k, j.fields[k]); }
    }
  }

  lemma BypassConditions(j: Json)
    ensures Conforms(BYPASS_RULE.properties["conditions"], j) <==> ConditionsOk("bypass", j)
  {
    if j.Obj? { forall k | k in j.fields { NamesConform(j.fields[k]); } }
  }

  lemma EgressConditions(j: Json)
    ensures Conforms(EGRESS_RULE.properties["conditions"], j) <==> ConditionsOk("egress_ip", j)
  {
    if j.Obj? { forall k | k in j.fields { NamesConform(j.fields[k]); } }
  }

  lemma BrowserCondition(k: string, v: Json)
    ensures var c := BROWSER_RULE.properties["conditions"];
      if k in c.properties then Conforms(c.properties[k], v) <==> ConditionFieldOk("enterprise_browser", k, v)
      else k !in {"domains", "browser_profiles", "user_agents"}
  {
    NamesConform(v);
  }

  lemma BrowserConditions(j: Json)
    ensures Conforms(BROWSER_RULE.properties["conditions"], j) <==> ConditionsOk("enterprise_browser", j)
  {
    if j.Obj? {
      forall k | k in j.fields { BrowserCondition(k, j.fields[k]); }
    }
  }

  lemma McpConforms(j: Json)
    ensures Conforms(MCP, j) <==> McpConfigOk(j)
  {
    if j.Obj? { forall k | k in j.fields { NamesConform(j.fields[k]); } }
  }

  lemma McpSettingConforms(j: Json)
    ensures Conforms(OneOf(Boolean, MCP), j) <==> j.Bool? || McpConfigOk(j)
  {
    McpConforms(j);
  }

  lemma InspectConforms(j: Json)
    ensures Conforms(INSPECT, j) <==> InspectOk(j)
  {
    if j.Obj? { forall k | k in j.fields { McpSettingConforms(j.fields[k]); } }
  }

  /** The schema of one rule, by the type of its block. */
  function RuleOf(t: string): Schema {
    if t == "rtp" then RTP_RULE else if t == "bypass" then BYPASS_RULE
    else if t == "egress_ip" then EGRESS_RULE else BROWSER_RULE
  }

  /** Values whose schema does not depend on the type of the rule. */
  lemma PlainField(v: Json)
    ensures (Conforms(NAME, v) <==> NonEmptyStr(v)) && (Conforms(TEXT, v) <==> IsStr(v))
    ensures (Conforms(Integer(0), v) <==> IntegerAtLeast(v, 0)) && (Conforms(ACTION, v) <==> v.Str? && IsTerminal(v.s))
  {}

  const SCAN_FALLBACK := Enum({"fallback_allow", "fallback_alert", "fallback_block"})

  lemma RtpSchemas()
    ensures var p := RTP_RULE.properties;
      && p.Keys == {"id", "name", "priority", "conditions", "inspect", "action", "scan_fallback", "message"}
      && p["id"] == NAME && p["name"] == TEXT && p["message"] == TEXT && p["priority"] == Integer(0)
      && p["action"] == ACTION && p["scan_fallback"] == SCAN_FALLBACK
  {}

  lemma RtpPlainField(k: string, v: Json)
    requires k in {"id", "name", "priority", "action", "message", "scan_fallback"}
    ensures k in RTP_RULE.properties && (Conforms(RTP_RULE.properties[k], v) <==> RuleFieldOk("rtp", k, v))
  {
    RtpSchemas();
    PlainField(v);
    if k == "scan_fallback" { assert Conforms(SCAN_FALLBACK, v) <==> RuleFieldOk("rtp", "scan_fallback", v); }
  }

  lemma RtpObjectField(k: string, v: Json)
    requires k in {"conditions", "inspect"}
    ensures k in RTP_RULE.properties && (Conforms(RTP_RULE.properties[k], v) <==> RuleFieldOk("rtp", k, v))
  {
    if k == "conditions" { RtpConditions(v); } else { InspectConforms(v); }
  }

  lemma RtpField(k: string, v: Json)
    ensures k in RTP_RULE.properties <==> k in AllowedKeys("rtp")
    ensures k in AllowedKeys("rtp") ==> (Conforms(RTP_RULE.properties[k], v) <==> RuleFieldOk("rtp", k, v))
  {
    if k in {"conditions", "inspect"} {
      RtpObjectField(k, v);
    } else if k in RTP_RULE.properties || k in AllowedKeys("rtp") {
      RtpPlainField(k, v);
    }
  }

  lemma BypassField(k: string, v: Json)
    ensures k in BYPASS_RULE.properties <==> k in AllowedKeys("bypass")
    ensures k in AllowedKeys("bypass") ==> (Conforms(BYPASS_RULE.properties[k], v) <==> RuleFieldOk("bypass", k, v))
  {
    PlainField(v);
    BypassConditions(v);
  }

  lemma EgressField(k: string, v: Json)
    ensures k in EGRESS_RULE.properties <==> k in AllowedKeys("egress_ip")
    ensures k in AllowedKeys("egress_ip") ==>
      (Conforms(EGRESS_RULE.properties[k], v) <==> RuleFieldOk("egress_ip", k, v))
  {
    PlainField(v);
    EgressConditions(v);
  }

  lemma BrowserField(k: string, v: Json)
    ensures k in BROWSER_RULE.properties <==> k in AllowedKeys("enterprise_browser")
    ensures k in AllowedKeys("enterprise_browser") ==>
      (Conforms(BROWSER_RULE.properties[k], v) <==> RuleFieldOk("enterprise_browser", k, v))
  {
    PlainField(v);
    BrowserConditions(v);
  }

  /** A key that a rule of a type may have, and what its value must be. */
  lemma FieldConforms(t: string, k: string, v: Json)
    requires t in POLICY_TYPES
    ensures k in RuleOf(t).properties <==> k in AllowedKeys(t)
    ensures k in AllowedKeys(t) ==> (Conforms(RuleOf(t).properties[k], v) <==> RuleFieldOk(t, k, v))
  {
    RtpField(k, v);
    BypassField(k, v);
    EgressField(k, v);
    BrowserField(k, v);
  }

  /** A closed object whose fields are judged alike is judged alike. */
  lemma ObjectConforms(t: string, properties: map<string, Schema>, j: Json)
    requires forall k :: k in properties <==> k in AllowedKeys(t)
    requires j.Obj? ==> forall k :: k in j.fields && k in properties ==>
      (Conforms(properties[k], j.fields[k]) <==> RuleFieldOk(t, k, j.fields[k]))
    ensures Conforms(Object(RequiredKeys(t), properties, false, 0), j) <==> RuleSchema(t, j)
  {}

  lemma RuleConforms(t: string, j: Json)
    requires t in POLICY_TYPES
    ensures Conforms(RuleOf(t), j) <==> RuleSchema(t, j)
  {
    forall k ensures k in RuleOf(t).properties <==> k in AllowedKeys(t) { FieldConforms(t, k, Null); }
    if j.Obj? {
      forall k | k in j.fields && k in RuleOf(t).properties
        ensures Conforms(RuleOf(t).properties[k], j.fields[k]) <==> RuleFieldOk(t, k, j.fields[k])
      {
        FieldConforms(t, k, j.fields[k]);
      }
    }
    ObjectConforms(t, RuleOf(t).properties, j);
  }

  lemma BlockConforms(t: string, j: Json)
    requires t in POLICY_TYPES
    ensures Conforms(Block(RuleOf(t)), j) <==> BlockSchema(t, j)
  {
    if j.Obj? && "rules" in j.fields && j.fields["rules"].Arr? {
      forall r | r in j.fields["rules"].items { RuleConforms(t, r); }
    }
  }

  ghost predicate BlocksOk(j: Json) {
    && j.Obj? && j.fields != map[] && j.fields.Keys <= {"rtp", "bypass", "egress_ip", "enterprise_browser"}
    && forall t :: t in j.fields ==> BlockSchema(t, j.fields[t])
  }

  /** The value of a block, when it is there, is judged alike. */
  ghost predicate BlockAgrees(s: Schema, t: string, j: Json) {
    j.Obj? && t in j.fields ==> (Conforms(s, j.fields[t]) <==> BlockSchema(t, j.fields[t]))
  }

  /** An object of four optional blocks, whatever their schemas are. */
  lemma FourBlocks(r: Schema, b: Schema, e: Schema, w: Schema, j: Json)
    ensures
      var blocks := map["rtp" := r, "bypass" := b, "egress_ip" := e, "enterprise_browser" := w];
      Conforms(Object({}, blocks, false, 1), j) <==>
        && j.Obj? && j.fields != map[] && j.fields.Keys <= {"rtp", "bypass", "egress_ip", "enterprise_browser"}
        && ("rtp" in j.fields ==> Conforms(r, j.fields["rtp"]))
        && ("bypass" in j.fields ==> Conforms(b, j.fields["bypass"]))
        && ("egress_ip" in j.fields ==> Conforms(e, j.fields["egress_ip"]))
        && ("enterprise_browser" in j.fields ==> Conforms(w, j.fields["enterprise_browser"]))
  {}

  lemma BlocksOkIff(j: Json)
    ensures BlocksOk(j) <==>
      && j.Obj? && j.fields != map[] && j.fields.Keys <= {"rtp", "bypass", "egress_ip", "enterprise_browser"}
      && ("rtp" in j.fields ==> BlockSchema("rtp", j.fields["rtp"]))
      && ("bypass" in j.fields ==> BlockSchema("bypass", j.fields["bypass"]))
      && ("egress_ip" in j.fields ==> BlockSchema("egress_ip", j.fields["egress_ip"]))
      && ("enterprise_browser" in j.fields ==> BlockSchema("enterprise_browser", j.fields["enterprise_browser"]))
  {}

  lemma BlockOfType(t: string, j: Json)
    requires t in POLICY_TYPES
    ensures BlockAgrees(Block(RuleOf(t)), t, j)
  {
    if j.Obj? && t in j.fields { BlockConforms(t, j.fields[t]); }
  }

  lemma BlocksConform(j: Json)
    ensures Conforms(BLOCKS, j) <==> BlocksOk(j)
  {
    BlockOfType("rtp", j);
    BlockOfType("bypass", j);
    BlockOfType("egress_ip", j);
    BlockOfType("enterprise_browser", j);
    BlocksOkIff(j);
    FourBlocks(Block(RTP_RULE), Block(BYPASS_RULE), Block(EGRESS_RULE), Block(BROWSER_RULE), j);
  }

  /** An object of a default action and blocks, whatever their schemas are. */
  lemma ThreeFields(action: Schema, blocks: Schema, j: Json)
    ensures
      var properties := map["tenant_id" := Integer(1), "default_action" := action, "policies" := blocks];
      Conforms(Object({"default_action", "policies"}, properties, false, 0), j) <==>
        && j.Obj?
        && {"default_action", "policies"} <= j.fields.Keys <= {"tenant_id", "default_action", "policies"}
        && ("tenant_id" in j.fields ==> Conforms(Integer(1), j.fields["tenant_id"]))
        && Conforms(action, j.fields["default_action"]) && Conforms(blocks, j.fields["policies"])
  {}

  /** The validator's schema check accepts exactly the documents that conform to the schema document. */
  lemma SchemaValidIff(doc: Json)
    ensures SchemaValid(doc) <==> Conforms(POLICY, doc)
  {
    ThreeFields(ACTION, BLOCKS, doc);
    if doc.Obj? && {"default_action", "policies"} <= doc.fields.Keys {
      BlocksConform(doc.fields["policies"]);
      ActionConforms(doc.fields["default_action"]);
      if "tenant_id" in doc.fields { IntegerConforms(doc.fields["tenant_id"], 1); }
    }
  }
}
