/** Policies in memory: rule records, the compiled AST and the tenant policy (policy/tenant_types.go). */
module Policy {
  import opened Text
  import opened Json

  /** policy.Action is a string type; these are its constants (policy/types.go). */
  type Action = string

  const ALLOW: Action := "allow"
  const BLOCK: Action := "block"
  const COACH: Action := "coach"
  const INSPECT_DLP: Action := "inspect_dlp"
  const INSPECT_MCP: Action := "inspect_mcp"

  datatype RuleConditions = RuleConditions(
    domains: seq<string>,
    methods: seq<string>,
    groups: seq<string>,
    samlGroups: seq<string>,
    egressIps: seq<string>,
    destinations: seq<string>,
    protocols: seq<string>)

  /** `mcp` is the raw JSON of the field, None when the field is absent. */
  datatype InspectConfig = InspectConfig(dlp: bool, mcp: Option<Json>)

  datatype RuleRecord = RuleRecord(
    id: string,
    policyType: string,
    priority: int,
    name: string,
    action: string,
    message: string,
    conditions: RuleConditions,
    inspect: InspectConfig,
    scanFallback: string,
    sslMode: string,
    isolation: string)

  /** A regular expression engine: which patterns compile, and what they match. */
  datatype Regex = Regex(compiles: string -> bool, matches: (string, string) -> bool)

  /** A rule with its compiled patterns; a compiled pattern is named by its text. */
  datatype IndexedRule = IndexedRule(record: RuleRecord, domains: seq<string>, dests: seq<string>)

  type AstMap = map<string, seq<IndexedRule>>

  /** The four fields Swap overwrites. */
  datatype TenantPolicy = TenantPolicy(
    defaultAction: Action,
    evaluationOrder: seq<string>,
    rules: seq<RuleRecord>,
    ast: Option<AstMap>)

  const POLICY_TYPE_ORDER: seq<string> := ["bypass", "egress_ip", "enterprise_browser", "rtp"]
}
