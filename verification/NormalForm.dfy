/** What normalisation makes of a document, read off the document before and the document after. */
module NormalForm {
  import opened Text
  import opened Json
  import opened Normalizer

  // ---------- actions ----------

  /** A name in any case becomes that name, "forward" becomes FWD, and any other text its upper-case form. */
  lemma NormalizeActionMeans(a: string)
    ensures forall n :: n in {"ALLOW", "BLOCK", "BYPASS", "FWD", "COACH", "CONTINUE"} && EqualFold(a, n) ==>
      NormalizeAction(a) == n
    ensures EqualFold(a, "forward") ==> NormalizeAction(a) == "FWD"
    ensures
      var names := {"ALLOW", "BLOCK", "BYPASS", "FWD", "COACH", "CONTINUE", "forward"};
      (forall n :: n in names ==> !EqualFold(a, n)) ==> NormalizeAction(a) == Upper(a)
  {
    forall n | n in {"ALLOW", "BLOCK", "BYPASS", "FWD", "COACH", "CONTINUE"} && EqualFold(a, n)
      ensures NormalizeAction(a) == n
    {
      FoldIsUpper(a, n);
      NameIsUpper(n);
    }
    LowerNames(a);
  }

  lemma NameIsUpper(n: string)
    requires n in {"ALLOW", "BLOCK", "BYPASS", "FWD", "COACH", "CONTINUE"}
    ensures Upper(n) == n && IsTerminal(n)
  {}

  /** The keys of the legacy map are the names in lower case, and "forward". */
  lemma LowerNames(a: string)
    ensures EqualFold(a, "forward") ==> Lower(a) == "forward" && !IsTerminal(Upper(a))
    ensures LegacyAction(Lower(a)) != "" ==>
      exists n :: n in {"ALLOW", "BLOCK", "BYPASS", "FWD", "COACH", "CONTINUE", "forward"} && EqualFold(a, n)
    ensures IsTerminal(Upper(a)) ==> EqualFold(a, Upper(a))
  {
    LowerUpper(a);
    UpperLower(a);
    assert Lower("ALLOW") == "allow" && Lower("BLOCK") == "block" && Lower("COACH") == "coach";
    assert Lower("BYPASS") == "bypass" && Lower("FWD") == "fwd" && Lower("CONTINUE") == "continue";
    assert Lower("forward") == "forward" && Upper("forward") == "FORWARD";
    if EqualFold(a, "forward") { FoldIsUpper(a, "forward"); }
    if LegacyAction(Lower(a)) != "" {
      assert EqualFold(a, "ALLOW") || EqualFold(a, "BLOCK") || EqualFold(a, "COACH") || EqualFold(a, "BYPASS")
        || EqualFold(a, "FWD") || EqualFold(a, "forward") || EqualFold(a, "CONTINUE");
    }
  }

  // ---------- envelopes ----------

  /** The text of a field, or what Python's get gives for a missing one. */
  function TextOr(m: map<string, Json>, key: string, fallback: string): string {
    if key !in m then fallback else if m[key].Str? then m[key].s else ""
  }

  /** A rule after normalisation: its action is normal, all else is as it was. */
  ghost predicate NormalRule(before: Json, after: Json) {
    if before.Obj? && "action" in before.fields then
      && before.fields["action"].Str? && after.Obj? && after.fields.Keys == before.fields.Keys
      && after.fields["action"] == Str(NormalizeAction(before.fields["action"].s))
      && forall k :: k in before.fields && k != "action" ==> after.fields[k] == before.fields[k]
    else after == before
  }

  ghost predicate NormalRules(before: seq<Json>, after: seq<Json>) {
    |after| == |before| && forall i :: 0 <= i < |before| ==> NormalRule(before[i], after[i])
  }

  /** A block after normalisation: only the rules of its list may differ. */
  ghost predicate NormalBlock(before: Json, after: Json) {
    if before.Obj? && "rules" in before.fields && before.fields["rules"].Arr? then
      && after.Obj? && after.fields.Keys == before.fields.Keys && after.fields["rules"].Arr?
      && NormalRules(before.fields["rules"].items, after.fields["rules"].items)
      && forall k :: k in before.fields && k != "rules" ==> after.fields[k] == before.fields[k]
    else after == before
  }

  ghost predicate NormalBlocks(before: map<string, Json>, after: map<string, Json>) {
    && after.Keys == before.Keys
    && forall t :: t in before ==>
      if t in {"rtp", "bypass", "egress_ip", "enterprise_browser"} then NormalBlock(before[t], after[t])
      else after[t] == before[t]
  }

  /** An envelope after normalisation. */
  ghost predicate NormalEnvelope(m: map<string, Json>, d: map<string, Json>) {
    && d.Keys == m.Keys + {"default_action"} && "policies" in m
    && d["default_action"] == Str(NormalizeAction(TextOr(m, "default_action", "ALLOW")))
    && m["policies"].Obj? && d["policies"].Obj? && NormalBlocks(m["policies"].fields, d["policies"].fields)
    && forall k :: k in m && k != "default_action" && k != "policies" ==> d[k] == m[k]
  }

  lemma {:induction false} RulesNormal(rules: seq<Json>)
    requires NormalizeRules(rules).Ok?
    ensures NormalRules(rules, NormalizeRules(rules).value)
  {
    if rules != [] {
      RulesNormal(rules[1..]);
      assert NormalRule(rules[0], NormalizeRules(rules).value[0]);
    }
  }

  lemma BlockNormal(block: Json)
    requires NormalizeBlock(block).Ok?
    ensures NormalBlock(block, NormalizeBlock(block).value)
  {
    if block.Obj? && "rules" in block.fields && block.fields["rules"].Arr? {
      var xs := block.fields["rules"].items;
      if xs != [] { RulesNormal(xs); }
    }
  }

  lemma BlocksNormal(policies: map<string, Json>)
    requires NormalizeBlocks(policies, POLICY_TYPES).Ok?
    ensures NormalBlocks(policies, NormalizeBlocks(policies, POLICY_TYPES).value)
  {
    var types := POLICY_TYPES;
    NormalizeBlocksAt(policies, types);
    forall t | t in policies && t in types ensures NormalBlock(policies[t], NormalizeBlocks(policies, types).value[t]) {
      BlockNormal(policies[t]);
    }
  }

  // ---------- legacy documents ----------

  /** A legacy rule after migration, for the action text `a`. */
  ghost predicate MigratedRule(m: map<string, Json>, d: map<string, Json>, a: string) {
    var dlp, mcp := EqualFold(a, "inspect_dlp"), EqualFold(a, "inspect_mcp");
    && d.Keys == m.Keys - {"mcp"} + {"action"} + (if dlp || mcp then {"inspect", "scan_fallback"} else {})
    && d["action"] == Str(if dlp || mcp then "ALLOW" else NormalizeAction(a))
    && (dlp ==> d["inspect"] == Obj(map["dlp" := Bool(true)]))
    && (mcp ==> d["inspect"] == Obj(map["mcp" := if "mcp" in m && Truthy(m["mcp"]) then m["mcp"] else Bool(true)]))
    && ((dlp || mcp) && "scan_fallback" !in m ==> d["scan_fallback"] == Str("fallback_block"))
    && forall k :: k in m && k != "mcp" && k != "action" && !((dlp || mcp) && k == "inspect") ==> d[k] == m[k]
  }

  ghost predicate Migrated(before: Json, after: Json) {
    && before.Obj? && after.Obj? && ("action" in before.fields ==> before.fields["action"].Str?)
    && MigratedRule(before.fields, after.fields, TextOr(before.fields, "action", "ALLOW"))
  }

  lemma RuleMigrated(rule: Json)
    requires MigrateRule(rule).Ok?
    ensures Migrated(rule, MigrateRule(rule).value)
  {
    assert Lower("inspect_dlp") == "inspect_dlp" && Lower("inspect_mcp") == "inspect_mcp";
  }

  /** A legacy document after normalisation: one rtp block, its rules migrated one by one in their order. */
  ghost predicate NormalLegacy(m: map<string, Json>, d: map<string, Json>) {
    && d.Keys == {"default_action", "policies"}
    && d["default_action"] == Str(NormalizeAction(TextOr(m, "default_action", "ALLOW")))
    && exists rules :: d["policies"] == Obj(map["rtp" := Obj(map["rules" := Arr(rules)])]) && MigratedList(m, rules)
  }

  /** The migrated rules of a document; a missing or empty collection has none. */
  ghost predicate MigratedList(m: map<string, Json>, rules: seq<Json>) {
    if "rules" in m && m["rules"].Arr? then
      |rules| == |m["rules"].items| && forall i :: 0 <= i < |rules| ==> Migrated(m["rules"].items[i], rules[i])
    else rules == []
  }

  lemma ListMigrated(m: map<string, Json>)
    requires MigrateList(Get(m, "rules", Arr([]))).Ok?
    ensures MigratedList(m, MigrateList(Get(m, "rules", Arr([]))).value)
  {
    if "rules" in m && m["rules"].Arr? {
      var xs := m["rules"].items;
      MigrateRulesPointwise(xs);
      forall i | 0 <= i < |xs| ensures Migrated(xs[i], MigrateRules(xs).value[i]) { RuleMigrated(xs[i]); }
    }
  }

  // ---------- documents ----------

  /** The normal form of a document. */
  ghost predicate NormalForm(before: Json, after: Json) {
    && before.Obj? && after.Obj?
    && if "policies" in before.fields then NormalEnvelope(before.fields, after.fields)
       else NormalLegacy(before.fields, after.fields)
  }

  /** Normalisation yields the normal form: every action normal, every other value where it was. */
  lemma NormalizeYieldsNormalForm(doc: Json)
    requires Normalize(doc).Ok?
    ensures NormalForm(doc, Normalize(doc).value)
  {
    if "policies" in doc.fields { BlocksNormal(doc.fields["policies"].fields); } else { ListMigrated(doc.fields); }
  }

  // ---------- which documents are accepted ----------

  /** "action" is a key, an element or a part of the value, as Python's `in` has it. */
  ghost predicate MentionsAction(s: string) {
    exists i, j :: 0 <= i <= j <= |s| && s[i..j] == "action"
  }

  /** An element of a rule list whose action the loop can rewrite, or which has none. */
  ghost predicate Rewritable(rule: Json) {
    match rule
    case Obj(m) => "action" in m ==> m["action"].Str?
    case Arr(xs) => Str("action") !in xs
    case Str(s) => !MentionsAction(s)
    case _ => false
  }

  ghost predicate RewritableRules(rules: Json) {
    match rules
    case Arr(xs) => forall x :: x in xs ==> Rewritable(x)
    case Obj(m) => forall k :: k in m ==> !MentionsAction(k)
    case Str(_) => true
    case _ => !Truthy(rules)
  }

  ghost predicate RewritableBlock(block: Json) {
    !Truthy(block) || (block.Obj? && ("rules" in block.fields ==> RewritableRules(block.fields["rules"])))
  }

  ghost predicate Normalizable(doc: Json) {
    && doc.Obj? && ("default_action" in doc.fields ==> doc.fields["default_action"].Str?)
    && if "policies" in doc.fields then
         && doc.fields["policies"].Obj?
         && var ps := doc.fields["policies"].fields;
         && forall t :: t in {"rtp", "bypass", "egress_ip", "enterprise_browser"} && t in ps ==> RewritableBlock(ps[t])
       else "rules" in doc.fields ==> MigratableList(doc.fields["rules"])
  }

  ghost predicate MigratableList(rules: Json) {
    match rules
    case Arr(xs) => forall x :: x in xs ==> x.Obj? && ("action" in x.fields ==> x.fields["action"].Str?)
    case Str(s) => s == ""
    case Obj(m) => m == map[]
    case _ => false
  }

  lemma {:induction false} ContainsMeans(s: string)
    ensures ContainsAction(s) <==> MentionsAction(s)
  {
    if |s| >= 6 {
      ContainsMeans(s[1..]);
      if s[..6] == "action" {
        assert s[0..6] == "action";
      } else {
        if i, j :| 0 <= i <= j <= |s[1..]| && s[1..][i..j] == "action" { assert s[i + 1..j + 1] == "action"; }
        if i, j :| 0 <= i <= j <= |s| && s[i..j] == "action" { assert i > 0 && s[1..][i - 1..j - 1] == "action"; }
      }
    }
  }

  lemma RuleAccepted(rule: Json)
    ensures NormalizeRule(rule).Ok? <==> Rewritable(rule)
  {
    if rule.Str? { ContainsMeans(rule.s); }
  }

  lemma {:induction false} RulesAccepted(rules: seq<Json>)
    ensures NormalizeRules(rules).Ok? <==> forall x :: x in rules ==> Rewritable(x)
  {
    if rules != [] {
      RuleAccepted(rules[0]);
      RulesAccepted(rules[1..]);
      assert forall x :: x in rules <==> x == rules[0] || x in rules[1..];
    }
  }

  lemma BlockAccepted(block: Json)
    ensures NormalizeBlock(block).Ok? <==> RewritableBlock(block)
  {
    if block.Obj? && "rules" in block.fields {
      match block.fields["rules"]
      case Arr(xs) => RulesAccepted(xs);
      case Obj(m) => forall k | k in m ensures ContainsAction(k) <==> MentionsAction(k) { ContainsMeans(k); }
      case _ =>
    }
  }

  lemma {:induction false} BlocksAccepted(policies: map<string, Json>, types: seq<string>)
    requires forall i, j :: 0 <= i < j < |types| ==> types[i] != types[j]
    ensures NormalizeBlocks(policies, types).Ok? <==>
      forall t :: t in types && t in policies ==> RewritableBlock(policies[t])
  {
    if types != [] {
      assert forall t :: t in types <==> t == types[0] || t in types[1..];
      if types[0] in policies {
        BlockAccepted(policies[types[0]]);
        if NormalizeBlock(policies[types[0]]).Ok? {
          BlocksAccepted(policies[types[0] := NormalizeBlock(policies[types[0]]).value], types[1..]);
        }
      } else {
        BlocksAccepted(policies, types[1..]);
      }
    }
  }

  lemma {:induction false} MigrationAccepted(rules: seq<Json>)
    ensures MigrateRules(rules).Ok? <==>
      forall x :: x in rules ==> x.Obj? && ("action" in x.fields ==> x.fields["action"].Str?)
  {
    if rules != [] {
      MigrationAccepted(rules[1..]);
      assert forall x :: x in rules <==> x == rules[0] || x in rules[1..];
    }
  }

  /** Normalisation raises nothing exactly on documents of the right shape. */
  lemma NormalizeSucceedsIff(doc: Json)
    ensures Normalize(doc).Ok? <==> Normalizable(doc)
  {
    if doc.Obj? {
      var m, types := doc.fields, POLICY_TYPES;
      if "policies" in m && m["policies"].Obj? { BlocksAccepted(m["policies"].fields, types); }
      if "rules" in m && m["rules"].Arr? { MigrationAccepted(m["rules"].items); }
    }
  }
}
