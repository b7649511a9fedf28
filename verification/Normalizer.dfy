/** Normalisation of uploaded documents to the canonical envelope (controlplane/policy_compiler/normalizer.py). */
module Normalizer {
  import opened Text
  import opened Json

  /** Crash stands for the TypeError or AttributeError Python raises on a value of the wrong shape. */
  datatype Result<+T> = Ok(value: T) | Crash

  const POLICY_TYPES: seq<string> := ["rtp", "bypass", "egress_ip", "enterprise_browser"]

  predicate IsTerminal(a: string) {
    a in {"ALLOW", "BLOCK", "BYPASS", "FWD", "COACH", "CONTINUE"}
  }

  /** _LEGACY_ACTION_MAP, "" when the key is absent. */
  function LegacyAction(lower: string): string {
    if lower == "allow" then "ALLOW"
    else if lower == "block" then "BLOCK"
    else if lower == "coach" then "COACH"
    else if lower == "bypass" then "BYPASS"
    else if lower == "fwd" || lower == "forward" then "FWD"
    else if lower == "continue" then "CONTINUE"
    else ""
  }

  /** normalize_terminal_action. */
  function NormalizeAction(action: string): string {
    var upper := Upper(action);
    if IsTerminal(upper) then upper
    else
      var mapped := LegacyAction(Lower(action));
      if mapped != "" then mapped else upper
  }

  lemma NormalizeActionIdempotent(a: string)
    ensures NormalizeAction(NormalizeAction(a)) == NormalizeAction(a)
  {
    UpperUpper(a);
    LowerUpper(a);
    assert IsTerminal(LegacyAction(Lower(a))) ==> Upper(LegacyAction(Lower(a))) == LegacyAction(Lower(a));
  }

  /** `"action" in s` on a Python string. */
  predicate ContainsAction(s: string) {
    |s| >= 6 && (s[..6] == "action" || ContainsAction(s[1..]))
  }

  /** The loop body over a rule of an envelope: normalise its action in place. */
  function NormalizeRule(rule: Json): Result<Json> {
    match rule
    case Obj(m) =>
      if "action" !in m then Ok(rule)
      else if m["action"].Str? then Ok(Obj(m["action" := Str(NormalizeAction(m["action"].s))]))
      else Crash
    case Arr(xs) => if Str("action") in xs then Crash else Ok(rule)
    case Str(s) => if ContainsAction(s) then Crash else Ok(rule)
    case _ => Crash
  }

  /** Rules already handled, then the outcome for the rest. */
  function Prepend(done: seq<Json>, rest: Result<seq<Json>>): Result<seq<Json>> {
    if rest.Crash? then Crash else Ok(done + rest.value)
  }

  lemma PrependAssociative(done: seq<Json>, one: seq<Json>, rest: Result<seq<Json>>)
    ensures Prepend(done, Prepend(one, rest)) == Prepend(done + one, rest)
  {
    if rest.Ok? { assert done + (one + rest.value) == done + one + rest.value; }
  }

  lemma PrependNothing(rest: Result<seq<Json>>)
    ensures Prepend([], rest) == rest
  {
    if rest.Ok? { assert [] + rest.value == rest.value; }
  }

  function NormalizeRules(rules: seq<Json>): Result<seq<Json>> {
    if rules == [] then Ok([])
    else
      match NormalizeRule(rules[0])
      case Crash => Crash
      case Ok(r) => Prepend([r], NormalizeRules(rules[1..]))
  }

  /** One block of an envelope; a falsy block or rules value is skipped. */
  function NormalizeBlock(block: Json): Result<Json> {
    if !Truthy(block) then Ok(block)
    else if !block.Obj? then Crash
    else if "rules" !in block.fields || !Truthy(block.fields["rules"]) then Ok(block)
    else
      match block.fields["rules"]
      case Arr(xs) =>
        (match NormalizeRules(xs)
         case Crash => Crash
         case Ok(ys) => Ok(Obj(block.fields["rules" := Arr(ys)])))
      case Obj(m) => if exists k :: k in m && ContainsAction(k) then Crash else Ok(block)
      case Str(_) => Ok(block)
      case _ => Crash
  }

  /** The blocks of the given types, one after the other. */
  function NormalizeBlocks(policies: map<string, Json>, types: seq<string>): Result<map<string, Json>> {
    if types == [] then Ok(policies)
    else if types[0] !in policies then NormalizeBlocks(policies, types[1..])
    else
      match NormalizeBlock(policies[types[0]])
      case Crash => Crash
      case Ok(b) => NormalizeBlocks(policies[types[0] := b], types[1..])
  }

  /** _migrate_legacy_rule. */
  function MigrateRule(rule: Json): Result<Json> {
    if !rule.Obj? then Crash
    else
      var m := rule.fields;
      var raw := Get(m, "action", Str("ALLOW"));
      if !raw.Str? then Crash
      else Ok(Obj(MigrateFields(m, raw.s) - {"mcp"}))
  }

  function MigrateFields(m: map<string, Json>, action: string): map<string, Json> {
    var lower := Lower(action);
    if lower == "inspect_dlp" then
      WithFallback(m["action" := Str("ALLOW")])["inspect" := Obj(map["dlp" := Bool(true)])]
    else if lower == "inspect_mcp" then
      var mcp := if "mcp" in m && Truthy(m["mcp"]) then m["mcp"] else Bool(true);
      WithFallback(m["action" := Str("ALLOW")])["inspect" := Obj(map["mcp" := mcp])]
    else
      m["action" := Str(NormalizeAction(action))]
  }

  /** setdefault("scan_fallback", "fallback_block"). */
  function WithFallback(m: map<string, Json>): map<string, Json> {
    if "scan_fallback" in m then m else m["scan_fallback" := Str("fallback_block")]
  }

  function MigrateRules(rules: seq<Json>): Result<seq<Json>> {
    if rules == [] then Ok([])
    else
      match MigrateRule(rules[0])
      case Crash => Crash
      case Ok(r) => Prepend([r], MigrateRules(rules[1..]))
  }

  /** What `for rule in rules` walks in a legacy document; every element of a non-empty text or object crashes. */
  function MigrateList(rules: Json): Result<seq<Json>> {
    match rules
    case Arr(xs) => MigrateRules(xs)
    case Str(s) => if s == [] then Ok([]) else Crash
    case Obj(m) => if m == map[] then Ok([]) else Crash
    case _ => Crash
  }

  /** normalize_policy_document. */
  function Normalize(doc: Json): Result<Json> {
    if !doc.Obj? then Crash
    else
      var m := doc.fields;
      var default := Get(m, "default_action", Str("ALLOW"));
      if "policies" in m then
        if !default.Str? || !m["policies"].Obj? then Crash
        else
          match NormalizeBlocks(m["policies"].fields, POLICY_TYPES)
          case Crash => Crash
          case Ok(ps) => Ok(Obj(m["default_action" := Str(NormalizeAction(default.s))]["policies" := Obj(ps)]))
      else
        match MigrateList(Get(m, "rules", Arr([])))
        case Crash => Crash
        case Ok(rules) => if default.Str? then Ok(LegacyEnvelope(NormalizeAction(default.s), rules)) else Crash
  }

  function LegacyEnvelope(default: string, rules: seq<Json>): Json {
    Obj(map["default_action" := Str(default),
            "policies" := Obj(map["rtp" := Obj(map["rules" := Arr(rules)])])])
  }

  // ---------- the loops of the source ----------

  /** The inner loop over the rules of one block, rewriting the copy in place. */
  method NormalizeRulesLoop(xs: seq<Json>) returns (r: Result<seq<Json>>)
    ensures r == NormalizeRules(xs)
  {
    var rules := xs;
    PrependNothing(NormalizeRules(xs));
    for i := 0 to |xs|
      invariant |rules| == |xs| && rules[i..] == xs[i..]
      invariant NormalizeRules(xs) == Prepend(rules[..i], NormalizeRules(xs[i..]))
    {
      var one := NormalizeRule(rules[i]);
      assert rules[i] == xs[i] by { assert rules[i] == rules[i..][0] && xs[i] == xs[i..][0]; }
      if one.Crash? { return Crash; }
      assert NormalizeRules(xs[i..]) == Prepend([one.value], NormalizeRules(xs[i + 1..])) by {
        assert xs[i..][1..] == xs[i + 1..];
      }
      PrependAssociative(rules[..i], [one.value], NormalizeRules(xs[i + 1..]));
      rules := rules[i := one.value];
      assert rules[..i + 1] == rules[..i] + [one.value];
    }
    assert rules[..|xs|] == rules && rules + [] == rules && xs[|xs|..] == [];
    return Ok(rules);
  }

  method MigrateRulesLoop(xs: seq<Json>) returns (r: Result<seq<Json>>)
    ensures r == MigrateRules(xs)
  {
    var rules := [];
    PrependNothing(MigrateRules(xs));
    for i := 0 to |xs|
      invariant MigrateRules(xs) == Prepend(rules, MigrateRules(xs[i..]))
    {
      var one := MigrateRule(xs[i]);
      if one.Crash? { return Crash; }
      assert MigrateRules(xs[i..]) == Prepend([one.value], MigrateRules(xs[i + 1..])) by {
        assert xs[i..][1..] == xs[i + 1..];
      }
      PrependAssociative(rules, [one.value], MigrateRules(xs[i + 1..]));
      rules := rules + [one.value];
    }
    assert rules + [] == rules && xs[|xs|..] == [];
    return Ok(rules);
  }

  /** normalize_policy_document, block by block on a deep copy. */
  method NormalizeDocument(doc: Json) returns (r: Result<Json>)
    ensures r == Normalize(doc)
  {
    if !doc.Obj? { return Crash; }
    var normalized := doc.fields;
    var default := Get(doc.fields, "default_action", Str("ALLOW"));
    if "policies" in doc.fields {
      if !default.Str? || !normalized["policies"].Obj? { return Crash; }
      normalized := normalized["default_action" := Str(NormalizeAction(default.s))];
      var policies := normalized["policies"].fields;
      for i := 0 to |POLICY_TYPES|
        invariant NormalizeBlocks(doc.fields["policies"].fields, POLICY_TYPES) ==
          NormalizeBlocks(policies, POLICY_TYPES[i..])
      {
        var t := POLICY_TYPES[i];
        if t !in policies || !Truthy(policies[t]) {
          assert t in policies ==> policies[t := policies[t]] == policies;
          continue;
        }
        var block := policies[t];
        if !block.Obj? { return Crash; }
        if "rules" in block.fields && Truthy(block.fields["rules"]) && block.fields["rules"].Arr? {
          var rules := NormalizeRulesLoop(block.fields["rules"].items);
          if rules.Crash? { return Crash; }
          policies := policies[t := Obj(block.fields["rules" := Arr(rules.value)])];
        } else {
          var skipped := NormalizeBlock(block);
          if skipped.Crash? { return Crash; }
          assert policies[t := block] == policies;
        }
      }
      return Ok(Obj(normalized["policies" := Obj(policies)]));
    }
    var listed := Get(doc.fields, "rules", Arr([]));
    var rules: Result<seq<Json>> := MigrateList(listed);
    if listed.Arr? { rules := MigrateRulesLoop(listed.items); }
    if rules.Crash? || !default.Str? { return Crash; }
    return Ok(LegacyEnvelope(NormalizeAction(default.s), rules.value));
  }

  // ---------- properties ----------

  lemma NormalizeRuleIdempotent(rule: Json)
    requires NormalizeRule(rule).Ok?
    ensures NormalizeRule(NormalizeRule(rule).value) == NormalizeRule(rule)
  {
    if rule.Obj? && "action" in rule.fields {
      NormalizeActionIdempotent(rule.fields["action"].s);
      var once := NormalizeRule(rule).value.fields;
      assert once["action" := once["action"]] == once;
    }
  }

  lemma {:induction false} NormalizeRulesIdempotent(rules: seq<Json>)
    requires NormalizeRules(rules).Ok?
    ensures |NormalizeRules(rules).value| == |rules|
    ensures NormalizeRules(NormalizeRules(rules).value) == NormalizeRules(rules)
  {
    if rules != [] {
      NormalizeRuleIdempotent(rules[0]);
      NormalizeRulesIdempotent(rules[1..]);
    }
  }

  lemma NormalizeBlockIdempotent(block: Json)
    requires NormalizeBlock(block).Ok?
    ensures NormalizeBlock(NormalizeBlock(block).value) == NormalizeBlock(block)
  {
    if Truthy(block) && "rules" in block.fields && block.fields["rules"].Arr? && Truthy(block.fields["rules"]) {
      NormalizeRulesIdempotent(block.fields["rules"].items);
      var once := NormalizeBlock(block).value.fields;
      assert once["rules" := once["rules"]] == once;
    }
  }

  /** Normalising the blocks of distinct types rewrites each of them once and nothing else. */
  lemma {:induction false} NormalizeBlocksAt(policies: map<string, Json>, types: seq<string>)
    requires NormalizeBlocks(policies, types).Ok?
    requires forall i, j :: 0 <= i < j < |types| ==> types[i] != types[j]
    ensures var ps := NormalizeBlocks(policies, types).value;
      && ps.Keys == policies.Keys
      && (forall t :: t in policies && t !in types ==> ps[t] == policies[t])
      && (forall t :: t in policies && t in types ==> NormalizeBlock(policies[t]) == Ok(ps[t]))
  {
    if types != [] {
      if types[0] !in policies {
        NormalizeBlocksAt(policies, types[1..]);
      } else {
        var b := NormalizeBlock(policies[types[0]]).value;
        NormalizeBlocksAt(policies[types[0] := b], types[1..]);
      }
    }
  }

  lemma {:induction false} StableBlocks(policies: map<string, Json>, types: seq<string>)
    requires forall t :: t in policies && t in types ==> NormalizeBlock(policies[t]) == Ok(policies[t])
    ensures NormalizeBlocks(policies, types) == Ok(policies)
  {
    if types != [] {
      if types[0] in policies { assert policies[types[0] := policies[types[0]]] == policies; }
      StableBlocks(policies, types[1..]);
    }
  }

  /** A migrated rule already carries a normal action. */
  lemma MigratedRuleStable(rule: Json)
    requires MigrateRule(rule).Ok?
    ensures NormalizeRule(MigrateRule(rule).value) == MigrateRule(rule)
  {
    NormalizeActionIdempotent(Get(rule.fields, "action", Str("ALLOW")).s);
    var once := MigrateRule(rule).value.fields;
    assert Upper("ALLOW") == "ALLOW";
    assert once["action"] == Str(NormalizeAction(once["action"].s));
    assert once["action" := once["action"]] == once;
  }

  lemma {:induction false} MigratedRulesStable(rules: seq<Json>)
    requires MigrateRules(rules).Ok?
    ensures |MigrateRules(rules).value| == |rules|
    ensures NormalizeRules(MigrateRules(rules).value) == MigrateRules(rules)
  {
    if rules != [] {
      MigratedRuleStable(rules[0]);
      MigratedRulesStable(rules[1..]);
    }
  }

  /** Normalisation is idempotent on every document that it accepts, legacy or envelope. */
  lemma NormalizeIdempotent(doc: Json)
    requires Normalize(doc).Ok?
    ensures Normalize(Normalize(doc).value) == Normalize(doc)
  {
    var m := doc.fields;
    var default := Get(m, "default_action", Str("ALLOW")).s;
    NormalizeActionIdempotent(default);
    var once := Normalize(doc).value.fields;
    if "policies" in m {
      var policies := m["policies"].fields;
      NormalizeBlocksAt(policies, POLICY_TYPES);
      var ps := NormalizeBlocks(policies, POLICY_TYPES).value;
      forall t | t in ps && t in POLICY_TYPES ensures NormalizeBlock(ps[t]) == Ok(ps[t]) {
        NormalizeBlockIdempotent(policies[t]);
      }
      StableBlocks(ps, POLICY_TYPES);
      assert once["default_action" := once["default_action"]]["policies" := once["policies"]] == once;
    } else {
      var rules := MigrateList(Get(m, "rules", Arr([]))).value;
      var rtp := map["rtp" := Obj(map["rules" := Arr(rules)])];
      LegacyBlockStable(Get(m, "rules", Arr([])));
      StableBlocks(rtp, POLICY_TYPES);
      assert once["default_action" := once["default_action"]]["policies" := once["policies"]] == once;
    }
  }

  lemma LegacyBlockStable(rules: Json)
    requires MigrateList(rules).Ok?
    ensures var block := Obj(map["rules" := Arr(MigrateList(rules).value)]);
      NormalizeBlock(block) == Ok(block)
  {
    if rules.Arr? { MigratedRulesStable(rules.items); }
    var out := MigrateList(rules).value;
    assert map["rules" := Arr(out)]["rules" := Arr(out)] == map["rules" := Arr(out)];
  }

  // ---------- the rules of a document ----------

  /** The rule list of one block of an envelope, empty when the block or its list is missing. */
  function BlockRules(doc: Json, t: string): seq<Json> {
    if doc.Obj? && "policies" in doc.fields && doc.fields["policies"].Obj? && t in doc.fields["policies"].fields
    then ListOf(doc.fields["policies"].fields[t])
    else []
  }

  function ListOf(block: Json): seq<Json> {
    if block.Obj? && "rules" in block.fields && block.fields["rules"].Arr? then block.fields["rules"].items else []
  }

  function Tag(t: string, rules: seq<Json>): seq<(string, Json)> {
    seq(|rules|, i requires 0 <= i < |rules| => (t, rules[i]))
  }

  /** iter_policy_rules over the given block types. */
  function RulesOfTypes(doc: Json, types: seq<string>): seq<(string, Json)> {
    if types == [] then [] else Tag(types[0], BlockRules(doc, types[0])) + RulesOfTypes(doc, types[1..])
  }

  function IterRules(doc: Json): seq<(string, Json)> {
    RulesOfTypes(doc, POLICY_TYPES)
  }

  /** iter_policy_rules appends pair by pair in two nested loops. */
  method IterRulesLoop(doc: Json) returns (out: seq<(string, Json)>)
    ensures out == IterRules(doc)
  {
    var types := POLICY_TYPES;
    out := AppendRules(doc, types);
  }

  method AppendRules(doc: Json, types: seq<string>) returns (out: seq<(string, Json)>)
    ensures out == RulesOfTypes(doc, types)
  {
    out := [];
    for i := 0 to |types|
      invariant out + RulesOfTypes(doc, types[i..]) == RulesOfTypes(doc, types)
    {
      var t, start := types[i], out;
      var rules := BlockRules(doc, t);
      for j := 0 to |rules|
        invariant out == start + Tag(t, rules)[..j]
      {
        out := out + [(t, rules[j])];
      }
      assert types[i..][1..] == types[i + 1..];
      assert out + RulesOfTypes(doc, types[i + 1..]) == start + RulesOfTypes(doc, types[i..]);
    }
  }

  /** A rule of an envelope keeps every key and every value but its action. */
  predicate SameButAction(before: Json, after: Json) {
    if before.Obj? then
      && after.Obj? && after.fields.Keys == before.fields.Keys
      && forall k :: k in before.fields && k != "action" ==> after.fields[k] == before.fields[k]
    else after == before
  }

  lemma {:induction false} NormalizeRulesKeep(rules: seq<Json>)
    requires NormalizeRules(rules).Ok?
    ensures var out := NormalizeRules(rules).value;
      |out| == |rules| && forall i :: 0 <= i < |rules| ==> SameButAction(rules[i], out[i])
  {
    if rules != [] {
      NormalizeRulesKeep(rules[1..]);
      assert SameButAction(rules[0], NormalizeRules(rules).value[0]);
    }
  }

  /** In an envelope every block keeps the number and the order of its rules, and each rule all but its action. */
  lemma EnvelopeKeepsRules(doc: Json, t: string)
    requires Normalize(doc).Ok? && "policies" in doc.fields && t in POLICY_TYPES
    ensures var before, after := BlockRules(doc, t), BlockRules(Normalize(doc).value, t);
      |after| == |before| && forall i :: 0 <= i < |before| ==> SameButAction(before[i], after[i])
  {
    var policies := doc.fields["policies"].fields;
    NormalizeBlocksAt(policies, POLICY_TYPES);
    if t in policies && ListOf(policies[t]) != [] {
      NormalizeRulesKeep(ListOf(policies[t]));
    }
  }

  /** A legacy document becomes one rtp block with its rules, migrated one by one in their order. */
  lemma LegacyKeepsRules(doc: Json)
    requires Normalize(doc).Ok? && "policies" !in doc.fields && Get(doc.fields, "rules", Arr([])).Arr?
    ensures var rules, after := Get(doc.fields, "rules", Arr([])).items, Normalize(doc).value;
      && IterRules(after) == Tag("rtp", BlockRules(after, "rtp"))
      && |BlockRules(after, "rtp")| == |rules|
      && forall i :: 0 <= i < |rules| ==> MigrateRule(rules[i]) == Ok(BlockRules(after, "rtp")[i])
  {
    var rules, after := Get(doc.fields, "rules", Arr([])).items, Normalize(doc).value;
    MigrateRulesPointwise(rules);
    var default := Get(doc.fields, "default_action", Str("ALLOW")).s;
    assert after == LegacyEnvelope(NormalizeAction(default), MigrateRules(rules).value);
    LegacyEnvelopeRules(NormalizeAction(default), MigrateRules(rules).value);
  }

  lemma LegacyEnvelopeRules(default: string, rules: seq<Json>)
    ensures var doc := LegacyEnvelope(default, rules);
      BlockRules(doc, "rtp") == rules && IterRules(doc) == Tag("rtp", rules)
  {
    var doc := LegacyEnvelope(default, rules);
    assert forall t :: t in POLICY_TYPES[1..] ==> BlockRules(doc, t) == [];
    NoRules(doc, POLICY_TYPES[1..]);
    assert Tag("rtp", rules) + [] == Tag("rtp", rules);
  }

  lemma {:induction false} NoRules(doc: Json, types: seq<string>)
    requires forall t :: t in types ==> BlockRules(doc, t) == []
    ensures RulesOfTypes(doc, types) == []
  {
    if types != [] { NoRules(doc, types[1..]); }
  }

  lemma {:induction false} MigrateRulesPointwise(rules: seq<Json>)
    requires MigrateRules(rules).Ok?
    ensures var out := MigrateRules(rules).value;
      |out| == |rules| && forall i :: 0 <= i < |rules| ==> MigrateRule(rules[i]) == Ok(out[i])
  {
    if rules != [] { MigrateRulesPointwise(rules[1..]); }
  }
}
