/** What a policy document says about a request, read off its JSON alone, and the loaded policy that says the same. */
module Meaning {
  import opened Text
  import opened Json
  import opened Policy
  import opened Ast
  import opened TenantDecide
  import opened Normalizer
  import opened Validator
  import opened Acceptance
  import opened PolicyDb
  import opened LoadDb
  import opened Pipeline

  // ---------- reading a document ----------

  /** The texts a rule lists under a key of its conditions; an element that is not a text counts as "". */
  function TextsUnder(rule: Json, key: string): seq<string> {
    if rule.Obj? && "conditions" in rule.fields && rule.fields["conditions"].Obj?
      && key in rule.fields["conditions"].fields && rule.fields["conditions"].fields[key].Arr?
    then
      var xs := rule.fields["conditions"].fields[key].items;
      seq(|xs|, i requires 0 <= i < |xs| => if xs[i].Str? then xs[i].s else "")
    else []
  }

  function TextOf(rule: Json, key: string): string {
    if rule.Obj? && key in rule.fields && rule.fields[key].Str? then rule.fields[key].s else ""
  }

  /** Some domain pattern matches; without domains some destination; without either any. Likewise for methods. */
  ghost predicate Takes(rx: Regex, rule: Json, domain: string, m: string) {
    var ds, es, ms := TextsUnder(rule, "domains"), TextsUnder(rule, "destinations"), TextsUnder(rule, "methods");
    && (if ds != [] then exists i :: 0 <= i < |ds| && rx.matches(ds[i], domain)
        else es == [] || exists i :: 0 <= i < |es| && rx.matches(es[i], domain))
    && (ms == [] || exists i :: 0 <= i < |ms| && EqualFold(ms[i], m))
  }

  /** The rule is tried for its match only and then passed over. */
  predicate PassedOver(rule: Json) {
    TextOf(rule, "action") == "CONTINUE"
  }

  function PriorityIn(rule: Json): int {
    if rule.Obj? && "priority" in rule.fields && rule.fields["priority"].Int? then rule.fields["priority"].n else 0
  }

  /** What an rtp rule inspects. */
  predicate InspectsDlp(rule: Json) {
    && rule.Obj? && "inspect" in rule.fields && rule.fields["inspect"].Obj?
    && "dlp" in rule.fields["inspect"].fields && rule.fields["inspect"].fields["dlp"] == Bool(true)
  }

  predicate InspectsMcp(rule: Json) {
    && rule.Obj? && "inspect" in rule.fields && rule.fields["inspect"].Obj? && "mcp" in rule.fields["inspect"].fields
    && var mcp := rule.fields["inspect"].fields["mcp"];
       mcp == Bool(true) || (mcp.Obj? && mcp.fields != map[])
  }

  /** The answer of a rule of block `t`. */
  function Answer(t: string, rule: Json): Outcome {
    Outcome(
      if t == "rtp" && InspectsDlp(rule) then "inspect_dlp"
      else if t == "rtp" && InspectsMcp(rule) then "inspect_mcp"
      else if TextOf(rule, "action") == "BLOCK" then "block"
      else if TextOf(rule, "action") == "COACH" then "coach"
      else "allow",
      TextOf(rule, "message"))
  }

  function DefaultAnswer(d: Json): Outcome {
    Outcome(
      if TextOf(d, "default_action") == "BLOCK" then "block"
      else if TextOf(d, "default_action") == "COACH" then "coach"
      else "allow",
      "")
  }

  /** The order in which the blocks are tried. */
  function Rank(t: string): nat {
    if t == "bypass" then 0 else if t == "egress_ip" then 1 else if t == "enterprise_browser" then 2 else 3
  }

  predicate Precedes(t: string, r: Json, t': string, r': Json) {
    || Rank(t) < Rank(t')
    || (Rank(t) == Rank(t') && PriorityIn(r) < PriorityIn(r'))
    || (Rank(t) == Rank(t') && PriorityIn(r) == PriorityIn(r') && Less(TextOf(r, "id"), TextOf(r', "id")))
  }

  ghost predicate DocCandidate(rx: Regex, d: Json, domain: string, m: string, t: string, r: Json) {
    && t in {"rtp", "bypass", "egress_ip", "enterprise_browser"} && r in RulesIn(d, t)
    && Takes(rx, r, domain, m) && !PassedOver(r)
  }

  ghost predicate DocWinner(rx: Regex, d: Json, domain: string, m: string, t: string, r: Json) {
    && DocCandidate(rx, d, domain, m, t, r)
    && forall t', r' :: DocCandidate(rx, d, domain, m, t', r') && (t', r') != (t, r) ==> Precedes(t, r, t', r')
  }

  ghost predicate Taken(rx: Regex, d: Json, domain: string, m: string) {
    exists t, r :: DocCandidate(rx, d, domain, m, t, r)
  }

  ghost predicate Won(rx: Regex, d: Json, domain: string, m: string) {
    exists t, r :: DocWinner(rx, d, domain, m, t, r)
  }

  /** The answer for a (lowered) domain and (uppered) method. */
  ghost predicate AnswersFor(rx: Regex, d: Json, domain: string, m: string, o: Outcome) {
    && (forall t, r :: DocWinner(rx, d, domain, m, t, r) ==> o == Answer(t, r))
    && (Taken(rx, d, domain, m) ==> Won(rx, d, domain, m))
    && (!Taken(rx, d, domain, m) ==> o == DefaultAnswer(d))
  }

  /** `o` is the answer of the first rule that takes the request and is not passed over, else of the default. */
  ghost predicate DocAnswers(rx: Regex, d: Json, domain: string, m: string, o: Outcome) {
    AnswersFor(rx, d, Lower(domain), Upper(m), o)
  }

  /** Some rule of a block takes the request and is not passed over. */
  ghost predicate BlockTakes(rx: Regex, d: Json, domain: string, m: string, t: string) {
    exists r :: DocCandidate(rx, d, domain, m, t, r)
  }

  ghost predicate BlockAnswers(rx: Regex, d: Json, domain: string, m: string, t: string, o: Outcome) {
    exists r :: DocCandidate(rx, d, domain, m, t, r) && o == Answer(t, r)
  }

  lemma WinnerBlock(rx: Regex, d: Json, domain: string, m: string, o: Outcome, t: string, r: Json, t': string)
    requires o == Answer(t, r) && DocWinner(rx, d, domain, m, t, r) && BlockTakes(rx, d, domain, m, t')
    ensures Rank(t) <= Rank(t') && BlockTakes(rx, d, domain, m, t) && BlockAnswers(rx, d, domain, m, t, o)
    ensures t in {"rtp", "bypass", "egress_ip", "enterprise_browser"}
  {
    var r' :| DocCandidate(rx, d, domain, m, t', r');
    if (t', r') != (t, r) { assert Precedes(t, r, t', r'); }
  }

  /** The first block that takes the request answers it. */
  lemma FirstBlock(rx: Regex, d: Json, domain: string, m: string, o: Outcome, t: string)
    requires AnswersFor(rx, d, domain, m, o) && BlockTakes(rx, d, domain, m, t)
    requires t in {"rtp", "bypass", "egress_ip", "enterprise_browser"}
    requires forall t' :: t' in {"rtp", "bypass", "egress_ip", "enterprise_browser"} && Rank(t') < Rank(t) ==>
      !BlockTakes(rx, d, domain, m, t')
    ensures BlockAnswers(rx, d, domain, m, t, o)
  {
    var t', r' := WinnerOf(rx, d, domain, m, o, t);
    WinnerBlock(rx, d, domain, m, o, t', r', t);
  }

  lemma WinnerOf(rx: Regex, d: Json, domain: string, m: string, o: Outcome, t: string) returns (t': string, r: Json)
    requires AnswersFor(rx, d, domain, m, o) && BlockTakes(rx, d, domain, m, t)
    ensures DocWinner(rx, d, domain, m, t', r) && o == Answer(t', r)
  {
    assert Taken(rx, d, domain, m);
    t', r :| DocWinner(rx, d, domain, m, t', r);
  }

  lemma NoBlock(rx: Regex, d: Json, domain: string, m: string, o: Outcome)
    requires AnswersFor(rx, d, domain, m, o)
    requires forall t :: t in {"rtp", "bypass", "egress_ip", "enterprise_browser"} ==> !BlockTakes(rx, d, domain, m, t)
    ensures o == DefaultAnswer(d)
  {
    if t, r :| DocCandidate(rx, d, domain, m, t, r) { assert BlockTakes(rx, d, domain, m, t); }
  }

  /** A bypass rule answers whenever one takes the request, else an egress_ip rule, and so on down to the default. */
  ghost predicate InBlockOrder(rx: Regex, d: Json, domain: string, m: string, o: Outcome) {
    if BlockTakes(rx, d, domain, m, "bypass") then BlockAnswers(rx, d, domain, m, "bypass", o)
    else if BlockTakes(rx, d, domain, m, "egress_ip") then BlockAnswers(rx, d, domain, m, "egress_ip", o)
    else if BlockTakes(rx, d, domain, m, "enterprise_browser") then
      BlockAnswers(rx, d, domain, m, "enterprise_browser", o)
    else if BlockTakes(rx, d, domain, m, "rtp") then BlockAnswers(rx, d, domain, m, "rtp", o)
    else o == DefaultAnswer(d)
  }

  lemma AnswersInBlockOrder(rx: Regex, d: Json, domain: string, m: string, o: Outcome)
    requires AnswersFor(rx, d, domain, m, o)
    ensures InBlockOrder(rx, d, domain, m, o)
  {
    if BlockTakes(rx, d, domain, m, "bypass") {
      FirstBlock(rx, d, domain, m, o, "bypass");
    } else if BlockTakes(rx, d, domain, m, "egress_ip") {
      FirstBlock(rx, d, domain, m, o, "egress_ip");
    } else if BlockTakes(rx, d, domain, m, "enterprise_browser") {
      FirstBlock(rx, d, domain, m, o, "enterprise_browser");
    } else if BlockTakes(rx, d, domain, m, "rtp") {
      FirstBlock(rx, d, domain, m, o, "rtp");
    } else {
      NoBlock(rx, d, domain, m, o);
    }
  }

  // ---------- one rule and its record ----------

  lemma RecordConditions(t: string, rule: Json)
    ensures var c := RecordOf(t, rule).conditions;
      && c.domains == TextsUnder(rule, "domains") && c.destinations == TextsUnder(rule, "destinations")
      && c.methods == TextsUnder(rule, "methods")
  {}

  lemma RecordKeys(t: string, rule: Json)
    ensures var r := RecordOf(t, rule);
      && r.policyType == t && r.id == TextOf(rule, "id") && r.priority == PriorityIn(rule)
      && r.action == TextOf(rule, "action") && r.message == TextOf(rule, "message")
  {}

  lemma RecordInspects(t: string, rule: Json)
    ensures var i := RecordOf(t, rule).inspect;
      && (i.dlp <==> InspectsDlp(rule))
      && (i.mcp == Some(Bool(true)) || (i.mcp.Some? && i.mcp.value.Obj? && i.mcp.value.fields != map[]) <==>
          InspectsMcp(rule))
  {}

  lemma ActionOfClean(t: string, rule: Json)
    requires CleanRule(t, rule)
    ensures TextOf(rule, "action") in {"ALLOW", "BLOCK", "BYPASS", "FWD", "COACH", "CONTINUE"}
  {
    assert "action" in RequiredKeys(t) && RuleFieldOk(t, "action", rule.fields["action"]);
  }

  /** The record of a clean rule takes the same requests and answers the same. */
  lemma RecordAgrees(rx: Regex, t: string, rule: Json, domain: string, m: string)
    requires CleanRule(t, rule)
    ensures Eligible(rx, RecordOf(t, rule), domain, m) <==> Takes(rx, rule, domain, m) && !PassedOver(rule)
    ensures Terminal(RecordOf(t, rule)) == Answer(t, rule)
  {
    RecordConditions(t, rule);
    RecordKeys(t, rule);
    RecordInspects(t, rule);
    ActionOfClean(t, rule);
    RecordTakes(rx, RecordOf(t, rule), rule, domain, m);
    RecordAnswers(t, RecordOf(t, rule), rule);
  }

  lemma RecordTakes(rx: Regex, r: RuleRecord, rule: Json, domain: string, m: string)
    requires r.conditions.domains == TextsUnder(rule, "domains")
    requires r.conditions.destinations == TextsUnder(rule, "destinations")
    requires r.conditions.methods == TextsUnder(rule, "methods") && r.action == TextOf(rule, "action")
    requires r.action in {"ALLOW", "BLOCK", "BYPASS", "FWD", "COACH", "CONTINUE"}
    ensures Eligible(rx, r, domain, m) <==> Takes(rx, rule, domain, m) && !PassedOver(rule)
  {
    TerminalName(r.action);
    var ds, es, ms := TextsUnder(rule, "domains"), TextsUnder(rule, "destinations"), TextsUnder(rule, "methods");
    assert TakesDomain(rx, r.conditions, domain) <==>
      if ds != [] then exists i :: 0 <= i < |ds| && rx.matches(ds[i], domain)
      else es == [] || exists i :: 0 <= i < |es| && rx.matches(es[i], domain);
    assert TakesMethod(r.conditions, m) <==> ms == [] || exists i :: 0 <= i < |ms| && EqualFold(ms[i], m);
  }

  lemma RecordAnswers(t: string, r: RuleRecord, rule: Json)
    requires r.policyType == t && r.action == TextOf(rule, "action") && r.message == TextOf(rule, "message")
    requires r.inspect.dlp <==> InspectsDlp(rule)
    requires var mcp := r.inspect.mcp;
      mcp == Some(Bool(true)) || (mcp.Some? && mcp.value.Obj? && mcp.value.fields != map[]) <==> InspectsMcp(rule)
    requires r.action in {"ALLOW", "BLOCK", "BYPASS", "FWD", "COACH", "CONTINUE"}
    ensures Terminal(r) == Answer(t, rule)
  {
    TerminalMeans(r);
    TerminalName(r.action);
    FoldOfName(r.action, "BLOCK");
    FoldOfName(r.action, "COACH");
    FoldOfName(r.action, "INSPECT_DLP");
    FoldOfName(r.action, "INSPECT_MCP");
  }

  // ---------- a document and its records ----------

  /** What validation has established for the rules of a document. */
  ghost predicate Sound(d: Json) {
    UniqueIds(IterRules(d)) && CleanRules(IterRules(d))
  }

  lemma MemberOf(d: Json, t: string, r: Json)
    ensures t in {"rtp", "bypass", "egress_ip", "enterprise_browser"} && r in RulesIn(d, t) <==> (t, r) in IterRules(d)
  {
    var types := POLICY_TYPES;
    TypesMembers(d, types, (t, r));
    assert t in types <==> t in {"rtp", "bypass", "egress_ip", "enterprise_browser"};
  }

  lemma CandidateHasRecord(rx: Regex, d: Json, domain: string, m: string, t: string, r: Json)
    requires Sound(d) && DocCandidate(rx, d, domain, m, t, r)
    ensures Candidate(rx, RecordsOf(IterRules(d)), EVALUATION_ORDER, domain, m, RecordOf(t, r))
  {
    MemberOf(d, t, r);
    var i :| 0 <= i < |IterRules(d)| && IterRules(d)[i] == (t, r);
    assert CleanRule(t, r) && RecordsOf(IterRules(d))[i] == RecordOf(t, r);
    RecordAgrees(rx, t, r, domain, m);
    RecordKeys(t, r);
  }

  lemma RecordHasCandidate(rx: Regex, d: Json, domain: string, m: string, x: RuleRecord) returns (t: string, r: Json)
    requires Sound(d) && Candidate(rx, RecordsOf(IterRules(d)), EVALUATION_ORDER, domain, m, x)
    ensures DocCandidate(rx, d, domain, m, t, r) && x == RecordOf(t, r)
  {
    var i :| 0 <= i < |IterRules(d)| && RecordsOf(IterRules(d))[i] == x;
    t, r := IterRules(d)[i].0, IterRules(d)[i].1;
    assert (t, r) in IterRules(d) && CleanRule(t, r);
    MemberOf(d, t, r);
    RecordAgrees(rx, t, r, domain, m);
  }

  lemma PositionIsRank(t: string)
    requires t in {"rtp", "bypass", "egress_ip", "enterprise_browser"}
    ensures Position(EVALUATION_ORDER, t) == Rank(t)
  {
    var order := EVALUATION_ORDER;
    assert order[1..][1..][1..] == ["rtp"] && order[1..][1..] == ["enterprise_browser", "rtp"];
    assert order[1..] == ["egress_ip", "enterprise_browser", "rtp"];
    assert Position(["rtp"], "rtp") == 0;
  }

  lemma OrderAgrees(t: string, a: Json, t': string, b: Json)
    requires t in {"rtp", "bypass", "egress_ip", "enterprise_browser"}
    requires t' in {"rtp", "bypass", "egress_ip", "enterprise_browser"}
    ensures Beats(EVALUATION_ORDER, RecordOf(t, a), RecordOf(t', b)) <==> Precedes(t, a, t', b)
  {
    PositionIsRank(t);
    PositionIsRank(t');
    RecordKeys(t, a);
    RecordKeys(t', b);
  }

  lemma KeysDiffer(rules: seq<(string, Json)>, x: (string, Json), y: (string, Json))
    requires UniqueIds(rules) && x in rules && y in rules && x != y
    ensures (x.0, IdOf(x.1)) != (y.0, IdOf(y.1))
  {
    var i :| 0 <= i < |rules| && rules[i] == x;
    var j :| 0 <= j < |rules| && rules[j] == y;
    if i < j {
      assert (rules[i].0, IdOf(rules[i].1)) != (rules[j].0, IdOf(rules[j].1));
    } else {
      assert (rules[j].0, IdOf(rules[j].1)) != (rules[i].0, IdOf(rules[i].1));
    }
  }

  /** Different rules of a document have different records. */
  lemma RecordsDiffer(d: Json, x: (string, Json), y: (string, Json))
    requires Sound(d) && x in IterRules(d) && y in IterRules(d) && x != y
    ensures RecordOf(x.0, x.1) != RecordOf(y.0, y.1)
  {
    KeysDiffer(IterRules(d), x, y);
    RecordKeys(x.0, x.1);
    RecordKeys(y.0, y.1);
  }

  lemma WinnerHasRecord(rx: Regex, d: Json, domain: string, m: string, t: string, r: Json)
    requires Sound(d) && DocWinner(rx, d, domain, m, t, r)
    ensures Winner(rx, RecordsOf(IterRules(d)), EVALUATION_ORDER, domain, m, RecordOf(t, r))
  {
    CandidateHasRecord(rx, d, domain, m, t, r);
    forall x | Candidate(rx, RecordsOf(IterRules(d)), EVALUATION_ORDER, domain, m, x) && x != RecordOf(t, r)
      ensures Beats(EVALUATION_ORDER, RecordOf(t, r), x)
    {
      var t', r' := RecordHasCandidate(rx, d, domain, m, x);
      OrderAgrees(t, r, t', r');
    }
  }

  lemma RecordHasWinner(rx: Regex, d: Json, domain: string, m: string, w: RuleRecord) returns (t: string, r: Json)
    requires Sound(d) && Winner(rx, RecordsOf(IterRules(d)), EVALUATION_ORDER, domain, m, w)
    ensures DocWinner(rx, d, domain, m, t, r)
  {
    t, r := RecordHasCandidate(rx, d, domain, m, w);
    MemberOf(d, t, r);
    forall t', r' | DocCandidate(rx, d, domain, m, t', r') && (t', r') != (t, r) ensures Precedes(t, r, t', r') {
      CandidateHasRecord(rx, d, domain, m, t', r');
      MemberOf(d, t', r');
      RecordsDiffer(d, (t, r), (t', r'));
      OrderAgrees(t, r, t', r');
    }
  }

  lemma DefaultAgrees(d: Json)
    requires SchemaValid(d)
    ensures MapTerminalAction(DefaultOf(d)) == DefaultAnswer(d).action
  {
    TerminalName(DefaultOf(d));
  }

  lemma WinnerAnswers(rx: Regex, d: Json, domain: string, m: string, t: string, r: Json, default: Action, o: Outcome)
    requires Sound(d) && DocWinner(rx, d, Lower(domain), Upper(m), t, r)
    requires MeetsSpec(rx, default, EVALUATION_ORDER, RecordsOf(IterRules(d)), domain, m, o)
    ensures o == Answer(t, r)
  {
    WinnerHasRecord(rx, d, Lower(domain), Upper(m), t, r);
    MemberOf(d, t, r);
    assert CleanRule(t, r) by { var i :| 0 <= i < |IterRules(d)| && IterRules(d)[i] == (t, r); }
    RecordAgrees(rx, t, r, Lower(domain), Upper(m));
  }

  lemma SpecHasWinner(rx: Regex, default: Action, order: seq<string>, rs: seq<RuleRecord>, domain: string, m: string,
                      x: RuleRecord, o: Outcome) returns (w: RuleRecord)
    requires order != [] && MeetsSpec(rx, default, order, rs, domain, m, o)
    requires Candidate(rx, rs, order, Lower(domain), Upper(m), x)
    ensures Winner(rx, rs, order, Lower(domain), Upper(m), w)
  {
    w :| Winner(rx, rs, order, Lower(domain), Upper(m), w);
  }

  lemma SomeWinner(rx: Regex, d: Json, domain: string, m: string, default: Action, o: Outcome)
    requires Sound(d) && Taken(rx, d, Lower(domain), Upper(m))
    requires MeetsSpec(rx, default, EVALUATION_ORDER, RecordsOf(IterRules(d)), domain, m, o)
    ensures Won(rx, d, Lower(domain), Upper(m))
  {
    var t, r :| DocCandidate(rx, d, Lower(domain), Upper(m), t, r);
    CandidateHasRecord(rx, d, Lower(domain), Upper(m), t, r);
    var w := SpecHasWinner(rx, default, EVALUATION_ORDER, RecordsOf(IterRules(d)), domain, m, RecordOf(t, r), o);
    var t', r' := RecordHasWinner(rx, d, Lower(domain), Upper(m), w);
  }

  lemma NoCandidate(rx: Regex, d: Json, domain: string, m: string, default: Action, o: Outcome)
    requires Sound(d) && !Taken(rx, d, Lower(domain), Upper(m))
    requires MeetsSpec(rx, default, EVALUATION_ORDER, RecordsOf(IterRules(d)), domain, m, o)
    ensures o == Outcome(default, "")
  {
    var l, u, rs, order := Lower(domain), Upper(m), RecordsOf(IterRules(d)), EVALUATION_ORDER;
    forall x ensures !Candidate(rx, rs, order, l, u, x) {
      if Candidate(rx, rs, order, l, u, x) { var t, r := RecordHasCandidate(rx, d, l, u, x); }
    }
  }

  /** An answer that is right for the records of a document is the answer of the document. */
  lemma SpecOfDocument(rx: Regex, d: Json, domain: string, m: string, default: Action, o: Outcome)
    requires Sound(d) && Outcome(default, "") == DefaultAnswer(d)
    requires MeetsSpec(rx, default, EVALUATION_ORDER, RecordsOf(IterRules(d)), domain, m, o)
    ensures DocAnswers(rx, d, domain, m, o)
  {
    var l, u := Lower(domain), Upper(m);
    forall t, r | DocWinner(rx, d, l, u, t, r) ensures o == Answer(t, r) {
      WinnerAnswers(rx, d, domain, m, t, r, default, o);
    }
    if Taken(rx, d, l, u) {
      SomeWinner(rx, d, domain, m, default, o);
    } else {
      NoCandidate(rx, d, domain, m, default, o);
    }
  }

  // ---------- compiled and loaded ----------

  lemma LoadedMeetsSpec(env: Env, rx: Regex, doc: Json, d: Json, scan: seq<Row>, domain: string, m: string)
    requires Compiles(env, doc, d, scan) && Load(rx, MetaOf(d), scan).Some?
    ensures
      var o := Decide(rx, Load(rx, MetaOf(d), scan).value, domain, m);
      MeetsSpec(rx, MapTerminalAction(DefaultOf(d)), EVALUATION_ORDER, RecordsOf(IterRules(d)), domain, m, o)
  {
    var default, tp := MapTerminalAction(DefaultOf(d)), Load(rx, MetaOf(d), scan).value;
    CompileLoadLossless(env, rx, doc, d, scan);
    ScannedRecords(env, doc, d, scan);
    DecideIgnoresRowOrder(rx, default, EVALUATION_ORDER, tp.rules, RecordsOf(IterRules(d)), domain, m);
    DecideMeetsSpec(rx, default, EVALUATION_ORDER, RecordsOf(IterRules(d)), domain, m);
  }

  /** Compiled, loaded and evaluated, a validated document answers every request as its JSON says. */
  lemma LoadedAnswers(env: Env, rx: Regex, doc: Json, d: Json, scan: seq<Row>, domain: string, m: string)
    requires Compiles(env, doc, d, scan) && Load(rx, MetaOf(d), scan).Some?
    ensures
      var o := Decide(rx, Load(rx, MetaOf(d), scan).value, domain, m);
      DocAnswers(rx, d, domain, m, o) && InBlockOrder(rx, d, Lower(domain), Upper(m), o)
  {
    LoadedMeetsSpec(env, rx, doc, d, scan, domain, m);
    ValidIsSound(env, doc);
    var o := Decide(rx, Load(rx, MetaOf(d), scan).value, domain, m);
    SpecOfDocument(rx, d, domain, m, MapTerminalAction(DefaultOf(d)), o);
    AnswersInBlockOrder(rx, d, Lower(domain), Upper(m), o);
  }

  lemma ValidIsSound(env: Env, doc: Json)
    requires Validate(env, doc).Valid?
    ensures var d := Validate(env, doc).doc;
      Sound(d) && Outcome(MapTerminalAction(DefaultOf(d)), "") == DefaultAnswer(d)
  {
    ValidMeans(env, doc);
    DefaultAgrees(Validate(env, doc).doc);
  }

  /** Every domain and destination pattern of the rule compiles in Go. */
  ghost predicate GoCompiles(rx: Regex, rule: Json) {
    forall p :: p in TextsUnder(rule, "domains") || p in TextsUnder(rule, "destinations") ==> rx.compiles(p)
  }

  lemma RecordCompiles(rx: Regex, t: string, rule: Json)
    ensures RuleCompiles(rx, RecordOf(t, rule)) <==> GoCompiles(rx, rule)
  {
    RecordConditions(t, rule);
  }

  lemma RecordsCompile(rx: Regex, rules: seq<(string, Json)>)
    ensures GroupCompiles(rx, RecordsOf(rules)) <==> forall x :: x in rules ==> GoCompiles(rx, x.1)
  {
    var rs := RecordsOf(rules);
    forall i | 0 <= i < |rules| ensures RuleCompiles(rx, rs[i]) <==> GoCompiles(rx, rules[i].1) {
      RecordCompiles(rx, rules[i].0, rules[i].1);
    }
    if GroupCompiles(rx, rs) {
      forall x | x in rules ensures GoCompiles(rx, x.1) {
        var i :| 0 <= i < |rules| && rules[i] == x;
        assert rs[i] in rs;
      }
    } else {
      var x :| x in rs && !RuleCompiles(rx, x);
      var i :| 0 <= i < |rules| && rs[i] == x;
      assert rules[i] in rules;
    }
  }

  /** The compiled file of a document loads if and only if all its patterns compile in Go. */
  lemma LoadsIff(env: Env, rx: Regex, doc: Json, d: Json, scan: seq<Row>)
    requires Compiles(env, doc, d, scan)
    ensures Load(rx, MetaOf(d), scan).Some? <==>
      forall t, r :: t in FOUR_TYPES && r in RulesIn(d, t) ==> GoCompiles(rx, r)
  {
    LoadSucceedsIff(env, rx, doc, d, scan);
    RecordsCompile(rx, IterRules(d));
    EachRule(rx, d);
  }

  lemma EachRule(rx: Regex, d: Json)
    ensures (forall x :: x in IterRules(d) ==> GoCompiles(rx, x.1)) <==>
      forall t, r :: t in FOUR_TYPES && r in RulesIn(d, t) ==> GoCompiles(rx, r)
  {
    forall t, r { MemberOf(d, t, r); }
    var rules := IterRules(d);
    if forall x :: x in rules ==> GoCompiles(rx, x.1) {
      forall t, r | t in FOUR_TYPES && r in RulesIn(d, t)
        ensures GoCompiles(rx, r)
      {
        assert (t, r) in rules;
      }
    } else {
      var x :| x in rules && !GoCompiles(rx, x.1);
      assert (x.0, x.1) in rules;
    }
  }

  /** The rows of policy_meta that a compiled document leaves. */
  lemma MetaMeans(d: Json)
    requires SchemaValid(d)
    ensures var m := MetaOf(d);
      && m.Keys == {"schema_version", "default_action", "rule_count", "policy_types", "evaluation_order"}
      && m["schema_version"] == Plain("2") && m["default_action"] == Plain(TextOf(d, "default_action"))
      && m["rule_count"] == Count(RuleTotal(d))
      && m["evaluation_order"] == Texts(["bypass", "egress_ip", "enterprise_browser", "rtp"])
  {
    TotalRules(d);
  }

  /** The types it lists are those whose block is there, in this order. */
  lemma ListedTypes(d: Json)
    requires SchemaValid(d)
    ensures
      var ps := d.fields["policies"].fields;
      var listed := (if "rtp" in ps then ["rtp"] else []) + ((if "bypass" in ps then ["bypass"] else []) +
        ((if "egress_ip" in ps then ["egress_ip"] else []) +
         if "enterprise_browser" in ps then ["enterprise_browser"] else []));
      MetaOf(d)["policy_types"] == Texts(listed)
  {
    var types, ps := POLICY_TYPES, d.fields["policies"].fields;
    forall t | t in ps ensures Truthy(ps[t]) { assert BlockSchema(t, ps[t]); }
    assert types == ["rtp"] + ["bypass", "egress_ip", "enterprise_browser"];
    FilterFour(ps);
  }

  lemma FilterFour(ps: map<string, Json>)
    requires forall t :: t in ps ==> Truthy(ps[t])
    ensures FilterTypes(ps, ["rtp"] + ["bypass", "egress_ip", "enterprise_browser"]) ==
      (if "rtp" in ps then ["rtp"] else []) + ((if "bypass" in ps then ["bypass"] else []) +
      ((if "egress_ip" in ps then ["egress_ip"] else []) +
       if "enterprise_browser" in ps then ["enterprise_browser"] else []))
  {
    var last := if "enterprise_browser" in ps then ["enterprise_browser"] else [];
    FilterStep(ps, "enterprise_browser", []);
    FilterStep(ps, "egress_ip", ["enterprise_browser"]);
    FilterStep(ps, "bypass", ["egress_ip", "enterprise_browser"]);
    FilterStep(ps, "rtp", ["bypass", "egress_ip", "enterprise_browser"]);
    assert last + [] == last && ["enterprise_browser"] + [] == ["enterprise_browser"];
    assert ["bypass"] + ["egress_ip", "enterprise_browser"] == ["bypass", "egress_ip", "enterprise_browser"];
    assert ["egress_ip"] + ["enterprise_browser"] == ["egress_ip", "enterprise_browser"];
  }

  lemma FilterStep(ps: map<string, Json>, t: string, rest: seq<string>)
    requires t in ps ==> Truthy(ps[t])
    ensures FilterTypes(ps, [t] + rest) == (if t in ps then [t] else []) + FilterTypes(ps, rest)
  {
    assert ([t] + rest)[1..] == rest;
  }

  /** A validated document compiles if and only if all its priorities are at most 2^63 - 1. */
  lemma CompilesIff(env: Env, doc: Json)
    requires Validate(env, doc).Valid?
    ensures var d := Validate(env, doc).doc;
      InsertAll(map[], RowsOf(IterRules(d))).Some? <==>
        forall t, r :: t in FOUR_TYPES && r in RulesIn(d, t) ==> PriorityIn(r) <= 9223372036854775807
  {
    var d := Validate(env, doc).doc;
    CompileSucceedsIff(env, doc);
    ValidMeans(env, doc);
    RowsFit(IterRules(d));
    PrioritiesByBlock(d);
  }

  lemma PrioritiesByBlock(d: Json)
    ensures (forall x :: x in IterRules(d) ==> PriorityIn(x.1) <= 9223372036854775807) <==>
      forall t, r :: t in FOUR_TYPES && r in RulesIn(d, t) ==> PriorityIn(r) <= 9223372036854775807
  {
    var rules := IterRules(d);
    forall t, r { MemberOf(d, t, r); }
    if forall x :: x in rules ==> PriorityIn(x.1) <= 9223372036854775807 {
      forall t, r | t in FOUR_TYPES && r in RulesIn(d, t) ensures PriorityIn(r) <= 9223372036854775807 {
        assert (t, r) in rules;
      }
    } else {
      var x :| x in rules && PriorityIn(x.1) > 9223372036854775807;
      assert (x.0, x.1) in rules;
    }
  }

  lemma RowsFit(rules: seq<(string, Json)>)
    requires CleanRules(rules)
    ensures (forall i :: 0 <= i < |RowsOf(rules)| ==> Fits(RowsOf(rules)[i])) <==>
      forall x :: x in rules ==> PriorityIn(x.1) <= 9223372036854775807
  {
    var rows := RowsOf(rules);
    forall i | 0 <= i < |rules| ensures Fits(rows[i]) <==> PriorityIn(rules[i].1) <= 9223372036854775807 {
      assert CleanRule(rules[i].0, rules[i].1);
      RowFits(rules[i].0, rules[i].1);
    }
    if forall x :: x in rules ==> PriorityIn(x.1) <= 9223372036854775807 {
      forall i | 0 <= i < |rows| ensures Fits(rows[i]) { assert rules[i] in rules; }
    }
  }

  lemma RowFits(t: string, rule: Json)
    requires CleanRule(t, rule)
    ensures Fits(RowOf(t, rule)) <==> PriorityIn(rule) <= 9223372036854775807
  {
    if "priority" in rule.fields { assert RuleFieldOk(t, "priority", rule.fields["priority"]); }
  }

  /** A load of any database: the version must be "2", all patterns must compile, and an empty order is replaced. */
  lemma LoadMeans(rx: Regex, meta: map<string, MetaValue>, scan: seq<Row>)
    ensures Load(rx, meta, scan).Some? <==>
      && "schema_version" in meta && meta["schema_version"] == Plain("2")
      && forall r, p :: r in HydrateAll(scan) && (p in r.conditions.domains || p in r.conditions.destinations) ==>
        rx.compiles(p)
    ensures Load(rx, meta, scan).Some? ==>
      var tp := Load(rx, meta, scan).value;
      && ("default_action" in meta && meta["default_action"].Plain? ==>
          tp.defaultAction == MapTerminalAction(meta["default_action"].s))
      && tp.rules == HydrateAll(scan) && tp == PolicyOf(tp.defaultAction, tp.evaluationOrder, tp.rules)
      && tp.evaluationOrder ==
        if "evaluation_order" in meta && meta["evaluation_order"].Texts? && meta["evaluation_order"].items != []
        then meta["evaluation_order"].items
        else ["bypass", "egress_ip", "enterprise_browser", "rtp"]
  {
    forall r | r in HydrateAll(scan)
      ensures RuleCompiles(rx, r) <==>
        forall p :: p in r.conditions.domains || p in r.conditions.destinations ==> rx.compiles(p)
    {}
  }
}
