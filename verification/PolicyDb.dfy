/** Compiling a validated document into the tables of policy.db (controlplane/policy_compiler/compiler.py). */
module PolicyDb {
  import opened Text
  import opened Json
  import opened Normalizer
  import opened Validator

  /** A value of policy_meta; lists are stored as JSON text. */
  datatype MetaValue = Plain(s: string) | Count(n: nat) | Texts(items: seq<string>)

  /** A row of rules. JSON columns hold the value they encode, None for the empty text. */
  datatype Row = Row(
    id: string,
    policyType: string,
    priority: int,
    name: string,
    action: string,
    message: string,
    conditions: Json,
    inspect: Option<Json>,
    scanFallback: string,
    sslMode: string,
    isolation: string)

  type Key = (string, string)

  /** The two tables; `rules` is keyed by its primary key (policy_type, id). */
  datatype DbFile = DbFile(meta: map<string, MetaValue>, rules: map<Key, Row>)

  const EMPTY_DB: DbFile := DbFile(map[], map[])
  const SCHEMA_VERSION: string := "2"
  const EVALUATION_ORDER: seq<string> := ["bypass", "egress_ip", "enterprise_browser", "rtp"]
  const MAX_INTEGER: int := 0x7FFF_FFFF_FFFF_FFFF

  function PriorityOf(m: map<string, Json>): int {
    if "priority" in m && m["priority"].Int? then m["priority"].n else 0
  }

  /** The values of the INSERT for one rule, with the defaults of the compiler. */
  function RowOf(t: string, rule: Json): Row {
    var m := FieldsOf(rule);
    var inspect := Get(m, "inspect", Null);
    Row(
      StrField(m, "id"),
      t,
      PriorityOf(m),
      StrField(m, "name"),
      StrField(m, "action"),
      StrField(m, "message"),
      Obj(Conditions(m)),
      if Truthy(inspect) then Some(inspect) else None,
      StrField(m, "scan_fallback"),
      StrField(m, "ssl_mode"),
      StrField(m, "isolation"))
  }

  function RowsOf(rules: seq<(string, Json)>): seq<Row> {
    seq(|rules|, i requires 0 <= i < |rules| => RowOf(rules[i].0, rules[i].1))
  }

  function KeyOf(r: Row): Key {
    (r.policyType, r.id)
  }

  predicate Fits(r: Row) {
    -MAX_INTEGER - 1 <= r.priority <= MAX_INTEGER
  }

  /** The INSERT statements, stopping at the first that raises. */
  function InsertAll(table: map<Key, Row>, rows: seq<Row>): Option<map<Key, Row>>
    decreases rows
  {
    if rows == [] then Some(table)
    else if !Fits(rows[0]) || KeyOf(rows[0]) in table then None
    else InsertAll(table[KeyOf(rows[0]) := rows[0]], rows[1..])
  }

  predicate DistinctKeys(rows: seq<Row>) {
    forall i, j :: 0 <= i < j < |rows| ==> KeyOf(rows[i]) != KeyOf(rows[j])
  }

  /** The table whose rows are `rows`. */
  function TableOf(rows: seq<Row>): map<Key, Row> {
    if rows == [] then map[] else TableOf(rows[..|rows| - 1])[KeyOf(rows[|rows| - 1]) := rows[|rows| - 1]]
  }

  /** The types whose block is present and not empty. */
  function PresentTypes(doc: Json): seq<string> {
    var listed := doc.Obj? && "policies" in doc.fields && doc.fields["policies"].Obj?;
    FilterTypes(if listed then doc.fields["policies"].fields else map[], POLICY_TYPES)
  }

  function FilterTypes(policies: map<string, Json>, types: seq<string>): seq<string> {
    if types == [] then []
    else
      var first := if types[0] in policies && Truthy(policies[types[0]]) then [types[0]] else [];
      first + FilterTypes(policies, types[1..])
  }

  /** The five rows of policy_meta. */
  function MetaOf(doc: Json): map<string, MetaValue> {
    var default := StrField(FieldsOf(doc), "default_action");
    map[
      "schema_version" := Plain(SCHEMA_VERSION),
      "default_action" := Plain(if "default_action" in FieldsOf(doc) then default else "ALLOW"),
      "rule_count" := Count(|IterRules(doc)|),
      "policy_types" := Texts(PresentTypes(doc)),
      "evaluation_order" := Texts(EVALUATION_ORDER)]
  }

  /** What the compiled file of a document holds. */
  function CompiledDb(doc: Json): DbFile {
    DbFile(MetaOf(doc), TableOf(RowsOf(IterRules(doc))))
  }

  /** A connection to one database file: statements change the working state, commit publishes it, close drops it. */
  class Connection {
    var file: DbFile
    var work: DbFile

    constructor (file: DbFile)
      ensures this.file == file && work == file
    {
      this.file := file;
      this.work := file;
    }

    method InsertRule(row: Row) returns (ok: bool)
      modifies this`work
      ensures ok <==> Fits(row) && KeyOf(row) !in old(work).rules
      ensures work == if ok then old(work).(rules := old(work).rules[KeyOf(row) := row]) else old(work)
    {
      ok := Fits(row) && KeyOf(row) !in work.rules;
      if ok { work := work.(rules := work.rules[KeyOf(row) := row]); }
    }

    /** compile_policy_to_sqlite: empty both tables, insert row by row, commit at the very end. */
    method Compile(doc: Json) returns (ok: bool)
      modifies this
      ensures ok <==> InsertAll(map[], RowsOf(IterRules(doc))).Some?
      ensures ok ==> file.meta == MetaOf(doc) && InsertAll(map[], RowsOf(IterRules(doc))) == Some(file.rules)
      ensures !ok ==> file == old(file)
    {
      work := EMPTY_DB;
      work := work.(meta := MetaOf(doc));
      var rules := IterRulesLoop(doc);
      ghost var rows := RowsOf(rules);
      for i := 0 to |rules|
        invariant work.meta == MetaOf(doc) && file == old(file)
        invariant InsertAll(map[], rows) == InsertAll(work.rules, rows[i..])
      {
        var inserted := InsertRule(RowOf(rules[i].0, rules[i].1));
        if !inserted {
          work := file;
          return false;
        }
        assert rows[i..][1..] == rows[i + 1..];
      }
      file := work;
      return true;
    }
  }

  // ---------- properties ----------

  lemma {:induction false} TableOfRows(rows: seq<Row>)
    requires DistinctKeys(rows)
    ensures |TableOf(rows)| == |rows|
    ensures forall i :: 0 <= i < |rows| ==> KeyOf(rows[i]) in TableOf(rows) && TableOf(rows)[KeyOf(rows[i])] == rows[i]
    ensures forall k :: k in TableOf(rows) ==> exists i :: 0 <= i < |rows| && KeyOf(rows[i]) == k
  {
    if rows != [] {
      var n := |rows| - 1;
      TableOfRows(rows[..n]);
    }
  }

  /** Inserting succeeds exactly when every priority is a 64-bit integer and every key is new. */
  lemma {:induction false} InsertAllMeaning(done: seq<Row>, rows: seq<Row>)
    requires DistinctKeys(done)
    ensures InsertAll(TableOf(done), rows).Some? <==>
      DistinctKeys(done + rows) && forall i :: 0 <= i < |rows| ==> Fits(rows[i])
    ensures InsertAll(TableOf(done), rows).Some? ==> InsertAll(TableOf(done), rows) == Some(TableOf(done + rows))
    decreases |rows|
  {
    TableOfRows(done);
    if rows == [] {
      assert done + rows == done;
    } else {
      var next := done + [rows[0]];
      assert next + rows[1..] == done + rows;
      assert next[..|done|] == done;
      if KeyOf(rows[0]) in TableOf(done) {
        var i :| 0 <= i < |done| && KeyOf(done[i]) == KeyOf(rows[0]);
        assert KeyOf((done + rows)[i]) == KeyOf((done + rows)[|done|]);
      } else {
        InsertAllMeaning(next, rows[1..]);
      }
    }
  }

  lemma RowKeys(rules: seq<(string, Json)>)
    requires UniqueIds(rules)
    ensures DistinctKeys(RowsOf(rules))
  {
    var rows := RowsOf(rules);
    forall i, j | 0 <= i < j < |rows| ensures KeyOf(rows[i]) != KeyOf(rows[j]) {
      assert KeyOf(rows[i]) == (rules[i].0, IdOf(rules[i].1)) && KeyOf(rows[j]) == (rules[j].0, IdOf(rules[j].1));
    }
  }

  /** A validated document compiles exactly when its priorities fit SQLite's INTEGER; the primary key never fails. */
  lemma CompileSucceedsIff(env: Env, doc: Json)
    requires Validate(env, doc).Valid?
    ensures var d := Validate(env, doc).doc;
      var rows := RowsOf(IterRules(d));
      && (InsertAll(map[], rows).Some? <==> forall i :: 0 <= i < |rows| ==> Fits(rows[i]))
      && (InsertAll(map[], rows).Some? ==> InsertAll(map[], rows) == Some(CompiledDb(d).rules))
  {
    ValidMeans(env, doc);
    var rows := RowsOf(IterRules(Validate(env, doc).doc));
    RowKeys(IterRules(Validate(env, doc).doc));
    InsertAllMeaning([], rows);
    assert [] + rows == rows;
  }

  // ---------- priorities that do not fit ----------

  function PriorityRule(n: int): Json {
    Obj(map["id" := Str("x"), "action" := Str("ALLOW"), "priority" := Int(n)])
  }

  lemma PriorityNormal(n: int)
    ensures Normalize(LegacyEnvelope("ALLOW", [PriorityRule(n)])) == Ok(LegacyEnvelope("ALLOW", [PriorityRule(n)]))
  {
    var rule, d := PriorityRule(n), LegacyEnvelope("ALLOW", [PriorityRule(n)]);
    var ps := d.fields["policies"].fields;
    assert Upper("ALLOW") == "ALLOW";
    assert rule.fields["action" := Str("ALLOW")] == rule.fields;
    assert NormalizeRules([rule]) == Prepend([rule], NormalizeRules([rule][1..])) && [rule] + [] == [rule];
    assert ps["rtp"].fields["rules" := Arr([rule])] == ps["rtp"].fields;
    assert NormalizeBlock(ps["rtp"]) == Ok(ps["rtp"]);
    StableBlocks(ps, POLICY_TYPES);
    assert d.fields["default_action" := d.fields["default_action"]]["policies" := d.fields["policies"]] == d.fields;
  }

  lemma PrioritySchema(n: nat)
    ensures SchemaValid(LegacyEnvelope("ALLOW", [PriorityRule(n)]))
  {
    assert RuleSchema("rtp", PriorityRule(n));
    assert BlockSchema("rtp", LegacyEnvelope("ALLOW", [PriorityRule(n)]).fields["policies"].fields["rtp"]);
  }

  lemma PriorityChecks(env: Env, n: nat)
    ensures CheckRules(env, Tag("rtp", [PriorityRule(n)]), {}).None?
  {
    CheckRulesMeaning(env, Tag("rtp", [PriorityRule(n)]), {});
  }

  /** A document of one rule is accepted whatever its priority, from zero on. */
  lemma PriorityAccepted(env: Env, n: nat)
    requires 1 <= env.maxRules && env.size(LegacyEnvelope("ALLOW", [PriorityRule(n)])) <= env.maxBytes
    ensures var d := LegacyEnvelope("ALLOW", [PriorityRule(n)]); Validate(env, d) == Valid(d)
  {
    PriorityNormal(n);
    LegacyEnvelopeRules("ALLOW", [PriorityRule(n)]);
    PrioritySchema(n);
    PriorityChecks(env, n);
  }

  /** It compiles exactly when its priority is at most 2^63 - 1. */
  lemma PriorityDecides(env: Env, n: nat)
    requires 1 <= env.maxRules && env.size(LegacyEnvelope("ALLOW", [PriorityRule(n)])) <= env.maxBytes
    ensures var d := LegacyEnvelope("ALLOW", [PriorityRule(n)]);
      Validate(env, d) == Valid(d) && (InsertAll(map[], RowsOf(IterRules(d))).Some? <==> n <= 9223372036854775807)
  {
    var rule, d := PriorityRule(n), LegacyEnvelope("ALLOW", [PriorityRule(n)]);
    PriorityAccepted(env, n);
    LegacyEnvelopeRules("ALLOW", [rule]);
    CompileSucceedsIff(env, d);
    assert RowsOf(IterRules(d)) == [RowOf("rtp", rule)];
    assert RowOf("rtp", rule).priority == n;
  }

  /** A validated document that does not compile: its one rule has priority 2^63. */
  lemma OversizedPriority(env: Env)
    requires 1 <= env.maxRules
    requires env.size(LegacyEnvelope("ALLOW", [PriorityRule(0x8000_0000_0000_0000)])) <= env.maxBytes
    ensures var d := LegacyEnvelope("ALLOW", [PriorityRule(0x8000_0000_0000_0000)]);
      Validate(env, d) == Valid(d) && InsertAll(map[], RowsOf(IterRules(d))).None?
  {
    PriorityDecides(env, 0x8000_0000_0000_0000);
  }
}
