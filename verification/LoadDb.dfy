/** Loading policy.db into memory (policy/load_db.go). */
module LoadDb {
  import opened Text
  import opened Json
  import opened Policy
  import opened Ast
  import opened TenantDecide
  import opened PolicyDb

  /** Go's decoding of a JSON value into []string: elements of another type stay "". */
  function StringList(m: map<string, Json>, key: string): seq<string> {
    if key in m && m[key].Arr? then
      var xs := m[key].items;
      seq(|xs|, i requires 0 <= i < |xs| => if xs[i].Str? then xs[i].s else "")
    else []
  }

  function DecodeConditions(j: Json): RuleConditions {
    var m := if j.Obj? then j.fields else map[];
    RuleConditions(
      StringList(m, "domains"),
      StringList(m, "methods"),
      StringList(m, "groups"),
      StringList(m, "saml_groups"),
      StringList(m, "egress_ips"),
      StringList(m, "destinations"),
      StringList(m, "protocols"))
  }

  function DecodeInspect(column: Option<Json>): InspectConfig {
    match column
    case Some(Obj(m)) =>
      InspectConfig("dlp" in m && m["dlp"] == Bool(true), if "mcp" in m then Some(m["mcp"]) else None)
    case _ => InspectConfig(false, None)
  }

  /** The record scanned from one row. */
  function Hydrate(r: Row): RuleRecord {
    RuleRecord(r.id, r.policyType, r.priority, r.name, r.action, r.message,
      DecodeConditions(r.conditions), DecodeInspect(r.inspect), r.scanFallback, r.sslMode, r.isolation)
  }

  function HydrateAll(rows: seq<Row>): seq<RuleRecord> {
    seq(|rows|, i requires 0 <= i < |rows| => Hydrate(rows[i]))
  }

  /** ORDER BY policy_type, priority, id. */
  predicate SqlLess(a: Row, b: Row) {
    || Less(a.policyType, b.policyType)
    || (a.policyType == b.policyType && a.priority < b.priority)
    || (a.policyType == b.policyType && a.priority == b.priority && Less(a.id, b.id))
  }

  /** What the SELECT may return: the rows of the table, each once, in the order of the ORDER BY. */
  ghost predicate IsScan(table: map<Key, Row>, out: seq<Row>) {
    && |out| == |table|
    && (forall i :: 0 <= i < |out| ==> KeyOf(out[i]) in table && table[KeyOf(out[i])] == out[i])
    && DistinctKeys(out)
    && InOrder(out)
  }

  predicate InOrder(out: seq<Row>) {
    forall i, j :: 0 <= i < j < |out| ==> !SqlLess(out[j], out[i])
  }

  function OrderOf(meta: map<string, MetaValue>): seq<string> {
    if "evaluation_order" in meta && meta["evaluation_order"].Texts? && meta["evaluation_order"].items != []
    then meta["evaluation_order"].items
    else POLICY_TYPE_ORDER
  }

  function PlainMeta(meta: map<string, MetaValue>, key: string): string {
    if key in meta && meta[key].Plain? then meta[key].s else ""
  }

  /** LoadFromDB, given the rows its query returns; None stands for the load error. */
  function Load(rx: Regex, meta: map<string, MetaValue>, scan: seq<Row>): Option<TenantPolicy> {
    if PlainMeta(meta, "schema_version") != "2" then None
    else
      match BuildAst(rx, HydrateAll(scan))
      case None => None
      case Some(ast) =>
        Some(TenantPolicy(MapTerminalAction(PlainMeta(meta, "default_action")), OrderOf(meta), HydrateAll(scan),
          Some(ast)))
  }

  /** The hydration loop of LoadFromDB. */
  method LoadFromDb(rx: Regex, db: DbFile, scan: seq<Row>) returns (tp: Option<TenantPolicy>)
    requires IsScan(db.rules, scan)
    ensures tp == Load(rx, db.meta, scan)
  {
    if PlainMeta(db.meta, "schema_version") != "2" { return None; }
    var rules: seq<RuleRecord> := [];
    for i := 0 to |scan|
      invariant rules == HydrateAll(scan)[..i]
    {
      rules := rules + [Hydrate(scan[i])];
    }
    assert rules == HydrateAll(scan);
    var ast := BuildAstLoop(rx, rules);
    if ast.None? { return None; }
    return Some(TenantPolicy(MapTerminalAction(PlainMeta(db.meta, "default_action")), OrderOf(db.meta), rules, ast));
  }

  // ---------- the ordered scan ----------

  lemma SqlLessIsStrict(a: Row, b: Row)
    ensures SqlLess(a, b) ==> !SqlLess(b, a)
  {
    LessIrreflexive(a.policyType);
    LessIrreflexive(a.id);
    if Less(a.policyType, b.policyType) && Less(b.policyType, a.policyType) {
      LessTransitive(a.policyType, b.policyType, a.policyType);
    }
    if Less(a.id, b.id) && Less(b.id, a.id) { LessTransitive(a.id, b.id, a.id); }
  }

  lemma SqlLessTransitive(a: Row, b: Row, c: Row)
    requires SqlLess(a, b) && SqlLess(b, c)
    ensures SqlLess(a, c)
  {
    if Less(a.policyType, b.policyType) && Less(b.policyType, c.policyType) {
      LessTransitive(a.policyType, b.policyType, c.policyType);
    }
    if Less(a.id, b.id) && Less(b.id, c.id) { LessTransitive(a.id, b.id, c.id); }
  }

  lemma SqlLessTotal(a: Row, b: Row)
    requires KeyOf(a) != KeyOf(b)
    ensures SqlLess(a, b) || SqlLess(b, a)
  {
    LessTotal(a.policyType, b.policyType);
    LessTotal(a.id, b.id);
  }

  /** The position at which a row enters an ordered scan. */
  function Place(x: Row, out: seq<Row>): (k: nat)
    ensures k <= |out|
    ensures forall i :: 0 <= i < k ==> SqlLess(out[i], x)
    ensures k < |out| ==> !SqlLess(out[k], x)
  {
    if out != [] && SqlLess(out[0], x) then 1 + Place(x, out[1..]) else 0
  }

  predicate KeyIsNew(x: Row, out: seq<Row>) {
    forall i :: 0 <= i < |out| ==> KeyOf(out[i]) != KeyOf(x)
  }

  /** At its place a row with a new key is above everything before it and below everything after it. */
  lemma PlaceSplits(x: Row, out: seq<Row>)
    requires InOrder(out) && DistinctKeys(out) && KeyIsNew(x, out)
    ensures forall i :: 0 <= i < Place(x, out) ==> !SqlLess(x, out[i])
    ensures forall j :: Place(x, out) <= j < |out| ==> !SqlLess(out[j], x)
  {
    var k := Place(x, out);
    forall i | 0 <= i < k ensures !SqlLess(x, out[i]) { SqlLessIsStrict(out[i], x); }
    forall j | k < j < |out| ensures !SqlLess(out[j], x) {
      SqlLessTotal(x, out[k]);
      SqlLessTotal(out[k], out[j]);
      SqlLessTransitive(x, out[k], out[j]);
      SqlLessIsStrict(x, out[j]);
    }
  }

  function InsertAt(x: Row, out: seq<Row>, k: nat): seq<Row>
    requires k <= |out|
  {
    out[..k] + [x] + out[k..]
  }

  lemma PlaceKeepsOrder(x: Row, out: seq<Row>)
    requires InOrder(out) && DistinctKeys(out) && KeyIsNew(x, out)
    ensures InOrder(InsertAt(x, out, Place(x, out)))
  {
    PlaceSplits(x, out);
    var k := Place(x, out);
    var next := InsertAt(x, out, k);
    forall i, j | 0 <= i < j < |next| ensures !SqlLess(next[j], next[i]) {
      var a, b := if i <= k then i else i - 1, if j <= k then j else j - 1;
      assert next[i] == if i == k then x else out[a];
      assert next[j] == if j == k then x else out[b];
    }
  }

  lemma InsertKeepsScan(table: map<Key, Row>, x: Row, out: seq<Row>, k: nat)
    requires IsScan(table, out) && KeyOf(x) !in table && k <= |out|
    ensures KeyIsNew(x, out)
    ensures var next, table' := InsertAt(x, out, k), table[KeyOf(x) := x];
      && |next| == |table'| && DistinctKeys(next)
      && forall i :: 0 <= i < |next| ==> KeyOf(next[i]) in table' && table'[KeyOf(next[i])] == next[i]
  {
    var next := InsertAt(x, out, k);
    forall i, j | 0 <= i < j < |next| ensures KeyOf(next[i]) != KeyOf(next[j]) {
      var a, b := if i <= k then i else i - 1, if j <= k then j else j - 1;
      assert next[i] == if i == k then x else out[a];
      assert next[j] == if j == k then x else out[b];
    }
  }

  /** Every table can be scanned in order. */
  lemma {:induction false} ScanExists(rows: seq<Row>) returns (out: seq<Row>)
    requires DistinctKeys(rows)
    ensures IsScan(TableOf(rows), out)
  {
    if rows == [] { return []; }
    var x, before := rows[|rows| - 1], rows[..|rows| - 1];
    TableOfRows(before);
    var out' := ScanExists(before);
    InsertKeepsScan(TableOf(before), x, out', Place(x, out'));
    PlaceKeepsOrder(x, out');
    out := InsertAt(x, out', Place(x, out'));
  }

  // ---------- compile, then load ----------

  lemma ScanIsTable(rows: seq<Row>, scan: seq<Row>)
    requires DistinctKeys(rows) && IsScan(TableOf(rows), scan)
    ensures |scan| == |rows| && forall r :: r in scan <==> r in rows
  {
    TableOfRows(rows);
    var table := TableOf(rows);
    forall r | r in scan ensures r in rows {
      var i :| 0 <= i < |scan| && scan[i] == r;
      assert KeyOf(r) in table;
    }
    forall i | 0 <= i < |rows| ensures rows[i] in scan {
      EveryKeyScanned(table, scan, KeyOf(rows[i]));
    }
  }

  /** As many distinct keys as the table has: none is left out. */
  lemma EveryKeyScanned(table: map<Key, Row>, scan: seq<Row>, k: Key)
    requires IsScan(table, scan) && k in table
    ensures table[k] in scan
  {
    var keys := set i | 0 <= i < |scan| :: KeyOf(scan[i]);
    KeySetSize(scan);
    if k !in keys {
      SubsetSize(keys, table.Keys - {k});
    }
  }

  lemma {:induction false} KeySetSize(scan: seq<Row>)
    requires DistinctKeys(scan)
    ensures |set i | 0 <= i < |scan| :: KeyOf(scan[i])| == |scan|
  {
    if scan != [] {
      var n := |scan| - 1;
      KeySetSize(scan[..n]);
      var rest := set i | 0 <= i < n :: KeyOf(scan[..n][i]);
      assert (set i | 0 <= i < |scan| :: KeyOf(scan[i])) == rest + {KeyOf(scan[n])};
    }
  }

  lemma {:induction false} SubsetSize<T>(a: set<T>, b: set<T>)
    requires a <= b
    ensures |a| <= |b|
  {
    if a != {} {
      var x :| x in a;
      SubsetSize(a - {x}, b - {x});
    }
  }

  lemma HydratedKeys(scan: seq<Row>)
    requires DistinctKeys(scan)
    ensures UniqueKeys(HydrateAll(scan))
  {
    var rs := HydrateAll(scan);
    forall i, j | 0 <= i < j < |rs| ensures (rs[i].policyType, rs[i].id) != (rs[j].policyType, rs[j].id) {
      assert KeyOf(scan[i]) != KeyOf(scan[j]);
    }
  }

  function TotalSize(ast: AstMap, types: seq<string>): nat {
    if types == [] then 0 else |RulesOf(ast, types[0])| + TotalSize(ast, types[1..])
  }

  function TotalGroups(rules: seq<RuleRecord>, types: seq<string>): nat {
    if types == [] then 0 else |Group(rules, types[0])| + TotalGroups(rules, types[1..])
  }

  lemma {:induction false} GroupsCount(r: RuleRecord, rules: seq<RuleRecord>, types: seq<string>)
    requires forall i, j :: 0 <= i < j < |types| ==> types[i] != types[j]
    ensures TotalGroups([r] + rules, types) == TotalGroups(rules, types) + if r.policyType in types then 1 else 0
  {
    if types != [] {
      GroupsCount(r, rules, types[1..]);
      assert ([r] + rules)[1..] == rules;
    }
  }

  lemma {:induction false} GroupsPartition(rules: seq<RuleRecord>, types: seq<string>)
    requires forall i, j :: 0 <= i < j < |types| ==> types[i] != types[j]
    requires forall r :: r in rules ==> r.policyType in types
    ensures TotalGroups(rules, types) == |rules|
  {
    if rules == [] {
      NoGroups(types);
    } else {
      GroupsPartition(rules[1..], types);
      GroupsCount(rules[0], rules[1..], types);
      assert rules == [rules[0]] + rules[1..];
    }
  }

  lemma {:induction false} NoGroups(types: seq<string>)
    ensures TotalGroups([], types) == 0
  {
    if types != [] { NoGroups(types[1..]); }
  }

  /** The lists of the AST hold every rule once. */
  lemma {:induction false} AstSize(rules: seq<RuleRecord>, types: seq<string>)
    ensures TotalSize(AstOf(rules), types) == TotalGroups(rules, types)
  {
    if types != [] {
      AstSize(rules, types[1..]);
      SortMembers(Group(rules, types[0]));
      if types[0] !in Types(rules) { EmptyGroup(rules, types[0]); }
    }
  }
}
