/** Publishing a policy on disk step by step, with crashes (controlplane/policy_compiler/storage.py). */
module Storage {
  import opened Text
  import opened Json
  import opened Normalizer
  import opened Validator
  import opened PolicyDb

  datatype JsonFile = NoJson | TornJson | FullJson(doc: Json)
  datatype TmpFile = NoTmp | PartialTmp | FullTmp(db: DbFile)
  datatype MetaFile = NoMeta | TornMeta | FullMeta(version: nat, ruleCount: nat)

  /** One tenant's directory. */
  datatype Fs = Fs(json: JsonFile, tmp: TmpFile, db: Option<DbFile>, meta: MetaFile)

  const EMPTY_DIR: Fs := Fs(NoJson, NoTmp, None, NoMeta)

  /** What validation and compilation make of an uploaded document. */
  datatype Content =
    | Rejected
    | Uncompilable(doc: Json)
    | Good(doc: Json, db: DbFile, ruleCount: nat)

  function ContentOf(env: Env, raw: Json): Content {
    match Validate(env, raw)
    case Invalid(_) => Rejected
    case Valid(d) => if CompilesTo(d) then Good(d, CompiledDb(d), |IterRules(d)|) else Uncompilable(d)
  }

  predicate CompilesTo(d: Json) {
    var rows := RowsOf(IterRules(d));
    forall i :: 0 <= i < |rows| ==> Fits(rows[i])
  }

  /** An upload, cut off after `stop` effects on the directory; 8 and more mean it ran to its end. */
  datatype Upload = Upload(content: Content, stop: nat)

  /** next_version; None when the meta file cannot be parsed. */
  function NextVersion(meta: MetaFile): Option<nat> {
    match meta
    case NoMeta => Some(1)
    case FullMeta(v, _) => Some(v + 1)
    case TornMeta => None
  }

  /** The directory after one upload. */
  function Store(fs: Fs, u: Upload): Fs {
    if u.content.Rejected? || fs.meta == TornMeta || u.stop == 0 then fs
    else if u.stop == 1 then fs.(json := TornJson)
    else if u.stop == 2 then fs.(json := FullJson(u.content.doc))
    else if u.stop == 3 then fs.(json := FullJson(u.content.doc), tmp := NoTmp)
    else if u.stop == 4 || u.content.Uncompilable? then fs.(json := FullJson(u.content.doc), tmp := PartialTmp)
    else if u.stop == 5 then fs.(json := FullJson(u.content.doc), tmp := FullTmp(u.content.db))
    else
      Fs(FullJson(u.content.doc), NoTmp, Some(u.content.db),
        if u.stop == 6 then fs.meta
        else if u.stop == 7 then TornMeta
        else FullMeta(NextVersion(fs.meta).value, u.content.ruleCount))
  }

  /** verify_sqlite_schema: the tables are there and the version is current. */
  predicate VerifySchema(db: DbFile) {
    "schema_version" in db.meta && db.meta["schema_version"] == Plain(SCHEMA_VERSION)
  }

  datatype StoreOutcome = Stored(version: nat) | Refused | CutOff

  /** The directory of a tenant as store_policy changes it. */
  class TenantDir {
    var json: JsonFile
    var tmp: TmpFile
    var db: Option<DbFile>
    var meta: MetaFile

    function Files(): Fs
      reads this
    {
      Fs(json, tmp, db, meta)
    }

    constructor ()
      ensures Files() == EMPTY_DIR
    {
      json, tmp, db, meta := NoJson, NoTmp, None, NoMeta;
    }

    /** store_policy, cut off after `stop` effects; a tenant id that is not positive is refused before anything else. */
    method StorePolicy(env: Env, tenant: int, doc: Json, stop: nat) returns (r: StoreOutcome)
      modifies this
      ensures Files() == Store(old(Files()), Upload(if tenant > 0 then ContentOf(env, doc) else Rejected, stop))
      ensures r.Stored? <==> tenant > 0 && ContentOf(env, doc).Good? && old(meta) != TornMeta && stop >= 8
      ensures r.Stored? ==> Some(r.version) == NextVersion(old(meta))
      ensures tenant <= 0 ==> r == Refused
    {
      if tenant <= 0 { return Refused; }
      var verdict := ValidateDocument(env, doc);
      if verdict.Invalid? { return Refused; }
      var d := verdict.doc;
      var version := NextVersion(meta);
      if version.None? { return Refused; }
      ghost var content := ContentOf(env, doc);
      assert !content.Rejected? && content.doc == d;
      if stop == 0 { return CutOff; }
      json := TornJson;
      if stop == 1 { return CutOff; }
      json := FullJson(d);
      if stop == 2 { return CutOff; }
      tmp := NoTmp;
      if stop == 3 { return CutOff; }
      tmp := PartialTmp;
      if stop == 4 { return CutOff; }
      var compiled := CompileFile(env, doc, d);
      if compiled.None? { return Refused; }
      tmp := FullTmp(compiled.value);
      if stop == 5 { return CutOff; }
      db, tmp := compiled, NoTmp;
      if stop == 6 { return CutOff; }
      meta := TornMeta;
      if stop == 7 { return CutOff; }
      var rules := IterRulesLoop(d);
      meta := FullMeta(version.value, |rules|);
      return Stored(version.value);
    }
  }

  /** Compiling into a fresh temporary file and verifying it; verification never fails. */
  method CompileFile(env: Env, doc: Json, d: Json) returns (db: Option<DbFile>)
    requires Validate(env, doc) == Valid(d)
    ensures ContentOf(env, doc) == match db case None => Uncompilable(d) case Some(f) => Good(d, f, |IterRules(d)|)
    ensures db.Some? ==> VerifySchema(db.value)
  {
    var conn := new Connection(EMPTY_DB);
    CompiledContent(env, doc, d);
    VerifiedMeta(d);
    var ok := conn.Compile(d);
    return if ok then Some(conn.file) else None;
  }

  lemma CompiledContent(env: Env, doc: Json, d: Json)
    requires Validate(env, doc) == Valid(d)
    ensures var table := InsertAll(map[], RowsOf(IterRules(d)));
      ContentOf(env, doc) == match table
        case None => Uncompilable(d)
        case Some(rules) => Good(d, DbFile(MetaOf(d), rules), |IterRules(d)|)
  {
    CompileSucceedsIff(env, doc);
  }

  lemma VerifiedMeta(d: Json)
    ensures forall rules :: VerifySchema(DbFile(MetaOf(d), rules))
  {}

  // ---------- the order of the effects ----------

  /** An upload that runs to its end leaves document, database and version in agreement, and no temporary file. */
  lemma CompleteStore(fs: Fs, u: Upload)
    requires fs.meta != TornMeta && u.content.Good? && u.stop >= 8
    ensures var version := if fs.meta.FullMeta? then fs.meta.version + 1 else 1;
      Store(fs, u) == Fs(FullJson(u.content.doc), NoTmp, Some(u.content.db), FullMeta(version, u.content.ruleCount))
  {}

  /** A refused document, or one that does not compile, or a torn meta file: neither database nor version changes. */
  lemma RefusedStore(fs: Fs, u: Upload)
    requires fs.meta == TornMeta || !u.content.Good?
    ensures Store(fs, u).db == fs.db && Store(fs, u).meta == fs.meta
    ensures fs.meta == TornMeta || u.content.Rejected? ==> Store(fs, u) == fs
  {}

  /** Two directories that differ in one file, or by a rename of the temporary file. */
  predicate OneEffect(a: Fs, b: Fs) {
    || (a.tmp == b.tmp && a.db == b.db && a.meta == b.meta)
    || (a.json == b.json && a.db == b.db && a.meta == b.meta)
    || (a.json == b.json && a.tmp == b.tmp && a.db == b.db)
    || (a.json == b.json && a.meta == b.meta && a.tmp.FullTmp? && b == a.(tmp := NoTmp, db := Some(a.tmp.db)))
  }

  /**
   * Effect by effect: each touches one file; the database only ever changes by the rename of a whole compiled file,
   * after the document is whole; and the version only changes after the database has.
   */
  lemma EffectsInOrder(fs: Fs, content: Content, k: nat)
    ensures var a, b := Store(fs, Upload(content, k)), Store(fs, Upload(content, k + 1));
      && OneEffect(a, b)
      && (b.tmp != a.tmp ==> a.json == FullJson(content.doc))
      && (b.tmp == PartialTmp && a.tmp != PartialTmp ==> a.tmp == NoTmp)
      && (b.db != a.db ==> content.Good? && b.db == Some(content.db) && a.tmp == FullTmp(content.db))
      && (b.db != a.db ==> a.json == FullJson(content.doc))
      && (b.meta != a.meta ==> content.Good? && a.db == Some(content.db) && a.tmp == NoTmp)
  {}

  // ---------- runs ----------

  function Run(fs: Fs, us: seq<Upload>): Fs
    decreases us
  {
    if us == [] then fs else Run(Store(fs, us[0]), us[1..])
  }

  predicate Publishes(fs: Fs, u: Upload) {
    u.content.Good? && fs.meta != TornMeta && u.stop >= 6
  }

  /** The compiled files a run has moved into place, oldest first. */
  function Published(fs: Fs, us: seq<Upload>): seq<DbFile>
    decreases us
  {
    if us == [] then []
    else (if Publishes(fs, us[0]) then [us[0].content.db] else []) + Published(Store(fs, us[0]), us[1..])
  }

  /** After any uploads, each cut off anywhere, policy.db is the last file moved into place, or what it was before. */
  lemma {:induction false} DbIsLastPublished(fs: Fs, us: seq<Upload>)
    ensures var ps := Published(fs, us);
      Run(fs, us).db == if ps == [] then fs.db else Some(ps[|ps| - 1])
    decreases us
  {
    if us != [] { DbIsLastPublished(Store(fs, us[0]), us[1..]); }
  }

  lemma {:induction false} PublishedComeFromUploads(fs: Fs, us: seq<Upload>)
    ensures forall db :: db in Published(fs, us) ==>
      exists i :: 0 <= i < |us| && us[i].content.Good? && us[i].content.db == db
    decreases us
  {
    if us != [] {
      PublishedComeFromUploads(Store(fs, us[0]), us[1..]);
      forall db | db in Published(fs, us)
        ensures exists i :: 0 <= i < |us| && us[i].content.Good? && us[i].content.db == db {
        if db in Published(Store(fs, us[0]), us[1..]) {
          var i :| 0 <= i < |us[1..]| && us[1..][i].content.Good? && us[1..][i].content.db == db;
          assert us[i + 1] == us[1..][i];
        } else {
          assert us[0].content.db == db;
        }
      }
    }
  }

  /** The uploads of raw documents, each with its own cut. */
  function Uploads(env: Env, docs: seq<(Json, nat)>): seq<Upload> {
    seq(|docs|, i requires 0 <= i < |docs| => Upload(ContentOf(env, docs[i].0), docs[i].1))
  }

  /** `db` is the complete compile of the document that validation makes of `raw`, and passes the schema check. */
  predicate WholeCompile(env: Env, raw: Json, db: DbFile) {
    var v := Validate(env, raw);
    v.Valid? && db == CompiledDb(v.doc) && VerifySchema(db)
  }

  /** Crash safety: from empty, policy.db is absent or the whole verified compile of one validated document. */
  lemma CrashSafety(env: Env, docs: seq<(Json, nat)>)
    ensures var db := Run(EMPTY_DIR, Uploads(env, docs)).db;
      db.None? || exists i :: 0 <= i < |docs| && WholeCompile(env, docs[i].0, db.value)
  {
    var us := Uploads(env, docs);
    DbIsLastPublished(EMPTY_DIR, us);
    PublishedComeFromUploads(EMPTY_DIR, us);
    var ps := Published(EMPTY_DIR, us);
    if ps != [] {
      assert ps[|ps| - 1] in ps;
      SomeWholeCompile(env, docs, ps[|ps| - 1]);
    }
  }

  lemma SomeWholeCompile(env: Env, docs: seq<(Json, nat)>, db: DbFile)
    requires var us := Uploads(env, docs); exists i :: 0 <= i < |us| && us[i].content.Good? && us[i].content.db == db
    ensures exists i :: 0 <= i < |docs| && WholeCompile(env, docs[i].0, db)
  {
    var us := Uploads(env, docs);
    var i :| 0 <= i < |us| && us[i].content.Good? && us[i].content.db == db;
    GoodContent(env, docs[i].0);
  }

  lemma GoodContent(env: Env, raw: Json)
    requires ContentOf(env, raw).Good?
    ensures WholeCompile(env, raw, ContentOf(env, raw).db)
  {}

  /** Stored versions never go down, whatever is cut off in between. */
  lemma {:induction false} VersionsNeverDecrease(fs: Fs, us: seq<Upload>)
    requires fs.meta.FullMeta? && Run(fs, us).meta.FullMeta?
    ensures fs.meta.version <= Run(fs, us).meta.version
    decreases us
  {
    if us != [] {
      var next := Store(fs, us[0]);
      if next.meta == TornMeta {
        TornMetaIsFinal(next, us[1..]);
      } else {
        VersionsNeverDecrease(next, us[1..]);
      }
    }
  }

  predicate Completes(u: Upload) {
    u.content.Good? && u.stop >= 8
  }

  function VersionOf(meta: MetaFile): nat {
    if meta.FullMeta? then meta.version else 0
  }

  /** Once the meta file is torn no later upload changes anything. */
  lemma {:induction false} TornMetaIsFinal(fs: Fs, us: seq<Upload>)
    requires fs.meta == TornMeta
    ensures Run(fs, us) == fs
    decreases us
  {
    if us != [] { TornMetaIsFinal(fs, us[1..]); }
  }

  /** Whether some upload of a run is cut off inside its write of the meta file. */
  predicate CutInMeta(us: seq<Upload>) {
    exists i :: 0 <= i < |us| && us[i].content.Good? && us[i].stop == 7
  }

  lemma CutInMetaCons(us: seq<Upload>)
    requires us != []
    ensures CutInMeta(us) <==> (us[0].content.Good? && us[0].stop == 7) || CutInMeta(us[1..])
  {
    if CutInMeta(us[1..]) {
      var i :| 0 <= i < |us[1..]| && us[1..][i].content.Good? && us[1..][i].stop == 7;
      assert us[i + 1] == us[1..][i];
    }
    if CutInMeta(us) {
      var i :| 0 <= i < |us| && us[i].content.Good? && us[i].stop == 7;
      assert i > 0 ==> us[i] == us[1..][i - 1];
    }
  }

  /** How many uploads of a run reach their end. */
  function Completed(us: seq<Upload>): nat {
    if us == [] then 0 else (if Completes(us[0]) then 1 else 0) + Completed(us[1..])
  }

  /**
   * Over any uploads the meta file stays whole if and only if none is cut off in its write, and then the version has
   * gone up by one for every upload that completed, whatever was rejected or cut off in between.
   */
  lemma {:induction false} VersionCountsStores(fs: Fs, us: seq<Upload>)
    requires fs.meta != TornMeta
    ensures Run(fs, us).meta != TornMeta <==> !CutInMeta(us)
    ensures !CutInMeta(us) ==> VersionOf(Run(fs, us).meta) == VersionOf(fs.meta) + Completed(us)
    decreases us
  {
    if us != [] {
      CutInMetaCons(us);
      var next := Store(fs, us[0]);
      if next.meta == TornMeta {
        TornMetaIsFinal(next, us[1..]);
      } else {
        VersionCountsStores(next, us[1..]);
      }
    }
  }

  /**
   * After any run, uploading a good document to its end works exactly when no earlier upload was cut off in the meta
   * write.
   */
  lemma UploadWorksIff(fs: Fs, us: seq<Upload>, u: Upload)
    requires fs.meta != TornMeta && Completes(u)
    ensures var before := Run(fs, us);
      Store(before, u).meta.FullMeta? && Store(before, u).db == Some(u.content.db) <==> !CutInMeta(us)
  {
    VersionCountsStores(fs, us);
  }
}
