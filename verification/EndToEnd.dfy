/** From uploaded documents to live answers: storage, load, registry and evaluation together. */
module EndToEnd {
  import opened Text
  import opened Json
  import opened Policy
  import opened TenantDecide
  import opened Normalizer
  import opened Validator
  import opened PolicyDb
  import opened LoadDb
  import opened Pipeline
  import opened Meaning
  import NormalForm
  import Acceptance
  import opened Storage
  import Engine
  import Migration
  import G = Registry
  import RegistrySafety
  import RegistryHistory
  import RegistryFresh
  import Forwarding
  import RegistryForwarding

  /** What a load makes of a database. */
  ghost predicate ReadAs(rx: Regex, db: DbFile, file: G.File) {
    exists scan :: IsScan(db.rules, scan) && file == Loaded(Load(rx, db.meta, scan))
  }

  function Loaded(tp: Option<TenantPolicy>): G.File {
    match tp
    case Some(v) => G.Holds(v)
    case None => G.Broken
  }

  /**
   * The answer an uploaded document stands for: that of its first rule, in the order of blocks, priorities and ids,
   * that takes the request and is not passed over, else its default; for a faithful legacy document also that of the
   * older engine on its rules arranged by (priority, id). The document is read as its normal form.
   */
  ghost predicate UploadAnswers(env: Env, rx: Regex, raw: Json, domain: string, m: string, o: Outcome) {
    && Validate(env, raw).Valid?
    && var d := Validate(env, raw).doc;
    && NormalForm.NormalForm(raw, d) && Acceptance.Accepted(env, d)
    && DocAnswers(rx, d, domain, m, o) && InBlockOrder(rx, d, Lower(domain), Upper(m), o)
    && (Migration.FaithfulDoc(rx, raw) ==> o == EngineAnswer(rx, raw, domain, m))
  }

  function EngineAnswer(rx: Regex, raw: Json, domain: string, m: string): Outcome {
    var arranged := Migration.ArrangedByKey(Migration.LegacyRules(raw));
    Engine.EngineDecide(rx, Migration.EngineOf(rx, raw, arranged), domain, m)
  }

  // ---------- one file ----------

  lemma GoodCompiles(env: Env, raw: Json, scan: seq<Row>)
    requires ContentOf(env, raw).Good? && IsScan(ContentOf(env, raw).db.rules, scan)
    ensures Compiles(env, raw, ContentOf(env, raw).doc, scan)
    ensures ContentOf(env, raw).db.meta == MetaOf(ContentOf(env, raw).doc)
  {
    CompileSucceedsIff(env, raw);
  }

  /** A policy loaded from the file of an upload answers every request as the document stands for. */
  lemma LoadedUpload(env: Env, rx: Regex, raw: Json, scan: seq<Row>, v: TenantPolicy, domain: string, m: string)
    requires ContentOf(env, raw).Good? && IsScan(ContentOf(env, raw).db.rules, scan)
    requires Load(rx, ContentOf(env, raw).db.meta, scan) == Some(v)
    ensures UploadAnswers(env, rx, raw, domain, m, Decide(rx, v, domain, m))
  {
    var d := ContentOf(env, raw).doc;
    GoodCompiles(env, raw, scan);
    NormalForm.NormalizeYieldsNormalForm(raw);
    Acceptance.AcceptedIff(env, raw);
    LoadedAnswers(env, rx, raw, d, scan, domain, m);
    if Migration.FaithfulDoc(rx, raw) { Migration.MigrationHasMeaning(env, rx, raw, d, scan); }
  }

  /** The policy answers every request as this upload does. */
  ghost predicate AnswersAs(env: Env, rx: Regex, raw: Json, v: TenantPolicy) {
    forall domain, m :: UploadAnswers(env, rx, raw, domain, m, Decide(rx, v, domain, m))
  }

  /** A readable file moved into place answers as one of the uploads does. */
  lemma PublishedUpload(env: Env, rx: Regex, docs: seq<(Json, nat)>, db: DbFile, v: TenantPolicy)
    requires db in Published(EMPTY_DIR, Uploads(env, docs)) && ReadAs(rx, db, G.Holds(v))
    ensures exists i :: 0 <= i < |docs| && AnswersAs(env, rx, docs[i].0, v)
  {
    var us := Uploads(env, docs);
    PublishedComeFromUploads(EMPTY_DIR, us);
    var i :| 0 <= i < |us| && us[i].content.Good? && us[i].content.db == db;
    var scan :| IsScan(db.rules, scan) && G.Holds(v) == Loaded(Load(rx, db.meta, scan));
    forall domain, m ensures UploadAnswers(env, rx, docs[i].0, domain, m, Decide(rx, v, domain, m)) {
      LoadedUpload(env, rx, docs[i].0, scan, v, domain, m);
    }
    assert AnswersAs(env, rx, docs[i].0, v);
  }

  // ---------- whole runs ----------

  /** Each readable file a run publishes is what a load makes of some file the tenant's uploads moved into place. */
  ghost predicate PublishesUploads(env: Env, rx: Regex, docs: int -> seq<(Json, nat)>, steps: seq<G.Step>) {
    forall k :: 0 <= k < |steps| && steps[k].Publish? && steps[k].file.Holds? ==>
      FromUploads(env, rx, docs(steps[k].tenant), steps[k].file)
  }

  ghost predicate FromUploads(env: Env, rx: Regex, docs: seq<(Json, nat)>, file: G.File) {
    exists db :: db in Published(EMPTY_DIR, Uploads(env, docs)) && ReadAs(rx, db, file)
  }

  /** Some upload of the tenant stands for the answer. */
  ghost predicate SomeUploadAnswers(env: Env, rx: Regex, docs: seq<(Json, nat)>, q: G.Query, o: Outcome) {
    exists i :: 0 <= i < |docs| && UploadAnswers(env, rx, docs[i].0, q.domain, q.verb, o)
  }

  /**
   * In every run, with every interleaving of requests, loads, reloads, evictions and uploads cut off anywhere, each
   * answer is the one that one single validated upload of the request's own tenant stands for.
   */
  lemma LiveAnswersComeFromUploads(env: Env, c: G.Config, docs: int -> seq<(Json, nat)>, steps: seq<G.Step>,
                                   s: G.State, r: nat)
    requires G.Runs(c, G.Init(c), steps, s) && PublishesUploads(env, c.rx, docs, steps)
    requires r < |s.reqs| && s.reqs[r].Answered?
    ensures SomeUploadAnswers(env, c.rx, docs(s.reqs[r].q.tenant), s.reqs[r].q, s.reqs[r].outcome)
  {
    var q, o := s.reqs[r].q, s.reqs[r].outcome;
    RegistrySafety.AnswersComeFromOneVersion(c, steps, s, r);
    var v :| RegistrySafety.Version(s, q.tenant, v) && o == Decide(c.rx, v, q.domain, q.verb);
    RegistryHistory.HistoryIsPublished(c, G.Init(c), steps, s, q.tenant, G.Holds(v));
    var k :| 0 <= k < |steps| && steps[k] == G.Publish(q.tenant, G.Holds(v));
    assert FromUploads(env, c.rx, docs(q.tenant), steps[k].file);
    var db :| db in Published(EMPTY_DIR, Uploads(env, docs(q.tenant))) && ReadAs(c.rx, db, G.Holds(v));
    PublishedUpload(env, c.rx, docs(q.tenant), db, v);
  }

  /** In every run a request that passes the gate does so by an upload of its own tenant that does not block it. */
  lemma ForwardedByUpload(env: Env, c: G.Config, docs: int -> seq<(Json, nat)>, steps: seq<G.Step>, s: G.State, r: nat,
                          id: Forwarding.Identity, deny: bool)
    requires G.Runs(c, G.Init(c), steps, s) && PublishesUploads(env, c.rx, docs, steps)
    requires r < |s.reqs| && RegistryForwarding.Over(s.reqs[r]) && s.reqs[r].q.tenant == Forwarding.TenantOf(id)
    requires Forwarding.Gate(id, Some(RegistryForwarding.VerdictOf(s.reqs[r], deny)))
    ensures var x := s.reqs[r];
      && id == Forwarding.Known(x.q.tenant) && x.q.tenant > 0 && x.Answered? && x.outcome.action != BLOCK
      && SomeUploadAnswers(env, c.rx, docs(x.q.tenant), x.q, x.outcome)
  {
    RegistryForwarding.GateMeans(c, steps, s, r, id, deny);
    LiveAnswersComeFromUploads(env, c, docs, steps, s, r);
  }

  /**
   * Once a tenant is settled, every later request is answered as the upload whose file is on disk stands for, whatever
   * was cut off before it, until the file changes.
   */
  lemma SettledAnswersFollowTheDisk(env: Env, c: G.Config, docs: seq<(Json, nat)>, before: seq<G.Step>, s: G.State,
                                    t: int, v: TenantPolicy)
    requires t > 0 && G.Runs(c, G.Init(c), before, s) && RegistryFresh.Fresh(c, s, t, v, |s.reqs|)
    requires var db := Run(EMPTY_DIR, Uploads(env, docs)).db; db.Some? && ReadAs(c.rx, db.value, G.Current(s, t))
    ensures RegistryFresh.AnswersLike(c, s, t, v) && exists i :: 0 <= i < |docs| && AnswersAs(env, c.rx, docs[i].0, v)
  {
    RegistryFresh.FreshAnswers(c, before, s, t, v);
    var us := Uploads(env, docs);
    DbIsLastPublished(EMPTY_DIR, us);
    var ps := Published(EMPTY_DIR, us);
    PublishedUpload(env, c.rx, docs, ps[|ps| - 1], v);
  }
}
