/** Every answer of the registry is the answer of one whole version of the tenant's own policy file. */
module RegistrySafety {
  import opened Text
  import opened Policy
  import opened TenantDecide
  import opened LruSpec
  import opened Registry

  /** `v` is a policy some version of the tenant's file held. */
  ghost predicate Version(s: State, t: int, v: TenantPolicy) {
    Holds(v) in History(s, t)
  }

  ghost predicate PolOf(s: State, t: int, p: nat) {
    p < |s.pols| && s.pols[p].tenant == t
  }

  ghost predicate ResOf(s: State, t: int, r: Res) {
    r.Hit? ==> PolOf(s, t, r.pol)
  }

  /** The fields a swap has copied so far. */
  predicate Written(f: TenantPolicy, v: TenantPolicy, stage: nat) {
    && (stage > 0 ==> f.defaultAction == v.defaultAction)
    && (stage > 1 ==> f.evaluationOrder == v.evaluationOrder)
    && (stage > 2 ==> f.rules == v.rules)
    && (stage > 3 ==> f == v)
  }

  /** A policy object holds one whole version of its tenant's file unless one reload is writing it. */
  ghost predicate PolOk(s: State, p: nat)
    requires p < |s.pols|
  {
    var x := s.pols[p];
    match x.writer
    case None => Version(s, x.tenant, x.fields)
    case Some(l) => x.readers == {} && l < |s.reloads| && s.reloads[l].RWriting? && s.reloads[l].pol == p
  }

  ghost predicate ReloadOk(s: State, l: nat)
    requires l < |s.reloads|
  {
    match s.reloads[l]
    case RStart(_) => true
    case RDone(_, _) => true
    case RRead(t, v) => Version(s, t, v)
    case RAbsent(t, v) => Version(s, t, v)
    case RFound(t, v, e) => Version(s, t, v) && e < |s.entries| && s.entries[e].tenant == t
    case RAimed(t, v, p) => Version(s, t, v) && PolOf(s, t, p)
    case RWriting(t, v, p, stage) =>
      && Version(s, t, v) && PolOf(s, t, p) && s.pols[p].writer == Some(l) && stage <= 4
      && Written(s.pols[p].fields, v, stage)
  }

  ghost predicate CacheOk(s: State) {
    && (forall x :: x in s.lru ==> x.val < |s.entries| && s.entries[x.val].tenant == x.tenant)
    && (forall e :: 0 <= e < |s.entries| ==> PolOf(s, s.entries[e].tenant, s.entries[e].pol))
  }

  ghost predicate FlightOk(s: State, f: nat)
    requires f < |s.flights|
  {
    var x := s.flights[f];
    && x.leader < |s.reqs| && s.reqs[x.leader].q.tenant == x.tenant
    && (match x.phase
        case Waiting(j) => j < |s.jobs| && s.jobs[j].tenant == x.tenant
        case Ended(r) => ResOf(s, x.tenant, r)
        case Left(r) => ResOf(s, x.tenant, r)
        case _ => true)
  }

  /** A reader sees one state of the object: nobody writes while it holds the lock. */
  ghost predicate ReqOk(c: Config, s: State, r: nat)
    requires r < |s.reqs|
  {
    match s.reqs[r]
    case Start(_) => true
    case Missed(_) => true
    case Refused(_) => true
    case Leading(q, f) => f < |s.flights| && s.flights[f].tenant == q.tenant
    case Joined(q, f) => f < |s.flights| && s.flights[f].tenant == q.tenant
    case Got(q, p) => PolOf(s, q.tenant, p)
    case Reading(q, p, stage, ast, order) =>
      && PolOf(s, q.tenant, p) && r in s.pols[p].readers
      && (stage > 0 ==> ast == s.pols[p].fields.ast)
      && (stage > 1 ==> order == s.pols[p].fields.evaluationOrder)
    case Answered(q, o) => exists v :: Version(s, q.tenant, v) && o == Decide(c.rx, v, q.domain, q.verb)
  }

  ghost predicate WorkerOk(s: State, w: nat)
    requires w < |s.workers|
  {
    match s.workers[w]
    case Idle => true
    case Taken(j) => j < |s.jobs|
    case HasRead(j, got) => j < |s.jobs| && (got.Value? ==> Version(s, s.jobs[j].tenant, got.policy))
    case HasInserted(j, r) => j < |s.jobs| && ResOf(s, s.jobs[j].tenant, r)
  }

  ghost predicate QueuesOk(s: State) {
    && (forall i :: 0 <= i < |s.queue| ==> s.queue[i] < |s.jobs|)
    && (forall j :: j in s.senders ==> j < |s.jobs|)
    && (forall j, i :: 0 <= j < |s.jobs| && 0 <= i < |s.jobs[j].chan| ==> ResOf(s, s.jobs[j].tenant, s.jobs[j].chan[i]))
    && (forall t :: t in s.group ==> s.group[t] < |s.flights| && s.flights[s.group[t]].tenant == t)
  }

  ghost predicate Inv(c: Config, s: State) {
    && (forall p :: 0 <= p < |s.pols| ==> PolOk(s, p))
    && (forall l :: 0 <= l < |s.reloads| ==> ReloadOk(s, l))
    && CacheOk(s)
    && (forall f :: 0 <= f < |s.flights| ==> FlightOk(s, f))
    && (forall r :: 0 <= r < |s.reqs| ==> ReqOk(c, s, r))
    && (forall w :: 0 <= w < |s.workers| ==> WorkerOk(s, w))
    && QueuesOk(s)
  }

  lemma TouchMembers<V>(s: seq<Slot<V>>, t: int)
    ensures forall x :: x in Touch(s, t) ==> x in s
  {}

  // ---------- what a step leaves alone ----------

  /** Identities, tenants and histories only grow. */
  ghost predicate Grows(s: State, s': State) {
    && (forall t, x :: x in History(s, t) ==> x in History(s', t))
    && |s.pols| <= |s'.pols| && (forall p :: 0 <= p < |s.pols| ==> s'.pols[p].tenant == s.pols[p].tenant)
    && |s.entries| <= |s'.entries| && (forall e :: 0 <= e < |s.entries| ==> s'.entries[e].tenant == s.entries[e].tenant)
    && |s.flights| <= |s'.flights| && (forall f :: 0 <= f < |s.flights| ==> s'.flights[f].tenant == s.flights[f].tenant)
    && |s.jobs| <= |s'.jobs| && (forall j :: 0 <= j < |s.jobs| ==> s'.jobs[j].tenant == s.jobs[j].tenant)
    && |s.reqs| <= |s'.reqs| && (forall r :: 0 <= r < |s.reqs| ==> s'.reqs[r].q == s.reqs[r].q)
    && |s.reloads| <= |s'.reloads| && |s.workers| == |s'.workers|
  }

  /** Elements a step may have changed: at most one of each kind, besides new ones. */
  datatype Dirty = Dirty(
    pol: Option<nat>,
    reload: Option<nat>,
    flight: Option<nat>,
    req: Option<nat>,
    worker: Option<nat>)

  ghost predicate Only(s: State, s': State, d: Dirty)
    requires Grows(s, s')
  {
    && (forall p :: 0 <= p < |s.pols| && d.pol != Some(p) ==> s'.pols[p] == s.pols[p])
    && (forall l :: 0 <= l < |s.reloads| && d.reload != Some(l) ==> s'.reloads[l] == s.reloads[l])
    && (forall f :: 0 <= f < |s.flights| && d.flight != Some(f) ==> s'.flights[f] == s.flights[f])
    && (forall r :: 0 <= r < |s.reqs| && d.req != Some(r) ==> s'.reqs[r] == s.reqs[r])
    && (forall w :: 0 <= w < |s.workers| && d.worker != Some(w) ==> s'.workers[w] == s.workers[w])
  }

  /** The changed and the new elements satisfy their part of the invariant. */
  ghost predicate Repaired(c: Config, s: State, s': State, d: Dirty)
    requires Grows(s, s')
  {
    && (forall p :: 0 <= p < |s'.pols| && (p >= |s.pols| || d.pol == Some(p)) ==> PolOk(s', p))
    && (forall l :: 0 <= l < |s'.reloads| && (l >= |s.reloads| || d.reload == Some(l)) ==> ReloadOk(s', l))
    && (forall f :: 0 <= f < |s'.flights| && (f >= |s.flights| || d.flight == Some(f)) ==> FlightOk(s', f))
    && (forall r :: 0 <= r < |s'.reqs| && (r >= |s.reqs| || d.req == Some(r)) ==> ReqOk(c, s', r))
    && (forall w :: 0 <= w < |s'.workers| && d.worker == Some(w) ==> WorkerOk(s', w))
  }

  /** A changed policy object keeps its readers' view and stays with its writer. */
  ghost predicate PolSteady(s: State, s': State, d: Dirty)
    requires Grows(s, s')
  {
    && (d.pol.Some? && d.pol.value < |s.pols| ==>
        var p := d.pol.value;
        && (forall r :: r in s.pols[p].readers && d.req != Some(r) ==>
             r in s'.pols[p].readers && s'.pols[p].fields == s.pols[p].fields)
        && (s.pols[p].writer.Some? ==> d.reload == s.pols[p].writer))
    && (d.reload.Some? && d.reload.value < |s.reloads| && s.reloads[d.reload.value].RWriting? ==>
         d.pol == Some(s.reloads[d.reload.value].pol))
  }

  lemma PolFrame(c: Config, s: State, s': State, d: Dirty, p: nat)
    requires Inv(c, s) && Grows(s, s') && Only(s, s', d) && PolSteady(s, s', d)
    requires p < |s.pols| && d.pol != Some(p)
    ensures PolOk(s', p)
  {
    assert PolOk(s, p) && s'.pols[p] == s.pols[p];
    if s.pols[p].writer.Some? { assert d.reload != s.pols[p].writer; }
  }

  lemma ReloadFrame(c: Config, s: State, s': State, d: Dirty, l: nat)
    requires Inv(c, s) && Grows(s, s') && Only(s, s', d) && PolSteady(s, s', d)
    requires l < |s.reloads| && d.reload != Some(l)
    ensures ReloadOk(s', l)
  {
    assert ReloadOk(s, l) && s'.reloads[l] == s.reloads[l];
    if s.reloads[l].RWriting? { assert d.pol != Some(s.reloads[l].pol); }
  }

  lemma ReqFrame(c: Config, s: State, s': State, d: Dirty, r: nat)
    requires Inv(c, s) && Grows(s, s') && Only(s, s', d) && PolSteady(s, s', d)
    requires r < |s.reqs| && d.req != Some(r)
    ensures ReqOk(c, s', r)
  {
    assert ReqOk(c, s, r) && s'.reqs[r] == s.reqs[r];
    match s.reqs[r] {
      case Answered(q, o) =>
        var v :| Version(s, q.tenant, v) && o == Decide(c.rx, v, q.domain, q.verb);
        assert Version(s', q.tenant, v);
      case Reading(_, p, _, _, _) =>
        assert d.pol != Some(p) ==> s'.pols[p] == s.pols[p];
      case _ =>
    }
  }

  lemma FlightFrame(c: Config, s: State, s': State, d: Dirty, f: nat)
    requires Inv(c, s) && Grows(s, s') && Only(s, s', d)
    requires f < |s.flights| && d.flight != Some(f)
    ensures FlightOk(s', f)
  {
    assert FlightOk(s, f) && s'.flights[f] == s.flights[f];
  }

  ghost predicate SameCache(s: State, s': State) {
    s'.lru == s.lru && s'.entries == s.entries
  }

  ghost predicate SameQueues(s: State, s': State) {
    s'.queue == s.queue && s'.senders == s.senders && s'.jobs == s.jobs && s'.group == s.group
  }

  lemma CacheFrame(s: State, s': State)
    requires CacheOk(s) && Grows(s, s') && SameCache(s, s')
    ensures CacheOk(s')
  {}

  lemma QueuesFrame(s: State, s': State)
    requires QueuesOk(s) && Grows(s, s') && SameQueues(s, s')
    ensures QueuesOk(s')
  {}

  /** The invariant needs checking only where a step has been at work. */
  lemma Frame(c: Config, s: State, s': State, d: Dirty)
    requires Inv(c, s) && Grows(s, s') && Only(s, s', d) && Repaired(c, s, s', d) && PolSteady(s, s', d)
    requires (SameCache(s, s') || CacheOk(s')) && (SameQueues(s, s') || QueuesOk(s'))
    ensures Inv(c, s')
  {
    if SameCache(s, s') { CacheFrame(s, s'); }
    if SameQueues(s, s') { QueuesFrame(s, s'); }
    forall p | 0 <= p < |s.pols| && d.pol != Some(p) ensures PolOk(s', p) { PolFrame(c, s, s', d, p); }
    forall l | 0 <= l < |s.reloads| && d.reload != Some(l) ensures ReloadOk(s', l) { ReloadFrame(c, s, s', d, l); }
    forall f | 0 <= f < |s.flights| && d.flight != Some(f) ensures FlightOk(s', f) { FlightFrame(c, s, s', d, f); }
    forall r | 0 <= r < |s.reqs| && d.req != Some(r) ensures ReqOk(c, s', r) { ReqFrame(c, s, s', d, r); }
    forall w | 0 <= w < |s.workers| && d.worker != Some(w) ensures WorkerOk(s', w) {
      assert WorkerOk(s, w) && s'.workers[w] == s.workers[w];
    }
  }

  const NOTHING := Dirty(None, None, None, None, None)

  // ---------- changes that steps are made of ----------

  lemma SetReqSafe(c: Config, s: State, r: nat, x: Req)
    requires Inv(c, s) && r < |s.reqs| && x.q == s.reqs[r].q && ReqOk(c, SetReq(s, r, x), r)
    ensures Inv(c, SetReq(s, r, x))
  {
    Frame(c, s, SetReq(s, r, x), NOTHING.(req := Some(r)));
  }

  lemma SetPhaseSafe(c: Config, s: State, f: nat, p: Phase)
    requires Inv(c, s) && f < |s.flights| && FlightOk(SetPhase(s, f, p), f)
    ensures Inv(c, SetPhase(s, f, p))
  {
    Frame(c, s, SetPhase(s, f, p), NOTHING.(flight := Some(f)));
  }

  lemma SetReloadSafe(c: Config, s: State, l: nat, x: Reload)
    requires Inv(c, s) && l < |s.reloads| && !s.reloads[l].RWriting? && ReloadOk(SetReload(s, l, x), l)
    ensures Inv(c, SetReload(s, l, x))
  {
    Frame(c, s, SetReload(s, l, x), NOTHING.(reload := Some(l)));
  }

  lemma SetWorkerSafe(c: Config, s: State, w: nat, x: Worker)
    requires Inv(c, s) && w < |s.workers| && WorkerOk(s.(workers := s.workers[w := x]), w)
    ensures Inv(c, s.(workers := s.workers[w := x]))
  {
    Frame(c, s, s.(workers := s.workers[w := x]), NOTHING.(worker := Some(w)));
  }

  /** Readers come and go only while nobody writes. */
  lemma SetReadersSafe(c: Config, s: State, p: nat, readers: set<nat>, r: nat, x: Req)
    requires Inv(c, s) && p < |s.pols| && s.pols[p].writer.None? && r < |s.reqs| && x.q == s.reqs[r].q
    requires forall i :: i in s.pols[p].readers && i != r ==> i in readers
    requires ReqOk(c, SetReq(SetPol(s, p, s.pols[p].(readers := readers)), r, x), r)
    ensures Inv(c, SetReq(SetPol(s, p, s.pols[p].(readers := readers)), r, x))
  {
    assert PolOk(s, p);
    forall l | 0 <= l < |s.reloads| ensures s.reloads[l].RWriting? ==> s.reloads[l].pol != p { assert ReloadOk(s, l); }
    Frame(c, s, SetReq(SetPol(s, p, s.pols[p].(readers := readers)), r, x), NOTHING.(req := Some(r), pol := Some(p)));
  }

  /** A writer works on an object nobody else reads or writes. */
  lemma SwapSafe(c: Config, s: State, l: nat, x: Reload, y: Pol)
    requires Inv(c, s) && l < |s.reloads| && (s.reloads[l].RAimed? || s.reloads[l].RWriting?)
    requires s.reloads[l].pol < |s.pols|
    requires var was := s.pols[s.reloads[l].pol];
      was.readers == {} && (was.writer.None? || was.writer == Some(l)) && y.tenant == was.tenant
    requires var s' := SetReload(SetPol(s, s.reloads[l].pol, y), l, x); PolOk(s', s.reloads[l].pol) && ReloadOk(s', l)
    ensures Inv(c, SetReload(SetPol(s, s.reloads[l].pol, y), l, x))
  {
    var p := s.reloads[l].pol;
    assert ReloadOk(s, l) && PolOk(s, p);
    Frame(c, s, SetReload(SetPol(s, p, y), l, x), NOTHING.(reload := Some(l), pol := Some(p)));
  }

  /** A cached tenant's entry and policy object are its own. */
  lemma CachedIsOwn(s: State, t: int)
    requires CacheOk(s) && Has(s.lru, t)
    ensures CachedEntry(s, t) < |s.entries| && s.entries[CachedEntry(s, t)].tenant == t && PolOf(s, t, CachedPol(s, t))
  {
    assert s.lru[Find(s.lru, t)] in s.lru;
  }

  lemma TouchFrame(s: State, s': State, t: int)
    requires CacheOk(s) && Grows(s, s') && s'.lru == Touch(s.lru, t) && s'.entries == s.entries
    ensures CacheOk(s')
  {
    TouchMembers(s.lru, t);
  }

  lemma InsertGrows(s: State, t: int, p: nat, cap: nat)
    requires CacheOk(s)
    ensures Grows(s, InsertEntry(s, t, p, cap))
  {
    if Has(s.lru, t) { CachedIsOwn(s, t); }
  }

  lemma InsertCache(s: State, t: int, p: nat, cap: nat)
    requires CacheOk(s) && PolOf(s, t, p)
    ensures CacheOk(InsertEntry(s, t, p, cap))
  {
    if Has(s.lru, t) {
      CachedIsOwn(s, t);
      TouchMembers(s.lru, t);
    } else {
      var full := [Slot(t, |s.entries|)] + s.lru;
      assert forall x :: x in Truncate(full, cap) ==> x in full;
    }
  }

  lemma InsertNewGrows(s: State, t: int, v: TenantPolicy, cap: nat)
    requires CacheOk(s)
    ensures Grows(s, InsertNew(s, t, v, cap))
  {
    var s1 := s.(pols := s.pols + [Pol(t, v, {}, None)]);
    assert CacheOk(s1);
    InsertGrows(s1, t, |s.pols|, cap);
  }

  lemma InsertNewCache(s: State, t: int, v: TenantPolicy, cap: nat)
    requires CacheOk(s)
    ensures CacheOk(InsertNew(s, t, v, cap))
  {
    var s1 := s.(pols := s.pols + [Pol(t, v, {}, None)]);
    assert CacheOk(s1);
    InsertCache(s1, t, |s.pols|, cap);
  }

  lemma TouchSafe(c: Config, s: State, t: int)
    requires Inv(c, s)
    ensures Inv(c, TouchCache(s, t))
  {
    TouchFrame(s, TouchCache(s, t), t);
    Frame(c, s, TouchCache(s, t), NOTHING);
  }

  lemma InsertNewSafe(c: Config, s: State, t: int, v: TenantPolicy)
    requires Inv(c, s) && Version(s, t, v)
    ensures Inv(c, InsertNew(s, t, v, c.cap))
  {
    InsertNewGrows(s, t, v, c.cap);
    InsertNewCache(s, t, v, c.cap);
    Frame(c, s, InsertNew(s, t, v, c.cap), NOTHING);
  }

  // ---------- one lemma per step ----------

  lemma PublishSafe(c: Config, s: State, t: int, file: File)
    requires Inv(c, s)
    ensures Inv(c, s.(hist := s.hist[t := History(s, t) + [file]]))
  {
    Frame(c, s, s.(hist := s.hist[t := History(s, t) + [file]]), NOTHING);
  }

  lemma BeginSafe(c: Config, s: State, x: Req)
    requires Inv(c, s) && (x.Start? || x.Refused?)
    ensures Inv(c, s.(reqs := s.reqs + [x]))
  {
    Frame(c, s, s.(reqs := s.reqs + [x]), NOTHING);
  }

  lemma LookupSafe(c: Config, s: State, r: nat)
    requires Inv(c, s) && r < |s.reqs| && s.reqs[r].Start?
    ensures Inv(c, DoLookup(s, r))
  {
    var q := s.reqs[r].q;
    if Has(s.lru, q.tenant) {
      CachedIsOwn(s, q.tenant);
      TouchSafe(c, s, q.tenant);
      SetReqSafe(c, TouchCache(s, q.tenant), r, Got(q, CachedPol(s, q.tenant)));
    } else {
      SetReqSafe(c, s, r, Missed(q));
    }
  }

  lemma EnterFlightSafe(c: Config, s: State, r: nat)
    requires Inv(c, s) && r < |s.reqs| && s.reqs[r].Missed?
    ensures Inv(c, DoEnterFlight(s, r))
  {
    var q := s.reqs[r].q;
    if q.tenant in s.group {
      SetReqSafe(c, s, r, Joined(q, s.group[q.tenant]));
    } else {
      Frame(c, s, DoEnterFlight(s, r), NOTHING.(req := Some(r)));
    }
  }

  lemma LeaderCheckSafe(c: Config, s: State, f: nat)
    requires Inv(c, s) && f < |s.flights|
    ensures Inv(c, DoLeaderCheck(s, f))
  {
    var t := s.flights[f].tenant;
    assert FlightOk(s, f);
    if Has(s.lru, t) {
      CachedIsOwn(s, t);
      TouchSafe(c, s, t);
      SetPhaseSafe(c, TouchCache(s, t), f, Ended(Hit(CachedPol(s, t))));
    } else {
      SetPhaseSafe(c, s, f, Creating);
    }
  }

  /** A call has made a job and waits for it. */
  function WithNewJob(s: State, f: nat, created: multiset<int>): State
    requires f < |s.flights|
  {
    SetPhase(s, f, Waiting(|s.jobs|)).(jobs := s.jobs + [Job(s.flights[f].tenant, f, [], false, 0)], created := created)
  }

  lemma NewJobSafe(c: Config, s: State, f: nat, n: multiset<int>)
    requires Inv(c, s) && f < |s.flights|
    ensures Inv(c, WithNewJob(s, f, n))
  {
    assert FlightOk(s, f);
    Frame(c, s, WithNewJob(s, f, n), NOTHING.(flight := Some(f)));
  }

  lemma QueuesSafe(c: Config, s: State, senders: set<nat>, queue: seq<nat>)
    requires Inv(c, s) && QueuesOk(s.(senders := senders, queue := queue))
    ensures Inv(c, s.(senders := senders, queue := queue))
  {
    Frame(c, s, s.(senders := senders, queue := queue), NOTHING);
  }

  lemma LeaderSendSafe(c: Config, s: State, f: nat)
    requires Inv(c, s) && f < |s.flights|
    ensures Inv(c, DoLeaderSend(s, f, c.cap))
  {
    var t, j := s.flights[f].tenant, |s.jobs|;
    NewJobSafe(c, s, f, s.created + multiset{t});
    var s1 := WithNewJob(s, f, s.created + multiset{t});
    if |s.queue| < c.cap {
      QueuesSafe(c, s1, s.senders, s.queue + [j]);
    } else {
      QueuesSafe(c, s1, s.senders + {j}, s.queue);
    }
  }

  lemma HelperSendSafe(c: Config, s: State, j: nat)
    requires Inv(c, s) && j in s.senders
    ensures Inv(c, s.(senders := s.senders - {j}, queue := s.queue + [j]))
  {
    QueuesSafe(c, s, s.senders - {j}, s.queue + [j]);
  }

  lemma WorkerTakeSafe(c: Config, s: State, w: nat)
    requires Inv(c, s) && w < |s.workers| && s.queue != []
    ensures Inv(c, s.(queue := s.queue[1..], workers := s.workers[w := Taken(s.queue[0])]))
  {
    SetWorkerSafe(c, s, w, Taken(s.queue[0]));
    QueuesSafe(c, s.(workers := s.workers[w := Taken(s.queue[0])]), s.senders, s.queue[1..]);
  }

  lemma WorkerReadSafe(c: Config, s: State, w: nat)
    requires Inv(c, s) && w < |s.workers| && s.workers[w].Taken? && s.workers[w].job < |s.jobs|
    ensures Inv(c, DoWorkerRead(s, w))
  {
    var j := s.workers[w].job;
    SetWorkerSafe(c, s, w, HasRead(j, LoadNow(s, s.jobs[j].tenant)));
  }

  lemma CountSafe(c: Config, s: State, failed: multiset<int>, timedOut: multiset<int>)
    requires Inv(c, s)
    ensures Inv(c, s.(failed := failed, timedOut := timedOut))
  {
    Frame(c, s, s.(failed := failed, timedOut := timedOut), NOTHING);
  }

  /** A job keeps its tenant, and its result channel holds results of that tenant. */
  lemma SetJobSafe(c: Config, s: State, j: nat, x: Job)
    requires Inv(c, s) && j < |s.jobs| && x.tenant == s.jobs[j].tenant
    requires forall y :: y in x.chan ==> ResOf(s, x.tenant, y)
    ensures Inv(c, SetJob(s, j, x))
  {
    var s' := SetJob(s, j, x);
    forall k, i | 0 <= k < |s'.jobs| && 0 <= i < |s'.jobs[k].chan|
      ensures ResOf(s', s'.jobs[k].tenant, s'.jobs[k].chan[i]) {
      if k == j { assert x.chan[i] in x.chan; } else { assert s'.jobs[k] == s.jobs[k]; }
    }
    Frame(c, s, s', NOTHING);
  }

  lemma WorkerInsertSafe(c: Config, s: State, w: nat)
    requires Inv(c, s) && w < |s.workers| && s.workers[w].HasRead? && s.workers[w].job < |s.jobs|
    ensures Inv(c, DoWorkerInsert(s, w, c.cap))
  {
    assert WorkerOk(s, w);
    var j := s.workers[w].job;
    var t, x := s.jobs[j].tenant, s.jobs[j].(loaded := true);
    match s.workers[w].got {
      case Value(v) =>
        var s1 := InsertNew(s, t, v, c.cap);
        InsertNewSafe(c, s, t, v);
        SetJobSafe(c, s1, j, x);
        SetWorkerSafe(c, SetJob(s1, j, x), w, HasInserted(j, Hit(|s.pols|)));
      case Fail =>
        var s1 := s.(failed := s.failed + multiset{t});
        CountSafe(c, s, s.failed + multiset{t}, s.timedOut);
        SetJobSafe(c, s1, j, x);
        SetWorkerSafe(c, SetJob(s1, j, x), w, HasInserted(j, Error));
    }
  }

  lemma WorkerAnswerSafe(c: Config, s: State, w: nat)
    requires Inv(c, s) && w < |s.workers| && s.workers[w].HasInserted? && s.workers[w].job < |s.jobs|
    ensures Inv(c, DoWorkerAnswer(s, w))
  {
    assert WorkerOk(s, w);
    var j := s.workers[w].job;
    var x := s.jobs[j].(chan := s.jobs[j].chan + [s.workers[w].res], answers := s.jobs[j].answers + 1);
    SetJobSafe(c, s, j, x);
    SetWorkerSafe(c, SetJob(s, j, x), w, Idle);
  }

  lemma LeaderReceiveSafe(c: Config, s: State, f: nat)
    requires Inv(c, s) && f < |s.flights| && s.flights[f].phase.Waiting? && s.flights[f].phase.job < |s.jobs|
    requires s.jobs[s.flights[f].phase.job].chan != []
    ensures Inv(c, DoLeaderReceive(s, f))
  {
    assert FlightOk(s, f);
    var j := s.flights[f].phase.job;
    SetPhaseSafe(c, s, f, Ended(s.jobs[j].chan[0]));
    SetJobSafe(c, SetPhase(s, f, Ended(s.jobs[j].chan[0])), j, s.jobs[j].(chan := s.jobs[j].chan[1..]));
  }

  lemma LeaderTimeoutSafe(c: Config, s: State, f: nat)
    requires Inv(c, s) && f < |s.flights|
    ensures Inv(c, DoLeaderTimeout(s, f))
  {
    assert FlightOk(s, f);
    SetPhaseSafe(c, s, f, Ended(Error));
    CountSafe(c, SetPhase(s, f, Ended(Error)), s.failed, s.timedOut + multiset{s.flights[f].tenant});
  }

  lemma LeaveGroupSafe(c: Config, s: State, t: int)
    requires Inv(c, s)
    ensures Inv(c, s.(group := s.group - {t}))
  {
    Frame(c, s, s.(group := s.group - {t}), NOTHING);
  }

  lemma LeaderLeaveSafe(c: Config, s: State, f: nat)
    requires Inv(c, s) && f < |s.flights| && s.flights[f].phase.Ended? && s.flights[f].leader < |s.reqs|
    requires s.reqs[s.flights[f].leader].Leading?
    ensures Inv(c, DoLeaderLeave(s, f))
  {
    var x := s.flights[f];
    assert FlightOk(s, f);
    SetPhaseSafe(c, s, f, Left(x.phase.res));
    var s1 := SetPhase(s, f, Left(x.phase.res));
    SetReqSafe(c, s1, x.leader, Returned(s.reqs[x.leader].q, x.phase.res));
    LeaveGroupSafe(c, SetReq(s1, x.leader, Returned(s.reqs[x.leader].q, x.phase.res)), x.tenant);
  }

  lemma JoinerReturnSafe(c: Config, s: State, r: nat)
    requires Inv(c, s) && r < |s.reqs| && s.reqs[r].Joined? && s.reqs[r].flight < |s.flights|
    requires s.flights[s.reqs[r].flight].phase.Left?
    ensures Inv(c, DoJoinerReturn(s, r))
  {
    assert ReqOk(c, s, r) && FlightOk(s, s.reqs[r].flight);
    SetReqSafe(c, s, r, Returned(s.reqs[r].q, s.flights[s.reqs[r].flight].phase.res));
  }

  lemma ReadLockSafe(c: Config, s: State, r: nat)
    requires Inv(c, s) && r < |s.reqs| && s.reqs[r].Got? && s.reqs[r].pol < |s.pols|
    requires s.pols[s.reqs[r].pol].writer.None?
    ensures Inv(c, DoReadLock(s, r))
  {
    var x := s.reqs[r];
    assert ReqOk(c, s, r);
    SetReadersSafe(c, s, x.pol, s.pols[x.pol].readers + {r}, r, Reading(x.q, x.pol, 0, None, []));
  }

  lemma ReadFieldSafe(c: Config, s: State, r: nat, next: Req)
    requires Inv(c, s) && r < |s.reqs| && s.reqs[r].Reading?
    requires var x, y := s.reqs[r], PolAt(s, s.reqs[r].pol).fields;
      || next == x.(stage := 1, ast := y.ast)
      || (x.stage == 1 && next == x.(stage := 2, order := y.evaluationOrder))
    ensures Inv(c, SetReq(s, r, next))
  {
    assert ReqOk(c, s, r);
    SetReqSafe(c, s, r, next);
  }

  /** The three reads under one lock together read one whole version. */
  lemma ReadDefaultSafe(c: Config, s: State, r: nat)
    requires Inv(c, s) && r < |s.reqs| && s.reqs[r].Reading? && s.reqs[r].stage == 2 && s.reqs[r].pol < |s.pols|
    ensures Inv(c, DoReadDefault(c, s, r))
  {
    var x := s.reqs[r];
    assert ReqOk(c, s, r) && PolOk(s, x.pol);
    var v := s.pols[x.pol].fields;
    assert Version(s, x.q.tenant, v);
    var o := DecideFields(c.rx, x.ast, x.order, v.defaultAction, x.q.domain, x.q.verb);
    assert o == Decide(c.rx, v, x.q.domain, x.q.verb);
    var readers := s.pols[x.pol].readers - {r};
    assert Version(SetReq(SetPol(s, x.pol, s.pols[x.pol].(readers := readers)), r, Answered(x.q, o)), x.q.tenant, v);
    SetReadersSafe(c, s, x.pol, readers, r, Answered(x.q, o));
  }

  lemma ReloadBeginSafe(c: Config, s: State, t: int)
    requires Inv(c, s)
    ensures Inv(c, s.(reloads := s.reloads + [RStart(t)]))
  {
    Frame(c, s, s.(reloads := s.reloads + [RStart(t)]), NOTHING);
  }

  lemma ReloadReadSafe(c: Config, s: State, l: nat)
    requires Inv(c, s) && l < |s.reloads| && s.reloads[l].RStart?
    ensures Inv(c, DoReloadRead(s, l))
  {
    var t := s.reloads[l].tenant;
    match LoadNow(s, t) {
      case Value(v) => SetReloadSafe(c, s, l, RRead(t, v));
      case Fail => SetReloadSafe(c, s, l, RDone(t, false));
    }
  }

  lemma ReloadLookupSafe(c: Config, s: State, l: nat)
    requires Inv(c, s) && l < |s.reloads| && s.reloads[l].RRead?
    ensures Inv(c, DoReloadLookup(s, l))
  {
    var x := s.reloads[l];
    assert ReloadOk(s, l);
    if Has(s.lru, x.tenant) {
      CachedIsOwn(s, x.tenant);
      SetReloadSafe(c, s, l, RFound(x.tenant, x.next, CachedEntry(s, x.tenant)));
    } else {
      SetReloadSafe(c, s, l, RAbsent(x.tenant, x.next));
    }
  }

  lemma ReloadInsertSafe(c: Config, s: State, l: nat)
    requires Inv(c, s) && l < |s.reloads| && s.reloads[l].RAbsent?
    ensures Inv(c, DoReloadInsert(s, l, c.cap))
  {
    var x := s.reloads[l];
    assert ReloadOk(s, l);
    InsertNewSafe(c, s, x.tenant, x.next);
    SetReloadSafe(c, InsertNew(s, x.tenant, x.next, c.cap), l, RDone(x.tenant, true));
  }

  lemma ReloadAimSafe(c: Config, s: State, l: nat)
    requires Inv(c, s) && l < |s.reloads| && s.reloads[l].RFound?
    ensures Inv(c, DoReloadAim(s, l))
  {
    var x := s.reloads[l];
    assert ReloadOk(s, l);
    SetReloadSafe(c, s, l, RAimed(x.tenant, x.next, EntryAt(s, x.entry).pol));
  }

  lemma ReloadLockSafe(c: Config, s: State, l: nat)
    requires Inv(c, s) && l < |s.reloads| && s.reloads[l].RAimed? && Lockable(s, s.reloads[l].pol)
    ensures Inv(c, DoReloadLock(s, l))
  {
    assert ReloadOk(s, l) && PolOk(s, s.reloads[l].pol);
    var x := s.reloads[l];
    SwapSafe(c, s, l, RWriting(x.tenant, x.next, x.pol, 0), s.pols[x.pol].(writer := Some(l)));
  }

  lemma ReloadWriteSafe(c: Config, s: State, l: nat)
    requires Inv(c, s) && l < |s.reloads| && s.reloads[l].RWriting? && s.reloads[l].stage < 4
    requires s.reloads[l].pol < |s.pols|
    ensures Inv(c, DoReloadWrite(s, l))
  {
    assert ReloadOk(s, l) && PolOk(s, s.reloads[l].pol);
    var x := s.reloads[l];
    SwapSafe(c, s, l, x.(stage := x.stage + 1),
      s.pols[x.pol].(fields := WriteField(s.pols[x.pol].fields, x.next, x.stage)));
  }

  /** When the lock is released all four fields have been copied. */
  lemma ReloadUnlockSafe(c: Config, s: State, l: nat)
    requires Inv(c, s) && l < |s.reloads| && s.reloads[l].RWriting? && s.reloads[l].stage == 4
    requires s.reloads[l].pol < |s.pols|
    ensures Inv(c, DoReloadUnlock(s, l))
  {
    assert ReloadOk(s, l) && PolOk(s, s.reloads[l].pol);
    var x := s.reloads[l];
    SwapSafe(c, s, l, RDone(x.tenant, true), s.pols[x.pol].(writer := None));
  }

  // ---------- whole runs ----------

  lemma StepSafe(c: Config, s: State, step: Step)
    requires Inv(c, s) && Enabled(c, s, step)
    ensures Inv(c, Next(c, s, step))
  {
    match step
    case Publish(t, file) => PublishSafe(c, s, t, file);
    case Begin(q) => BeginSafe(c, s, if q.tenant <= 0 then Refused(q) else Start(q));
    case Lookup(r) => LookupSafe(c, s, r);
    case EnterFlight(r) => EnterFlightSafe(c, s, r);
    case LeaderCheck(f) => LeaderCheckSafe(c, s, f);
    case LeaderSend(f) => LeaderSendSafe(c, s, f);
    case HelperSend(j) => HelperSendSafe(c, s, j);
    case WorkerTake(w) => WorkerTakeSafe(c, s, w);
    case WorkerRead(w) => WorkerReadSafe(c, s, w);
    case WorkerInsert(w) => WorkerInsertSafe(c, s, w);
    case WorkerAnswer(w) => WorkerAnswerSafe(c, s, w);
    case LeaderReceive(f) => LeaderReceiveSafe(c, s, f);
    case LeaderTimeout(f) => LeaderTimeoutSafe(c, s, f);
    case LeaderLeave(f) => LeaderLeaveSafe(c, s, f);
    case JoinerReturn(r) => JoinerReturnSafe(c, s, r);
    case ReadLock(r) => ReadLockSafe(c, s, r);
    case ReadAst(r) => ReadFieldSafe(c, s, r, s.reqs[r].(stage := 1, ast := PolAt(s, s.reqs[r].pol).fields.ast));
    case ReadOrder(r) =>
      ReadFieldSafe(c, s, r, s.reqs[r].(stage := 2, order := PolAt(s, s.reqs[r].pol).fields.evaluationOrder));
    case ReadDefault(r) => ReadDefaultSafe(c, s, r);
    case ReloadBegin(t) => ReloadBeginSafe(c, s, t);
    case ReloadRead(l) => ReloadReadSafe(c, s, l);
    case ReloadLookup(l) => ReloadLookupSafe(c, s, l);
    case ReloadInsert(l) => ReloadInsertSafe(c, s, l);
    case ReloadAim(l) => ReloadAimSafe(c, s, l);
    case ReloadLock(l) => ReloadLockSafe(c, s, l);
    case ReloadWrite(l) => ReloadWriteSafe(c, s, l);
    case ReloadUnlock(l) => ReloadUnlockSafe(c, s, l);
  }

  lemma {:induction false} RunSafe(c: Config, s: State, steps: seq<Step>, s': State)
    requires Inv(c, s) && Runs(c, s, steps, s')
    ensures Inv(c, s')
    decreases steps
  {
    if steps != [] {
      StepSafe(c, s, steps[0]);
      RunSafe(c, Next(c, s, steps[0]), steps[1..], s');
    }
  }

  /**
   * In every run, every answer is the answer one whole version of the tenant's own policy file gives:
   * never a mix of two versions, never another tenant's rules.
   */
  lemma AnswersComeFromOneVersion(c: Config, steps: seq<Step>, s: State, r: nat)
    requires Runs(c, Init(c), steps, s)
    requires r < |s.reqs| && s.reqs[r].Answered?
    ensures var q := s.reqs[r].q;
      exists v :: Version(s, q.tenant, v) && s.reqs[r].outcome == Decide(c.rx, v, q.domain, q.verb)
  {
    RunSafe(c, Init(c), steps, s);
    assert ReqOk(c, s, r);
  }

  /** In every run, while a swap writes an object no request is reading it and no other swap is writing it. */
  lemma WriterIsAlone(c: Config, steps: seq<Step>, s: State, l: nat)
    requires Runs(c, Init(c), steps, s) && l < |s.reloads| && s.reloads[l].RWriting?
    ensures forall r :: 0 <= r < |s.reqs| && s.reqs[r].Reading? ==> s.reqs[r].pol != s.reloads[l].pol
    ensures forall k :: 0 <= k < |s.reloads| && s.reloads[k].RWriting? && s.reloads[k].pol == s.reloads[l].pol ==>
      k == l
  {
    RunSafe(c, Init(c), steps, s);
    assert ReloadOk(s, l) && PolOk(s, s.reloads[l].pol);
    forall r | 0 <= r < |s.reqs| && s.reqs[r].Reading? ensures s.reqs[r].pol != s.reloads[l].pol {
      assert ReqOk(c, s, r);
    }
    forall k | 0 <= k < |s.reloads| && s.reloads[k].RWriting? && s.reloads[k].pol == s.reloads[l].pol ensures k == l {
      assert ReloadOk(s, k);
    }
  }
}
