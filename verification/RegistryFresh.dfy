/**
 * Does the cache agree with the disk? Once nothing of a tenant that read another version is left in the cache or in
 * flight, every request that starts later is answered from the file as it is.
 */
module RegistryFresh {
  import opened Text
  import opened Policy
  import opened TenantDecide
  import opened LruSpec
  import opened Registry
  import opened RegistrySafety
  import opened RegistryJobs
  import opened RegistryCalls
  import RegistryBound
  import RegistryCache

  /** Two policies answer every request alike. */
  ghost predicate Alike(c: Config, u: TenantPolicy, v: TenantPolicy) {
    forall domain, verb :: Decide(c.rx, u, domain, verb) == Decide(c.rx, v, domain, verb)
  }

  /** The object answers like v, or will when the reload that is writing it has finished. */
  ghost predicate PolFresh(c: Config, s: State, t: int, v: TenantPolicy, p: nat) {
    && PolOf(s, t, p)
    && (match s.pols[p].writer
        case None => Alike(c, s.pols[p].fields, v)
        case Some(l) => l < |s.reloads| && s.reloads[l].RWriting? && Alike(c, s.reloads[l].next, v))
  }

  ghost predicate ResFresh(c: Config, s: State, t: int, v: TenantPolicy, r: Res) {
    r.Hit? ==> PolFresh(c, s, t, v, r.pol)
  }

  ghost predicate CacheFresh(c: Config, s: State, t: int, v: TenantPolicy) {
    forall x :: x in s.lru && x.tenant == t ==> PolFresh(c, s, t, v, EntryAt(s, x.val).pol)
  }

  ghost predicate ReloadFresh(c: Config, s: State, t: int, v: TenantPolicy, l: nat)
    requires l < |s.reloads|
  {
    s.reloads[l].tenant == t && !s.reloads[l].RStart? && !s.reloads[l].RDone? ==> Alike(c, s.reloads[l].next, v)
  }

  ghost predicate WorkerFresh(c: Config, s: State, t: int, v: TenantPolicy, w: nat)
    requires w < |s.workers|
  {
    match s.workers[w]
    case HasRead(j, got) => j < |s.jobs| && s.jobs[j].tenant == t && got.Value? ==> Alike(c, got.policy, v)
    case HasInserted(j, r) => j < |s.jobs| && s.jobs[j].tenant == t ==> ResFresh(c, s, t, v, r)
    case _ => true
  }

  ghost predicate FlightFresh(c: Config, s: State, t: int, v: TenantPolicy, f: nat)
    requires f < |s.flights|
  {
    match s.flights[f].phase
    case Waiting(j) => j < |s.jobs| ==> forall x :: x in s.jobs[j].chan ==> ResFresh(c, s, t, v, x)
    case Ended(r) => ResFresh(c, s, t, v, r)
    case Left(r) => ResFresh(c, s, t, v, r)
    case _ => true
  }

  ghost predicate ReqFresh(c: Config, s: State, t: int, v: TenantPolicy, r: nat)
    requires r < |s.reqs|
  {
    s.reqs[r].q.tenant == t ==>
      match s.reqs[r]
      case Got(_, p) => PolFresh(c, s, t, v, p)
      case Reading(_, p, _, _, _) => PolFresh(c, s, t, v, p)
      case Leading(_, f) => f < |s.flights| && FlightFresh(c, s, t, v, f)
      case Joined(_, f) => f < |s.flights| && FlightFresh(c, s, t, v, f)
      case Answered(q, o) => o == Decide(c.rx, v, q.domain, q.verb)
      case _ => true
  }

  /** Every load and reload of the tenant that is in flight has read a version that answers like v. */
  ghost predicate InFlightFresh(c: Config, s: State, t: int, v: TenantPolicy) {
    && (forall l :: 0 <= l < |s.reloads| ==> ReloadFresh(c, s, t, v, l))
    && (forall w :: 0 <= w < |s.workers| ==> WorkerFresh(c, s, t, v, w))
    && (forall f :: 0 <= f < |s.flights| && s.flights[f].tenant == t && !s.flights[f].phase.Left? ==>
         FlightFresh(c, s, t, v, f))
  }

  /** The file holds v, and the cache, what is in flight and the requests from number n on agree with it. */
  ghost predicate Fresh(c: Config, s: State, t: int, v: TenantPolicy, n: nat) {
    && Current(s, t) == Holds(v) && CacheFresh(c, s, t, v) && InFlightFresh(c, s, t, v)
    && (forall r :: n <= r < |s.reqs| ==> ReqFresh(c, s, t, v, r))
  }

  // ---------- what a step leaves alone ----------

  /** Objects that agree with the file go on agreeing. */
  ghost predicate Keeps(c: Config, s: State, s': State, t: int, v: TenantPolicy) {
    forall p: nat :: PolFresh(c, s, t, v, p) ==> PolFresh(c, s', t, v, p)
  }

  /** What is new or changed agrees with the file. */
  ghost predicate Updated(c: Config, s: State, s': State, t: int, v: TenantPolicy, n: nat, d: Dirty)
    requires Grows(s, s')
  {
    && (forall l :: 0 <= l < |s'.reloads| && (l >= |s.reloads| || d.reload == Some(l)) ==> ReloadFresh(c, s', t, v, l))
    && (forall w :: 0 <= w < |s'.workers| && d.worker == Some(w) ==> WorkerFresh(c, s', t, v, w))
    && (forall r :: n <= r < |s'.reqs| && (r >= |s.reqs| || d.req == Some(r)) ==> ReqFresh(c, s', t, v, r))
    && (forall f :: |s.flights| <= f < |s'.flights| && s'.flights[f].tenant == t ==> FlightFresh(c, s', t, v, f))
    && (forall f :: 0 <= f < |s.flights| && d.flight == Some(f) && s.flights[f].tenant == t ==>
         FlightKept(c, s, s', t, v, f))
    && (forall j :: 0 <= j < |s.jobs| && s.jobs[j].tenant == t ==> ChanKept(c, s, s', t, v, j))
  }

  ghost predicate FlightKept(c: Config, s: State, s': State, t: int, v: TenantPolicy, f: nat)
    requires f < |s.flights| && f < |s'.flights|
  {
    && (s.flights[f].phase.Left? ==> s'.flights[f].phase.Left?)
    && (FlightFresh(c, s, t, v, f) ==> FlightFresh(c, s', t, v, f))
  }

  ghost predicate ChanKept(c: Config, s: State, s': State, t: int, v: TenantPolicy, j: nat)
    requires j < |s.jobs| && j < |s'.jobs|
  {
    forall x :: x in s'.jobs[j].chan ==> x in s.jobs[j].chan || ResFresh(c, s', t, v, x)
  }

  lemma KeptFlight(c: Config, s: State, s': State, t: int, v: TenantPolicy, n: nat, d: Dirty, f: nat)
    requires Inv(c, s) && Grows(s, s') && Only(s, s', d) && Keeps(c, s, s', t, v) && Updated(c, s, s', t, v, n, d)
    requires f < |s.flights| && s.flights[f].tenant == t
    ensures FlightKept(c, s, s', t, v, f)
  {
    assert FlightOk(s, f);
    if d.flight != Some(f) {
      assert s'.flights[f] == s.flights[f];
      if s.flights[f].phase.Waiting? { assert ChanKept(c, s, s', t, v, s.flights[f].phase.job); }
    }
  }

  lemma KeptReq(c: Config, s: State, s': State, t: int, v: TenantPolicy, n: nat, d: Dirty, r: nat)
    requires Inv(c, s) && Grows(s, s') && Only(s, s', d) && Keeps(c, s, s', t, v) && Updated(c, s, s', t, v, n, d)
    requires r < |s.reqs| && ReqFresh(c, s, t, v, r) && d.req != Some(r)
    ensures ReqFresh(c, s', t, v, r)
  {
    assert ReqOk(c, s, r) && s'.reqs[r] == s.reqs[r];
    if s.reqs[r].q.tenant == t && (s.reqs[r].Leading? || s.reqs[r].Joined?) {
      KeptFlight(c, s, s', t, v, n, d, s.reqs[r].flight);
    }
  }

  lemma KeptWorker(c: Config, s: State, s': State, t: int, v: TenantPolicy, n: nat, d: Dirty, w: nat)
    requires Inv(c, s) && Grows(s, s') && Only(s, s', d) && Keeps(c, s, s', t, v)
    requires w < |s.workers| && WorkerFresh(c, s, t, v, w) && d.worker != Some(w)
    ensures WorkerFresh(c, s', t, v, w)
  {
    assert WorkerOk(s, w) && s'.workers[w] == s.workers[w];
  }

  lemma KeptInFlight(c: Config, s: State, s': State, t: int, v: TenantPolicy, n: nat, d: Dirty)
    requires Inv(c, s) && Grows(s, s') && Only(s, s', d) && Keeps(c, s, s', t, v) && Updated(c, s, s', t, v, n, d)
    requires InFlightFresh(c, s, t, v)
    ensures InFlightFresh(c, s', t, v)
  {
    forall l | 0 <= l < |s'.reloads| ensures ReloadFresh(c, s', t, v, l) {
      if l < |s.reloads| && d.reload != Some(l) { assert ReloadFresh(c, s, t, v, l) && s'.reloads[l] == s.reloads[l]; }
    }
    forall w | 0 <= w < |s'.workers| ensures WorkerFresh(c, s', t, v, w) {
      if d.worker != Some(w) { KeptWorker(c, s, s', t, v, n, d, w); }
    }
    forall f | 0 <= f < |s'.flights| && s'.flights[f].tenant == t && !s'.flights[f].phase.Left?
      ensures FlightFresh(c, s', t, v, f) {
      if f < |s.flights| { KeptFlight(c, s, s', t, v, n, d, f); }
    }
  }

  lemma FreshFrame(c: Config, s: State, s': State, t: int, v: TenantPolicy, n: nat, d: Dirty)
    requires Inv(c, s) && Fresh(c, s, t, v, n) && Grows(s, s') && Only(s, s', d) && Keeps(c, s, s', t, v)
    requires Updated(c, s, s', t, v, n, d)
    requires History(s', t) == History(s, t) && (SameCache(s, s') || CacheFresh(c, s', t, v))
    ensures Fresh(c, s', t, v, n)
  {
    KeptInFlight(c, s, s', t, v, n, d);
    forall r | n <= r < |s'.reqs| ensures ReqFresh(c, s', t, v, r) {
      if r < |s.reqs| && d.req != Some(r) { KeptReq(c, s, s', t, v, n, d, r); }
    }
  }

  /** Objects agree as before when no object changes and no writing reload does. */
  lemma KeepsFrame(c: Config, s: State, s': State, t: int, v: TenantPolicy, d: Dirty)
    requires Grows(s, s') && Only(s, s', d) && d.pol.None?
    requires d.reload.Some? && d.reload.value < |s.reloads| ==> !s.reloads[d.reload.value].RWriting?
    ensures Keeps(c, s, s', t, v)
  {
    forall p: nat | PolFresh(c, s, t, v, p) ensures PolFresh(c, s', t, v, p) {
      assert s'.pols[p] == s.pols[p];
    }
  }

  // ---------- changes that steps are made of ----------

  lemma QuietFresh(c: Config, s: State, s': State, t: int, v: TenantPolicy, n: nat)
    requires Inv(c, s) && Fresh(c, s, t, v, n)
    requires s' == s.(group := s'.group, senders := s'.senders, queue := s'.queue, created := s'.created,
                      failed := s'.failed, timedOut := s'.timedOut)
    ensures Fresh(c, s', t, v, n)
  {
    KeepsFrame(c, s, s', t, v, NOTHING);
    FreshFrame(c, s, s', t, v, n, NOTHING);
  }

  lemma SetReqFresh(c: Config, s: State, r: nat, x: Req, t: int, v: TenantPolicy, n: nat)
    requires Inv(c, s) && Fresh(c, s, t, v, n) && r < |s.reqs| && x.q == s.reqs[r].q
    requires r >= n ==> ReqFresh(c, SetReq(s, r, x), t, v, r)
    ensures Fresh(c, SetReq(s, r, x), t, v, n)
  {
    var d := NOTHING.(req := Some(r));
    KeepsFrame(c, s, SetReq(s, r, x), t, v, d);
    FreshFrame(c, s, SetReq(s, r, x), t, v, n, d);
  }

  lemma NewReqFresh(c: Config, s: State, x: Req, t: int, v: TenantPolicy, n: nat)
    requires Inv(c, s) && Fresh(c, s, t, v, n) && (x.Start? || x.Refused?)
    ensures Fresh(c, s.(reqs := s.reqs + [x]), t, v, n)
  {
    var s' := s.(reqs := s.reqs + [x]);
    KeepsFrame(c, s, s', t, v, NOTHING);
    FreshFrame(c, s, s', t, v, n, NOTHING);
  }

  lemma SetPhaseFresh(c: Config, s: State, f: nat, p: Phase, t: int, v: TenantPolicy, n: nat)
    requires Inv(c, s) && Fresh(c, s, t, v, n) && f < |s.flights|
    requires s.flights[f].tenant == t ==> FlightKept(c, s, SetPhase(s, f, p), t, v, f)
    ensures Fresh(c, SetPhase(s, f, p), t, v, n)
  {
    var d := NOTHING.(flight := Some(f));
    KeepsFrame(c, s, SetPhase(s, f, p), t, v, d);
    FreshFrame(c, s, SetPhase(s, f, p), t, v, n, d);
  }

  lemma SetReloadFresh(c: Config, s: State, l: nat, x: Reload, t: int, v: TenantPolicy, n: nat)
    requires Inv(c, s) && Fresh(c, s, t, v, n) && l < |s.reloads| && !s.reloads[l].RWriting?
    requires ReloadFresh(c, SetReload(s, l, x), t, v, l)
    ensures Fresh(c, SetReload(s, l, x), t, v, n)
  {
    var d := NOTHING.(reload := Some(l));
    KeepsFrame(c, s, SetReload(s, l, x), t, v, d);
    FreshFrame(c, s, SetReload(s, l, x), t, v, n, d);
  }

  lemma NewReloadFresh(c: Config, s: State, own: int, t: int, v: TenantPolicy, n: nat)
    requires Inv(c, s) && Fresh(c, s, t, v, n)
    ensures Fresh(c, s.(reloads := s.reloads + [RStart(own)]), t, v, n)
  {
    var s' := s.(reloads := s.reloads + [RStart(own)]);
    KeepsFrame(c, s, s', t, v, NOTHING);
    FreshFrame(c, s, s', t, v, n, NOTHING);
  }

  lemma SetWorkerFresh(c: Config, s: State, w: nat, x: Worker, t: int, v: TenantPolicy, n: nat)
    requires Inv(c, s) && Fresh(c, s, t, v, n) && w < |s.workers|
    requires WorkerFresh(c, s.(workers := s.workers[w := x]), t, v, w)
    ensures Fresh(c, s.(workers := s.workers[w := x]), t, v, n)
  {
    var s' := s.(workers := s.workers[w := x]);
    var d := NOTHING.(worker := Some(w));
    KeepsFrame(c, s, s', t, v, d);
    FreshFrame(c, s, s', t, v, n, d);
  }

  lemma SetJobFresh(c: Config, s: State, j: nat, x: Job, t: int, v: TenantPolicy, n: nat)
    requires Inv(c, s) && Fresh(c, s, t, v, n) && j < |s.jobs| && x.tenant == s.jobs[j].tenant
    requires x.tenant == t ==> forall y :: y in x.chan ==> y in s.jobs[j].chan || ResFresh(c, s, t, v, y)
    ensures Fresh(c, SetJob(s, j, x), t, v, n)
  {
    var s' := SetJob(s, j, x);
    KeepsFrame(c, s, s', t, v, NOTHING);
    FreshFrame(c, s, s', t, v, n, NOTHING);
  }

  lemma ReadersKeep(c: Config, s: State, r: nat, x: Req, p: nat, readers: set<nat>, t: int, v: TenantPolicy)
    requires r < |s.reqs| && p < |s.pols|
    ensures Keeps(c, s, SetReq(SetPol(s, p, s.pols[p].(readers := readers)), r, x), t, v)
  {
    var s' := SetReq(SetPol(s, p, s.pols[p].(readers := readers)), r, x);
    forall i: nat | PolFresh(c, s, t, v, i) ensures PolFresh(c, s', t, v, i) {
      assert i != p ==> s'.pols[i] == s.pols[i];
    }
  }

  /** A request takes or releases the read lock of an object. */
  lemma SetReadersFresh(c: Config, s: State, r: nat, x: Req, p: nat, readers: set<nat>, t: int, v: TenantPolicy, n: nat)
    requires Inv(c, s) && Fresh(c, s, t, v, n) && r < |s.reqs| && x.q == s.reqs[r].q && p < |s.pols|
    requires x.Reading? || x.Answered?
    requires x.Reading? && r >= n && x.q.tenant == t ==> PolFresh(c, s, t, v, x.pol)
    requires x.Answered? && r >= n && x.q.tenant == t ==> x.outcome == Decide(c.rx, v, x.q.domain, x.q.verb)
    ensures Fresh(c, SetReq(SetPol(s, p, s.pols[p].(readers := readers)), r, x), t, v, n)
  {
    var s' := SetReq(SetPol(s, p, s.pols[p].(readers := readers)), r, x);
    ReadersKeep(c, s, r, x, p, readers, t, v);
    FreshFrame(c, s, s', t, v, n, NOTHING.(req := Some(r), pol := Some(p)));
  }

  /** A reload of another tenant, or one that read a version like v, works on an object. */
  lemma SwapKeeps(c: Config, s: State, l: nat, x: Reload, y: Pol, t: int, v: TenantPolicy)
    requires Inv(c, s) && l < |s.reloads| && (s.reloads[l].RAimed? || s.reloads[l].RWriting?)
    requires s.reloads[l].pol < |s.pols|
    requires y.tenant == s.pols[s.reloads[l].pol].tenant
    requires y.tenant == t ==> PolFresh(c, SetReload(SetPol(s, s.reloads[l].pol, y), l, x), t, v, s.reloads[l].pol)
    ensures Keeps(c, s, SetReload(SetPol(s, s.reloads[l].pol, y), l, x), t, v)
  {
    var p := s.reloads[l].pol;
    var s' := SetReload(SetPol(s, p, y), l, x);
    assert ReloadOk(s, l);
    forall i: nat | PolFresh(c, s, t, v, i) ensures PolFresh(c, s', t, v, i) {
      if i != p { assert s'.pols[i] == s.pols[i] && PolOk(s, i); }
    }
  }

  lemma SwapFresh(c: Config, s: State, l: nat, x: Reload, y: Pol, t: int, v: TenantPolicy, n: nat)
    requires Inv(c, s) && Fresh(c, s, t, v, n) && l < |s.reloads| && (s.reloads[l].RAimed? || s.reloads[l].RWriting?)
    requires s.reloads[l].pol < |s.pols|
    requires y.tenant == s.pols[s.reloads[l].pol].tenant
    requires var s' := SetReload(SetPol(s, s.reloads[l].pol, y), l, x);
      ReloadFresh(c, s', t, v, l) && (y.tenant == t ==> PolFresh(c, s', t, v, s.reloads[l].pol))
    ensures Fresh(c, SetReload(SetPol(s, s.reloads[l].pol, y), l, x), t, v, n)
  {
    SwapKeeps(c, s, l, x, y, t, v);
    var d := NOTHING.(reload := Some(l), pol := Some(s.reloads[l].pol));
    FreshFrame(c, s, SetReload(SetPol(s, s.reloads[l].pol, y), l, x), t, v, n, d);
  }

  lemma TouchFresh(c: Config, s: State, own: int, t: int, v: TenantPolicy, n: nat)
    requires Inv(c, s) && Fresh(c, s, t, v, n)
    ensures Fresh(c, TouchCache(s, own), t, v, n)
  {
    var s' := TouchCache(s, own);
    TouchMembers(s.lru, own);
    KeepsFrame(c, s, s', t, v, NOTHING);
    FreshFrame(c, s, s', t, v, n, NOTHING);
  }

  /** What the cache holds for t after an insert: what it held, or the new object. */
  lemma InsertedSlots(s: State, own: int, p: nat, cap: nat, x: Slot<nat>)
    requires CacheOk(s) && x in InsertEntry(s, own, p, cap).lru
    ensures var s' := InsertEntry(s, own, p, cap);
      || (x in s.lru && EntryAt(s', x.val).pol == EntryAt(s, x.val).pol)
      || (x.tenant == own && EntryAt(s', x.val).pol == p)
  {
    var s' := InsertEntry(s, own, p, cap);
    if Has(s.lru, own) {
      CachedIsOwn(s, own);
      TouchMembers(s.lru, own);
    } else {
      var full := [Slot(own, |s.entries|)] + s.lru;
      assert x in full;
      if x != full[0] { assert x in s.lru; }
    }
  }

  lemma InsertNewFresh(c: Config, s: State, own: int, u: TenantPolicy, t: int, v: TenantPolicy, n: nat)
    requires Inv(c, s) && Fresh(c, s, t, v, n) && (own == t ==> Alike(c, u, v))
    ensures Fresh(c, InsertNew(s, own, u, c.cap), t, v, n)
    ensures own == t ==> PolFresh(c, InsertNew(s, own, u, c.cap), t, v, |s.pols|)
  {
    var s' := InsertNew(s, own, u, c.cap);
    InsertNewGrows(s, own, u, c.cap);
    KeepsFrame(c, s, s', t, v, NOTHING);
    InsertNewCacheFresh(c, s, own, u, t, v);
    FreshFrame(c, s, s', t, v, n, NOTHING);
  }

  lemma InsertNewCacheFresh(c: Config, s: State, own: int, u: TenantPolicy, t: int, v: TenantPolicy)
    requires CacheOk(s) && CacheFresh(c, s, t, v) && (own == t ==> Alike(c, u, v))
    requires Keeps(c, s, InsertNew(s, own, u, c.cap), t, v)
    ensures CacheFresh(c, InsertNew(s, own, u, c.cap), t, v)
  {
    var s1 := s.(pols := s.pols + [Pol(own, u, {}, None)]);
    var s' := InsertNew(s, own, u, c.cap);
    assert CacheOk(s1);
    forall x | x in s'.lru && x.tenant == t ensures PolFresh(c, s', t, v, EntryAt(s', x.val).pol) {
      InsertedSlots(s1, own, |s.pols|, c.cap, x);
    }
  }

  // ---------- one lemma per step ----------

  lemma PublishFresh(c: Config, s: State, own: int, file: File, t: int, v: TenantPolicy, n: nat)
    requires Inv(c, s) && Fresh(c, s, t, v, n) && own != t
    ensures Fresh(c, s.(hist := s.hist[own := History(s, own) + [file]]), t, v, n)
  {
    var s' := s.(hist := s.hist[own := History(s, own) + [file]]);
    KeepsFrame(c, s, s', t, v, NOTHING);
    FreshFrame(c, s, s', t, v, n, NOTHING);
  }

  lemma CachedFresh(c: Config, s: State, t: int, v: TenantPolicy)
    requires CacheFresh(c, s, t, v) && Has(s.lru, t)
    ensures PolFresh(c, s, t, v, CachedPol(s, t))
  {
    assert s.lru[Find(s.lru, t)] in s.lru;
  }

  lemma LookupFresh(c: Config, s: State, r: nat, t: int, v: TenantPolicy, n: nat)
    requires Inv(c, s) && Fresh(c, s, t, v, n) && r < |s.reqs| && s.reqs[r].Start?
    ensures Fresh(c, DoLookup(s, r), t, v, n)
  {
    var q := s.reqs[r].q;
    if Has(s.lru, q.tenant) {
      TouchFresh(c, s, q.tenant, t, v, n);
      TouchSafe(c, s, q.tenant);
      if q.tenant == t { CachedFresh(c, s, t, v); }
      SetReqFresh(c, TouchCache(s, q.tenant), r, Got(q, CachedPol(s, q.tenant)), t, v, n);
    } else {
      SetReqFresh(c, s, r, Missed(q), t, v, n);
    }
  }

  lemma NewFlightFresh(c: Config, s: State, r: nat, t: int, v: TenantPolicy, n: nat)
    requires Inv(c, s) && Fresh(c, s, t, v, n) && r < |s.reqs| && s.reqs[r].Missed? && s.reqs[r].q.tenant !in s.group
    ensures Fresh(c, DoEnterFlight(s, r), t, v, n)
  {
    var d, s' := NOTHING.(req := Some(r)), DoEnterFlight(s, r);
    KeepsFrame(c, s, s', t, v, d);
    FreshFrame(c, s, s', t, v, n, d);
  }

  /** The call a tenant has in progress is not over (RegistryCalls), so what a joiner will get agrees with the file. */
  lemma EnterFlightFresh(c: Config, s: State, r: nat, t: int, v: TenantPolicy, n: nat)
    requires Inv(c, s) && Fresh(c, s, t, v, n) && r < |s.reqs| && s.reqs[r].Missed?
    requires t in s.group && s.group[t] < |s.flights| ==> !s.flights[s.group[t]].phase.Left?
    ensures Fresh(c, DoEnterFlight(s, r), t, v, n)
  {
    var q := s.reqs[r].q;
    if q.tenant in s.group {
      SetReqFresh(c, s, r, Joined(q, s.group[q.tenant]), t, v, n);
    } else {
      NewFlightFresh(c, s, r, t, v, n);
    }
  }

  lemma LeaderCheckFresh(c: Config, s: State, f: nat, t: int, v: TenantPolicy, n: nat)
    requires Inv(c, s) && Fresh(c, s, t, v, n) && f < |s.flights| && s.flights[f].phase.Entered?
    ensures Fresh(c, DoLeaderCheck(s, f), t, v, n)
  {
    var own := s.flights[f].tenant;
    if Has(s.lru, own) {
      TouchFresh(c, s, own, t, v, n);
      TouchSafe(c, s, own);
      if own == t { CachedFresh(c, s, t, v); }
      SetPhaseFresh(c, TouchCache(s, own), f, Ended(Hit(CachedPol(s, own))), t, v, n);
    } else {
      SetPhaseFresh(c, s, f, Creating, t, v, n);
    }
  }

  lemma NewJobFresh(c: Config, s: State, f: nat, t: int, v: TenantPolicy, n: nat, created: multiset<int>)
    requires Inv(c, s) && Fresh(c, s, t, v, n) && f < |s.flights| && s.flights[f].phase.Creating?
    ensures Fresh(c, WithNewJob(s, f, created), t, v, n)
  {
    var d := NOTHING.(flight := Some(f));
    var s' := WithNewJob(s, f, created);
    KeepsFrame(c, s, s', t, v, d);
    FreshFrame(c, s, s', t, v, n, d);
  }

  lemma LeaderSendFresh(c: Config, s: State, f: nat, t: int, v: TenantPolicy, n: nat)
    requires Inv(c, s) && Fresh(c, s, t, v, n) && f < |s.flights| && s.flights[f].phase.Creating?
    ensures Fresh(c, DoLeaderSend(s, f, c.cap), t, v, n)
  {
    var own := s.flights[f].tenant;
    var created := s.created + multiset{own};
    NewJobSafe(c, s, f, created);
    NewJobFresh(c, s, f, t, v, n, created);
    QuietFresh(c, WithNewJob(s, f, created), DoLeaderSend(s, f, c.cap), t, v, n);
  }

  lemma WorkerTakeFresh(c: Config, s: State, w: nat, t: int, v: TenantPolicy, n: nat)
    requires Inv(c, s) && Fresh(c, s, t, v, n) && w < |s.workers| && s.queue != []
    ensures Fresh(c, s.(queue := s.queue[1..], workers := s.workers[w := Taken(s.queue[0])]), t, v, n)
  {
    SetWorkerSafe(c, s, w, Taken(s.queue[0]));
    SetWorkerFresh(c, s, w, Taken(s.queue[0]), t, v, n);
    var s1 := s.(workers := s.workers[w := Taken(s.queue[0])]);
    QuietFresh(c, s1, s1.(queue := s.queue[1..]), t, v, n);
  }

  lemma WorkerReadFresh(c: Config, s: State, w: nat, t: int, v: TenantPolicy, n: nat)
    requires Inv(c, s) && Fresh(c, s, t, v, n) && w < |s.workers| && s.workers[w].Taken? && s.workers[w].job < |s.jobs|
    ensures Fresh(c, DoWorkerRead(s, w), t, v, n)
  {
    var j := s.workers[w].job;
    SetWorkerFresh(c, s, w, HasRead(j, LoadNow(s, s.jobs[j].tenant)), t, v, n);
  }

  lemma WorkerInsertFresh(c: Config, s: State, w: nat, t: int, v: TenantPolicy, n: nat)
    requires Inv(c, s) && Fresh(c, s, t, v, n) && w < |s.workers| && s.workers[w].HasRead?
    requires s.workers[w].job < |s.jobs|
    ensures Fresh(c, DoWorkerInsert(s, w, c.cap), t, v, n)
  {
    assert WorkerOk(s, w) && WorkerFresh(c, s, t, v, w);
    var j := s.workers[w].job;
    var own, x := s.jobs[j].tenant, s.jobs[j].(loaded := true);
    match s.workers[w].got {
      case Value(u) =>
        var s1 := InsertNew(s, own, u, c.cap);
        InsertNewSafe(c, s, own, u);
        InsertNewFresh(c, s, own, u, t, v, n);
        SetJobSafe(c, s1, j, x);
        SetJobFresh(c, s1, j, x, t, v, n);
        SetWorkerFresh(c, SetJob(s1, j, x), w, HasInserted(j, Hit(|s.pols|)), t, v, n);
      case Fail =>
        var s1 := s.(failed := s.failed + multiset{own});
        CountSafe(c, s, s.failed + multiset{own}, s.timedOut);
        QuietFresh(c, s, s1, t, v, n);
        SetJobSafe(c, s1, j, x);
        SetJobFresh(c, s1, j, x, t, v, n);
        SetWorkerFresh(c, SetJob(s1, j, x), w, HasInserted(j, Error), t, v, n);
    }
  }

  lemma WorkerAnswerFresh(c: Config, s: State, w: nat, t: int, v: TenantPolicy, n: nat)
    requires Inv(c, s) && Fresh(c, s, t, v, n) && w < |s.workers| && s.workers[w].HasInserted?
    requires s.workers[w].job < |s.jobs|
    ensures Fresh(c, DoWorkerAnswer(s, w), t, v, n)
  {
    assert WorkerOk(s, w) && WorkerFresh(c, s, t, v, w);
    var j := s.workers[w].job;
    var x := s.jobs[j].(chan := s.jobs[j].chan + [s.workers[w].res], answers := s.jobs[j].answers + 1);
    SetJobSafe(c, s, j, x);
    SetJobFresh(c, s, j, x, t, v, n);
    SetWorkerFresh(c, SetJob(s, j, x), w, Idle, t, v, n);
  }

  lemma LeaderReceiveFresh(c: Config, s: State, f: nat, t: int, v: TenantPolicy, n: nat)
    requires Inv(c, s) && Fresh(c, s, t, v, n) && f < |s.flights| && s.flights[f].phase.Waiting?
    requires s.flights[f].phase.job < |s.jobs| && s.jobs[s.flights[f].phase.job].chan != []
    ensures Fresh(c, DoLeaderReceive(s, f), t, v, n)
  {
    assert FlightOk(s, f);
    var j := s.flights[f].phase.job;
    assert s.jobs[j].chan[0] in s.jobs[j].chan;
    SetPhaseSafe(c, s, f, Ended(s.jobs[j].chan[0]));
    SetPhaseFresh(c, s, f, Ended(s.jobs[j].chan[0]), t, v, n);
    SetJobFresh(c, SetPhase(s, f, Ended(s.jobs[j].chan[0])), j, s.jobs[j].(chan := s.jobs[j].chan[1..]), t, v, n);
  }

  lemma LeaderTimeoutFresh(c: Config, s: State, f: nat, t: int, v: TenantPolicy, n: nat)
    requires Inv(c, s) && Fresh(c, s, t, v, n) && f < |s.flights| && s.flights[f].phase.Waiting?
    ensures Fresh(c, DoLeaderTimeout(s, f), t, v, n)
  {
    assert FlightOk(s, f);
    SetPhaseSafe(c, s, f, Ended(Error));
    SetPhaseFresh(c, s, f, Ended(Error), t, v, n);
    QuietFresh(c, SetPhase(s, f, Ended(Error)), DoLeaderTimeout(s, f), t, v, n);
  }

  lemma LeaderLeaveFresh(c: Config, s: State, f: nat, t: int, v: TenantPolicy, n: nat)
    requires Inv(c, s) && Fresh(c, s, t, v, n) && f < |s.flights| && s.flights[f].phase.Ended?
    requires s.flights[f].leader < |s.reqs| && s.reqs[s.flights[f].leader].Leading?
    ensures Fresh(c, DoLeaderLeave(s, f), t, v, n)
  {
    var x := s.flights[f];
    var req := Returned(s.reqs[x.leader].q, x.phase.res);
    assert FlightOk(s, f);
    var s1 := SetPhase(s, f, Left(x.phase.res));
    SetPhaseSafe(c, s, f, Left(x.phase.res));
    SetPhaseFresh(c, s, f, Left(x.phase.res), t, v, n);
    SetReqSafe(c, s1, x.leader, req);
    SetReqFresh(c, s1, x.leader, req, t, v, n);
    QuietFresh(c, SetReq(s1, x.leader, req), DoLeaderLeave(s, f), t, v, n);
  }

  lemma JoinerReturnFresh(c: Config, s: State, r: nat, t: int, v: TenantPolicy, n: nat)
    requires Inv(c, s) && Fresh(c, s, t, v, n) && r < |s.reqs| && s.reqs[r].Joined? && s.reqs[r].flight < |s.flights|
    requires s.flights[s.reqs[r].flight].phase.Left?
    ensures Fresh(c, DoJoinerReturn(s, r), t, v, n)
  {
    if r >= n { assert ReqFresh(c, s, t, v, r); }
    SetReqFresh(c, s, r, Returned(s.reqs[r].q, s.flights[s.reqs[r].flight].phase.res), t, v, n);
  }

  lemma ReadLockFresh(c: Config, s: State, r: nat, t: int, v: TenantPolicy, n: nat)
    requires Inv(c, s) && Fresh(c, s, t, v, n) && r < |s.reqs| && s.reqs[r].Got? && s.reqs[r].pol < |s.pols|
    requires s.pols[s.reqs[r].pol].writer.None?
    ensures Fresh(c, DoReadLock(s, r), t, v, n)
  {
    var x := s.reqs[r];
    var req := Reading(x.q, x.pol, 0, None, []);
    if r >= n { assert ReqFresh(c, s, t, v, r); }
    SetReadersFresh(c, s, r, req, x.pol, s.pols[x.pol].readers + {r}, t, v, n);
  }

  lemma ReadFieldFresh(c: Config, s: State, r: nat, x: Req, t: int, v: TenantPolicy, n: nat)
    requires Inv(c, s) && Fresh(c, s, t, v, n) && r < |s.reqs| && s.reqs[r].Reading? && x.Reading?
    requires x.q == s.reqs[r].q && x.pol == s.reqs[r].pol
    ensures Fresh(c, SetReq(s, r, x), t, v, n)
  {
    if r >= n { assert ReqFresh(c, s, t, v, r); }
    SetReqFresh(c, s, r, x, t, v, n);
  }

  /** A request that read an object like v answers like v. */
  lemma ReadDefaultFresh(c: Config, s: State, r: nat, t: int, v: TenantPolicy, n: nat)
    requires Inv(c, s) && Fresh(c, s, t, v, n) && r < |s.reqs| && s.reqs[r].Reading? && s.reqs[r].stage == 2
    requires s.reqs[r].pol < |s.pols|
    ensures Fresh(c, DoReadDefault(c, s, r), t, v, n)
  {
    var x := s.reqs[r];
    assert ReqOk(c, s, r) && PolOk(s, x.pol);
    var u := s.pols[x.pol].fields;
    var o := DecideFields(c.rx, x.ast, x.order, u.defaultAction, x.q.domain, x.q.verb);
    assert o == Decide(c.rx, u, x.q.domain, x.q.verb);
    if r >= n { assert ReqFresh(c, s, t, v, r); }
    SetReadersFresh(c, s, r, Answered(x.q, o), x.pol, s.pols[x.pol].readers - {r}, t, v, n);
  }

  lemma ReloadReadFresh(c: Config, s: State, l: nat, t: int, v: TenantPolicy, n: nat)
    requires Inv(c, s) && Fresh(c, s, t, v, n) && l < |s.reloads| && s.reloads[l].RStart?
    ensures Fresh(c, DoReloadRead(s, l), t, v, n)
  {
    var own := s.reloads[l].tenant;
    match LoadNow(s, own) {
      case Value(u) => SetReloadFresh(c, s, l, RRead(own, u), t, v, n);
      case Fail => SetReloadFresh(c, s, l, RDone(own, false), t, v, n);
    }
  }

  lemma ReloadLookupFresh(c: Config, s: State, l: nat, t: int, v: TenantPolicy, n: nat)
    requires Inv(c, s) && Fresh(c, s, t, v, n) && l < |s.reloads| && s.reloads[l].RRead?
    ensures Fresh(c, DoReloadLookup(s, l), t, v, n)
  {
    var x := s.reloads[l];
    assert ReloadFresh(c, s, t, v, l);
    var next := if Has(s.lru, x.tenant) then RFound(x.tenant, x.next, CachedEntry(s, x.tenant))
      else RAbsent(x.tenant, x.next);
    SetReloadFresh(c, s, l, next, t, v, n);
  }

  lemma ReloadInsertFresh(c: Config, s: State, l: nat, t: int, v: TenantPolicy, n: nat)
    requires Inv(c, s) && Fresh(c, s, t, v, n) && l < |s.reloads| && s.reloads[l].RAbsent?
    ensures Fresh(c, DoReloadInsert(s, l, c.cap), t, v, n)
  {
    var x := s.reloads[l];
    assert ReloadOk(s, l) && ReloadFresh(c, s, t, v, l);
    InsertNewSafe(c, s, x.tenant, x.next);
    InsertNewFresh(c, s, x.tenant, x.next, t, v, n);
    SetReloadFresh(c, InsertNew(s, x.tenant, x.next, c.cap), l, RDone(x.tenant, true), t, v, n);
  }

  lemma ReloadAimFresh(c: Config, s: State, l: nat, t: int, v: TenantPolicy, n: nat)
    requires Inv(c, s) && Fresh(c, s, t, v, n) && l < |s.reloads| && s.reloads[l].RFound?
    ensures Fresh(c, DoReloadAim(s, l), t, v, n)
  {
    var x := s.reloads[l];
    assert ReloadFresh(c, s, t, v, l);
    SetReloadFresh(c, s, l, RAimed(x.tenant, x.next, EntryAt(s, x.entry).pol), t, v, n);
  }

  lemma ReloadLockFresh(c: Config, s: State, l: nat, t: int, v: TenantPolicy, n: nat)
    requires Inv(c, s) && Fresh(c, s, t, v, n) && l < |s.reloads| && s.reloads[l].RAimed?
    requires Lockable(s, s.reloads[l].pol)
    ensures Fresh(c, DoReloadLock(s, l), t, v, n)
  {
    var x := s.reloads[l];
    assert ReloadOk(s, l) && ReloadFresh(c, s, t, v, l);
    SwapFresh(c, s, l, RWriting(x.tenant, x.next, x.pol, 0), s.pols[x.pol].(writer := Some(l)), t, v, n);
  }

  lemma ReloadWriteFresh(c: Config, s: State, l: nat, t: int, v: TenantPolicy, n: nat)
    requires Inv(c, s) && Fresh(c, s, t, v, n) && l < |s.reloads| && s.reloads[l].RWriting?
    requires s.reloads[l].pol < |s.pols|
    ensures Fresh(c, DoReloadWrite(s, l), t, v, n)
  {
    var x := s.reloads[l];
    assert ReloadOk(s, l) && PolOk(s, x.pol) && ReloadFresh(c, s, t, v, l);
    SwapFresh(c, s, l, x.(stage := x.stage + 1),
      s.pols[x.pol].(fields := WriteField(s.pols[x.pol].fields, x.next, x.stage)), t, v, n);
  }

  lemma ReloadUnlockFresh(c: Config, s: State, l: nat, t: int, v: TenantPolicy, n: nat)
    requires Inv(c, s) && Fresh(c, s, t, v, n) && l < |s.reloads| && s.reloads[l].RWriting? && s.reloads[l].stage == 4
    requires s.reloads[l].pol < |s.pols|
    ensures Fresh(c, DoReloadUnlock(s, l), t, v, n)
  {
    var x := s.reloads[l];
    assert ReloadOk(s, l) && PolOk(s, x.pol) && ReloadFresh(c, s, t, v, l);
    SwapFresh(c, s, l, RDone(x.tenant, true), s.pols[x.pol].(writer := None), t, v, n);
  }

  // ---------- whole runs ----------

  predicate Publishes(step: Step, t: int) {
    step.Publish? && step.tenant == t
  }

  /** The file of t stays as it is. */
  ghost predicate FileStays(steps: seq<Step>, t: int) {
    forall i :: 0 <= i < |steps| ==> !Publishes(steps[i], t)
  }

  lemma RequestFresh(c: Config, s: State, step: Step, t: int, v: TenantPolicy, n: nat)
    requires Inv(c, s) && CallsOk(s) && Fresh(c, s, t, v, n) && Enabled(c, s, step) && RequestStep(step)
    requires !Publishes(step, t)
    ensures Fresh(c, Next(c, s, step), t, v, n)
  {
    match step
    case Publish(own, file) => PublishFresh(c, s, own, file, t, v, n);
    case Begin(q) => NewReqFresh(c, s, if q.tenant <= 0 then Refused(q) else Start(q), t, v, n);
    case Lookup(r) => LookupFresh(c, s, r, t, v, n);
    case EnterFlight(r) =>
      if t in s.group { assert GroupOk(s.flights, t, s.group[t]); }
      EnterFlightFresh(c, s, r, t, v, n);
    case LeaderCheck(f) => LeaderCheckFresh(c, s, f, t, v, n);
    case LeaderTimeout(f) => LeaderTimeoutFresh(c, s, f, t, v, n);
    case LeaderLeave(f) => LeaderLeaveFresh(c, s, f, t, v, n);
    case JoinerReturn(r) => JoinerReturnFresh(c, s, r, t, v, n);
    case ReadLock(r) => ReadLockFresh(c, s, r, t, v, n);
    case ReadAst(r) =>
      ReadFieldFresh(c, s, r, s.reqs[r].(stage := 1, ast := PolAt(s, s.reqs[r].pol).fields.ast), t, v, n);
    case ReadOrder(r) =>
      var order := PolAt(s, s.reqs[r].pol).fields.evaluationOrder;
      ReadFieldFresh(c, s, r, s.reqs[r].(stage := 2, order := order), t, v, n);
    case ReadDefault(r) => ReadDefaultFresh(c, s, r, t, v, n);
  }

  lemma LoadFresh(c: Config, s: State, step: Step, t: int, v: TenantPolicy, n: nat)
    requires Inv(c, s) && Fresh(c, s, t, v, n) && Enabled(c, s, step)
    requires (LoaderStep(step) || step.LeaderSend? || step.LeaderReceive?)
    ensures Fresh(c, Next(c, s, step), t, v, n)
  {
    match step
    case LeaderSend(f) => LeaderSendFresh(c, s, f, t, v, n);
    case LeaderReceive(f) => LeaderReceiveFresh(c, s, f, t, v, n);
    case HelperSend(j) => QuietFresh(c, s, Next(c, s, step), t, v, n);
    case WorkerTake(w) => WorkerTakeFresh(c, s, w, t, v, n);
    case WorkerRead(w) => WorkerReadFresh(c, s, w, t, v, n);
    case WorkerInsert(w) => WorkerInsertFresh(c, s, w, t, v, n);
    case WorkerAnswer(w) => WorkerAnswerFresh(c, s, w, t, v, n);
  }

  lemma ReloadStepFresh(c: Config, s: State, step: Step, t: int, v: TenantPolicy, n: nat)
    requires Inv(c, s) && Fresh(c, s, t, v, n) && Enabled(c, s, step) && ReloadStep(step)
    ensures Fresh(c, Next(c, s, step), t, v, n)
  {
    match step
    case ReloadBegin(own) => NewReloadFresh(c, s, own, t, v, n);
    case ReloadRead(l) => ReloadReadFresh(c, s, l, t, v, n);
    case ReloadLookup(l) => ReloadLookupFresh(c, s, l, t, v, n);
    case ReloadInsert(l) => ReloadInsertFresh(c, s, l, t, v, n);
    case ReloadAim(l) => ReloadAimFresh(c, s, l, t, v, n);
    case ReloadLock(l) => ReloadLockFresh(c, s, l, t, v, n);
    case ReloadWrite(l) => ReloadWriteFresh(c, s, l, t, v, n);
    case ReloadUnlock(l) => ReloadUnlockFresh(c, s, l, t, v, n);
  }

  lemma StepFresh(c: Config, s: State, step: Step, t: int, v: TenantPolicy, n: nat)
    requires Inv(c, s) && CallsOk(s) && Fresh(c, s, t, v, n) && Enabled(c, s, step) && !Publishes(step, t)
    ensures Fresh(c, Next(c, s, step), t, v, n)
  {
    if ReloadStep(step) {
      ReloadStepFresh(c, s, step, t, v, n);
    } else if RequestStep(step) {
      RequestFresh(c, s, step, t, v, n);
    } else {
      LoadFresh(c, s, step, t, v, n);
    }
  }

  lemma {:induction false} RunFresh(c: Config, s: State, steps: seq<Step>, s': State, t: int, v: TenantPolicy, n: nat)
    requires Inv(c, s) && CallsOk(s) && JobsOk(s) && Fresh(c, s, t, v, n) && Runs(c, s, steps, s')
    requires FileStays(steps, t)
    ensures Inv(c, s') && Fresh(c, s', t, v, n)
    decreases steps
  {
    if steps != [] {
      StepFresh(c, s, steps[0], t, v, n);
      StepSafe(c, s, steps[0]);
      StepCalls(c, s, steps[0]);
      StepJobs(c, s, steps[0]);
      RunFresh(c, Next(c, s, steps[0]), steps[1..], s', t, v, n);
    }
  }

  ghost predicate AnswerLike(c: Config, s: State, t: int, v: TenantPolicy, n: nat, r: nat) {
    n <= r < |s.reqs| && s.reqs[r].Answered? && s.reqs[r].q.tenant == t ==>
      s.reqs[r].outcome == Decide(c.rx, v, s.reqs[r].q.domain, s.reqs[r].q.verb)
  }

  /** Every request for t that starts from now on is answered, if at all, as v answers, until the file changes. */
  ghost predicate AnswersLike(c: Config, s: State, t: int, v: TenantPolicy) {
    forall steps, s', r: nat :: Runs(c, s, steps, s') && FileStays(steps, t) ==> AnswerLike(c, s', t, v, |s.reqs|, r)
  }

  lemma FreshAnswer(c: Config, s: State, steps: seq<Step>, s': State, t: int, v: TenantPolicy, n: nat, r: nat)
    requires Inv(c, s) && CallsOk(s) && JobsOk(s) && Fresh(c, s, t, v, n) && Runs(c, s, steps, s')
    requires FileStays(steps, t)
    ensures AnswerLike(c, s', t, v, n, r)
  {
    RunFresh(c, s, steps, s', t, v, n);
    if n <= r < |s'.reqs| { assert ReqFresh(c, s', t, v, r); }
  }

  lemma AllAnswersFresh(c: Config, s: State, t: int, v: TenantPolicy)
    requires Inv(c, s) && CallsOk(s) && JobsOk(s) && Fresh(c, s, t, v, |s.reqs|)
    ensures AnswersLike(c, s, t, v)
  {
    forall steps, s', r: nat | Runs(c, s, steps, s') && FileStays(steps, t)
      ensures AnswerLike(c, s', t, v, |s.reqs|, r) {
      FreshAnswer(c, s, steps, s', t, v, |s.reqs|, r);
    }
  }

  /**
   * When the cache and all that is in flight agree with the file, every request that starts later is answered as a
   * fresh load of the file would answer it, whether its tenant stays cached, is evicted, or is loaded again.
   */
  lemma FreshAnswers(c: Config, before: seq<Step>, s: State, t: int, v: TenantPolicy)
    requires t > 0 && Runs(c, Init(c), before, s) && Fresh(c, s, t, v, |s.reqs|)
    ensures AnswersLike(c, s, t, v) && LoadNow(s, t) == Value(v)
  {
    RunSafe(c, Init(c), before, s);
    RegistryBound.Reached(c, before, s);
    AllAnswersFresh(c, s, t, v);
  }

  // ---------- what a finished reload settles ----------

  /** In a cache without duplicates the slot of a tenant is the one that is found. */
  lemma OnlySlot(s: State, x: Slot<nat>)
    requires Distinct(s.lru) && x in s.lru
    ensures Has(s.lru, x.tenant) && x.val == CachedEntry(s, x.tenant)
  {
    var i :| 0 <= i < |s.lru| && s.lru[i] == x;
  }

  /** After an insert for t every slot of t holds the new object. */
  lemma InsertedOnly(s: State, t: int, p: nat, cap: nat, x: Slot<nat>)
    requires CacheOk(s) && Distinct(s.lru) && x in InsertEntry(s, t, p, cap).lru && x.tenant == t
    ensures EntryAt(InsertEntry(s, t, p, cap), x.val).pol == p
  {
    if Has(s.lru, t) {
      CachedIsOwn(s, t);
      TouchMembers(s.lru, t);
      OnlySlot(s, x);
    } else {
      InsertedSlots(s, t, p, cap, x);
      if x in s.lru { OnlySlot(s, x); }
    }
  }

  /** What is in flight for t stays in agreement when a reload inserts what it read. */
  lemma ReloadInsertInFlight(c: Config, s: State, l: nat, t: int, v: TenantPolicy)
    requires Inv(c, s) && InFlightFresh(c, s, t, v) && l < |s.reloads| && s.reloads[l].RAbsent?
    ensures InFlightFresh(c, DoReloadInsert(s, l, c.cap), t, v)
  {
    var s' := DoReloadInsert(s, l, c.cap);
    var d := NOTHING.(reload := Some(l));
    assert ReloadOk(s, l);
    InsertNewGrows(s, s.reloads[l].tenant, s.reloads[l].next, c.cap);
    KeepsFrame(c, s, s', t, v, d);
    KeptInFlight(c, s, s', t, v, |s.reqs|, d);
  }

  /** A reload of a tenant it did not find cached settles the tenant once nothing in flight has read another version. */
  lemma ReloadInsertSettles(c: Config, before: seq<Step>, s: State, l: nat)
    requires c.cap > 0 && Runs(c, Init(c), before, s) && Enabled(c, s, ReloadInsert(l))
    requires Current(s, s.reloads[l].tenant) == Holds(s.reloads[l].next)
    requires InFlightFresh(c, s, s.reloads[l].tenant, s.reloads[l].next)
    ensures AnswersLike(c, Next(c, s, ReloadInsert(l)), s.reloads[l].tenant, s.reloads[l].next)
  {
    RunSafe(c, Init(c), before, s);
    RegistryBound.Reached(c, before, s);
    RegistryCache.CacheIsLru(c, before, s);
    ReloadInsertFreshens(c, s, l, s.reloads[l].tenant, s.reloads[l].next);
    ReloadInsertRest(c, s, l);
    AllAnswersFresh(c, DoReloadInsert(s, l, c.cap), s.reloads[l].tenant, s.reloads[l].next);
  }

  lemma ReloadInsertFreshens(c: Config, s: State, l: nat, t: int, v: TenantPolicy)
    requires Inv(c, s) && Distinct(s.lru) && l < |s.reloads| && s.reloads[l].RAbsent? && s.reloads[l].tenant == t
    requires s.reloads[l].next == v
    requires Current(s, t) == Holds(v) && InFlightFresh(c, s, t, v)
    ensures Fresh(c, DoReloadInsert(s, l, c.cap), t, v, |s.reqs|)
  {
    ReloadInsertInFlight(c, s, l, t, v);
    ReloadInsertCache(c, s, l, t, v);
  }

  lemma ReloadInsertRest(c: Config, s: State, l: nat)
    requires Inv(c, s) && CallsOk(s) && JobsOk(s) && Enabled(c, s, ReloadInsert(l))
    ensures var s' := DoReloadInsert(s, l, c.cap); Inv(c, s') && CallsOk(s') && JobsOk(s') && s'.reqs == s.reqs
  {
    StepSafe(c, s, ReloadInsert(l));
    StepCalls(c, s, ReloadInsert(l));
    StepJobs(c, s, ReloadInsert(l));
  }

  lemma ReloadInsertCache(c: Config, s: State, l: nat, t: int, v: TenantPolicy)
    requires Inv(c, s) && Distinct(s.lru) && l < |s.reloads| && s.reloads[l].RAbsent? && s.reloads[l].tenant == t
    requires s.reloads[l].next == v
    ensures CacheFresh(c, DoReloadInsert(s, l, c.cap), t, v) && History(DoReloadInsert(s, l, c.cap), t) == History(s, t)
    ensures |DoReloadInsert(s, l, c.cap).reqs| == |s.reqs|
  {
    var s' := DoReloadInsert(s, l, c.cap);
    var s1 := s.(pols := s.pols + [Pol(t, v, {}, None)]);
    assert CacheOk(s1);
    forall x | x in s'.lru && x.tenant == t ensures PolFresh(c, s', t, v, EntryAt(s', x.val).pol) {
      InsertedOnly(s1, t, |s.pols|, c.cap, x);
    }
  }
}
