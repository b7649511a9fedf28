/** What loads and reloads leave behind, and what the cache records (policy/registry.go, Swap of tenant_decide.go). */
module RegistryEffects {
  import opened Text
  import opened Policy
  import opened LruSpec
  import opened Registry
  import opened RegistrySafety
  import RegistryCache
  import RegistryJobs

  /** The tenant is cached, with an object that holds exactly these fields and that nobody writes. */
  ghost predicate CachedWith(s: State, t: int, v: TenantPolicy) {
    && Has(s.lru, t) && CachedPol(s, t) < |s.pols|
    && s.pols[CachedPol(s, t)].tenant == t && s.pols[CachedPol(s, t)].fields == v
    && s.pols[CachedPol(s, t)].writer.None?
  }

  /** After an insert the tenant is at the front of the cache. */
  lemma InsertAtFront(s: State, t: int, p: nat, cap: nat)
    requires cap > 0 && forall x :: x in s.lru ==> x.val < |s.entries|
    ensures var s' := InsertEntry(s, t, p, cap);
      s'.lru != [] && s'.lru[0].tenant == t && Has(s'.lru, t) && CachedPol(s', t) == p
  {
    var s' := InsertEntry(s, t, p, cap);
    if Has(s.lru, t) {
      assert s.lru[Find(s.lru, t)] in s.lru;
      assert s'.lru[0] == s.lru[Find(s.lru, t)];
    } else {
      assert s'.lru[0] == Slot(t, |s.entries|);
    }
    assert Find(s'.lru, t) == 0;
  }

  lemma NewIsCached(s: State, t: int, v: TenantPolicy, cap: nat)
    requires cap > 0 && CacheOk(s)
    ensures CachedWith(InsertNew(s, t, v, cap), t, v)
  {
    var s1 := s.(pols := s.pols + [Pol(t, v, {}, None)]);
    InsertAtFront(s1, t, |s.pols|, cap);
    assert InsertEntry(s1, t, |s.pols|, cap).pols == s1.pols;
  }

  /** A load that succeeded caches what it read, in a new object, and that object is its result. */
  lemma LoadIsCached(c: Config, before: seq<Step>, s: State, w: nat)
    requires c.cap > 0 && Runs(c, Init(c), before, s) && Enabled(c, s, WorkerInsert(w)) && s.workers[w].got.Value?
    ensures var s', x := Next(c, s, WorkerInsert(w)), s.workers[w];
      var t := s.jobs[x.job].tenant;
      CachedWith(s', t, x.got.policy) && s'.workers[w] == HasInserted(x.job, Hit(CachedPol(s', t)))
  {
    RunSafe(c, Init(c), before, s);
    var x := s.workers[w];
    var t := s.jobs[x.job].tenant;
    NewIsCached(s, t, x.got.policy, c.cap);
    InsertAtFront(s.(pols := s.pols + [Pol(t, x.got.policy, {}, None)]), t, |s.pols|, c.cap);
    LoadEffect(c, s, w);
  }

  lemma LoadEffect(c: Config, s: State, w: nat)
    requires Enabled(c, s, WorkerInsert(w)) && s.workers[w].got.Value?
    ensures var s', x := Next(c, s, WorkerInsert(w)), s.workers[w];
      var s1 := InsertNew(s, s.jobs[x.job].tenant, x.got.policy, c.cap);
      && s'.lru == s1.lru && s'.entries == s1.entries && s'.pols == s1.pols
      && s'.workers[w] == HasInserted(x.job, Hit(|s.pols|))
  {}

  /** A load that failed caches nothing and reports the error. */
  lemma FailedLoad(c: Config, s: State, w: nat)
    requires Enabled(c, s, WorkerInsert(w)) && s.workers[w].got.Fail?
    ensures var s', x := Next(c, s, WorkerInsert(w)), s.workers[w];
      && s'.lru == s.lru && s'.entries == s.entries && s'.pols == s.pols
      && s'.workers[w] == HasInserted(x.job, Error) && s'.failed == s.failed + multiset{s.jobs[x.job].tenant}
  {}

  /** A reload that found its tenant absent caches what it read. */
  lemma ReloadIsCached(c: Config, before: seq<Step>, s: State, l: nat)
    requires c.cap > 0 && Runs(c, Init(c), before, s) && Enabled(c, s, ReloadInsert(l))
    ensures var s', x := Next(c, s, ReloadInsert(l)), s.reloads[l];
      CachedWith(s', x.tenant, x.next) && s'.reloads[l] == RDone(x.tenant, true)
  {
    RunSafe(c, Init(c), before, s);
    NewIsCached(s, s.reloads[l].tenant, s.reloads[l].next, c.cap);
  }

  /** A reload that swaps leaves exactly what it read in the object it found, whatever was there. */
  lemma SwapIsComplete(c: Config, before: seq<Step>, s: State, l: nat)
    requires Runs(c, Init(c), before, s) && Enabled(c, s, ReloadUnlock(l))
    ensures var s', x := Next(c, s, ReloadUnlock(l)), s.reloads[l];
      && s'.pols[x.pol] == Pol(x.tenant, x.next, {}, None) && s'.reloads[l] == RDone(x.tenant, true)
      && s'.lru == s.lru && s'.entries == s.entries
  {
    RunSafe(c, Init(c), before, s);
    assert ReloadOk(s, l) && PolOk(s, s.reloads[l].pol);
  }

  /** What a worker or a reload reads: the last version of the file, if there is a readable one. */
  lemma ReadsTheFile(c: Config, s: State, w: nat, l: nat)
    ensures Enabled(c, s, WorkerRead(w)) ==>
      var t, h := s.jobs[s.workers[w].job].tenant, History(s, s.jobs[s.workers[w].job].tenant);
      Next(c, s, WorkerRead(w)).workers[w] == HasRead(s.workers[w].job,
        if t > 0 && h != [] && h[|h| - 1].Holds? then Value(h[|h| - 1].policy) else Fail)
    ensures Enabled(c, s, ReloadRead(l)) ==>
      var t, h := s.reloads[l].tenant, History(s, s.reloads[l].tenant);
      Next(c, s, ReloadRead(l)).reloads[l] ==
        if t > 0 && h != [] && h[|h| - 1].Holds? then RRead(t, h[|h| - 1].policy) else RDone(t, false)
  {}

  // ---------- what the cache records ----------

  /** The cache operation of a step: a hit of a lookup or of a leader, or an insert of a load or a reload. */
  function Recorded(s: State, step: Step): seq<Op<nat>> {
    match step
    case Lookup(r) => if r < |s.reqs| && Has(s.lru, s.reqs[r].q.tenant) then [Get(s.reqs[r].q.tenant)] else []
    case LeaderCheck(f) => if f < |s.flights| && Has(s.lru, s.flights[f].tenant) then [Get(s.flights[f].tenant)] else []
    case WorkerInsert(w) =>
      if w < |s.workers| && s.workers[w].HasRead? && s.workers[w].got.Value? && s.workers[w].job < |s.jobs|
      then [Op.Insert(s.jobs[s.workers[w].job].tenant, |s.pols|)]
      else []
    case ReloadInsert(l) => if l < |s.reloads| then [Op.Insert(s.reloads[l].tenant, |s.pols|)] else []
    case _ => []
  }

  predicate UsesCache(step: Step) {
    step.Lookup? || step.LeaderCheck? || step.WorkerInsert? || step.ReloadInsert?
  }

  lemma OthersRecordNothing(c: Config, s: State, step: Step)
    requires Enabled(c, s, step) && !UsesCache(step)
    ensures Next(c, s, step).cacheOps == s.cacheOps
  {}

  lemma CacheUseRecorded(c: Config, s: State, step: Step)
    requires Enabled(c, s, step) && UsesCache(step)
    ensures Next(c, s, step).cacheOps == s.cacheOps + Recorded(s, step)
  {}

  lemma StepRecorded(c: Config, s: State, step: Step)
    requires Enabled(c, s, step)
    ensures Next(c, s, step).cacheOps == s.cacheOps + Recorded(s, step)
  {
    if UsesCache(step) { CacheUseRecorded(c, s, step); } else { OthersRecordNothing(c, s, step); }
  }

  /** The cache operations of a run, in order. */
  ghost function AllRecorded(c: Config, s: State, steps: seq<Step>): seq<Op<nat>>
    decreases steps
  {
    if steps == [] || !Enabled(c, s, steps[0]) then []
    else Recorded(s, steps[0]) + AllRecorded(c, Next(c, s, steps[0]), steps[1..])
  }

  lemma {:induction false} RunRecorded(c: Config, s: State, steps: seq<Step>, s': State)
    requires Runs(c, s, steps, s')
    ensures s'.cacheOps == s.cacheOps + AllRecorded(c, s, steps)
    decreases steps
  {
    if steps != [] {
      StepRecorded(c, s, steps[0]);
      RunRecorded(c, Next(c, s, steps[0]), steps[1..], s');
    }
  }

  /** In every run the cache lists the tenants as the least-recently-used cache of exactly its hits and inserts does. */
  lemma CacheFollowsTheRun(c: Config, steps: seq<Step>, s: State)
    requires c.cap > 0 && Runs(c, Init(c), steps, s)
    ensures
      var ops := AllRecorded(c, Init(c), steps);
      && RegistryCache.ViewOf(s.lru, s.entries) == Run(ops, c.cap)
      && Tenants(s.lru) == Truncate(Recent(Touched(ops, c.cap)), c.cap)
  {
    RunRecorded(c, Init(c), steps, s);
    assert s.cacheOps == AllRecorded(c, Init(c), steps);
    RegistryCache.CacheIsLru(c, steps, s);
  }

  // ---------- the job queue ----------

  /** A new job goes to the back of the queue while there is room, else to a helper; workers take from the front. */
  lemma QueueIsFifo(c: Config, s: State, f: nat, j: nat, w: nat)
    ensures Enabled(c, s, LeaderSend(f)) ==>
      var s', n := Next(c, s, LeaderSend(f)), |s.jobs|;
      if |s.queue| < c.cap then s'.queue == s.queue + [n] && s'.senders == s.senders
      else s'.queue == s.queue && s'.senders == s.senders + {n}
    ensures Enabled(c, s, HelperSend(j)) ==>
      var s' := Next(c, s, HelperSend(j)); s'.queue == s.queue + [j] && s'.senders == s.senders - {j}
    ensures Enabled(c, s, WorkerTake(w)) ==>
      var s' := Next(c, s, WorkerTake(w)); s.queue == [s'.workers[w].job] + s'.queue && s'.workers[w].Taken?
  {}

  lemma QueueStepBounded(c: Config, s: State, step: Step)
    requires |s.queue| <= c.cap && Enabled(c, s, step)
    ensures |Next(c, s, step).queue| <= c.cap
  {
    if step.LeaderSend? {
      QueueIsFifo(c, s, step.f, 0, 0);
    } else if step.HelperSend? || step.WorkerTake? {
    } else {
      QueueUnchanged(c, s, step);
    }
  }

  lemma QueueUnchanged(c: Config, s: State, step: Step)
    requires Enabled(c, s, step) && !step.LeaderSend? && !step.HelperSend? && !step.WorkerTake?
    ensures Next(c, s, step).queue == s.queue
  {
    if RegistryJobs.RequestStep(step) {
      RegistryJobs.RequestsLeaveJobs(c, s, step);
    } else if RegistryJobs.ReloadStep(step) {
      RegistryJobs.ReloadsLeaveJobs(c, s, step);
    } else if step.WorkerInsert? {
      RegistryJobs.InsertKeepsQueues(s, s.jobs[s.workers[step.w].job].tenant, c.cap, s.workers[step.w].got);
    }
  }

  lemma {:induction false} RunQueueBounded(c: Config, s: State, steps: seq<Step>, s': State)
    requires |s.queue| <= c.cap && Runs(c, s, steps, s')
    ensures |s'.queue| <= c.cap
    decreases steps
  {
    if steps != [] {
      QueueStepBounded(c, s, steps[0]);
      RunQueueBounded(c, Next(c, s, steps[0]), steps[1..], s');
    }
  }

  /** In no run does the queue hold more jobs than it has room for. */
  lemma QueueBounded(c: Config, steps: seq<Step>, s: State)
    requires Runs(c, Init(c), steps, s)
    ensures |s.queue| <= c.cap
  {
    RunQueueBounded(c, Init(c), steps, s);
  }
}
