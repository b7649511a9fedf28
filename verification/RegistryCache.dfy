/** In every run of the registry its cache is the least-recently-used cache of the hits and inserts that happened. */
module RegistryCache {
  import opened Text
  import opened Policy
  import opened LruSpec
  import opened Registry
  import opened RegistrySafety

  /** Tenants front to back with the policy object each is answered from. */
  function ViewOf(lru: seq<Slot<nat>>, entries: seq<Entry>): (v: seq<Slot<nat>>)
    ensures |v| == |lru|
  {
    seq(|lru|, i requires 0 <= i < |lru| =>
      Slot(lru[i].tenant, if lru[i].val < |entries| then entries[lru[i].val].pol else 0))
  }

  lemma FindIs<V>(s: seq<Slot<V>>, t: int, k: nat)
    requires k <= |s| && (k < |s| ==> s[k].tenant == t) && forall i :: 0 <= i < k ==> s[i].tenant != t
    ensures Find(s, t) == k
  {}

  lemma ViewFind(lru: seq<Slot<nat>>, entries: seq<Entry>, t: int)
    ensures Find(ViewOf(lru, entries), t) == Find(lru, t)
  {
    FindIs(ViewOf(lru, entries), t, Find(lru, t));
  }

  lemma ViewTouch(lru: seq<Slot<nat>>, entries: seq<Entry>, t: int)
    ensures ViewOf(Touch(lru, t), entries) == Touch(ViewOf(lru, entries), t)
  {
    ViewFind(lru, entries, t);
    if Has(lru, t) {
      var k := Find(lru, t);
      var v, touched := ViewOf(lru, entries), ViewOf(Touch(lru, t), entries);
      FrontSlots(lru, k, lru[k]);
      FrontSlots(v, k, v[k]);
      forall m | 0 <= m < |lru| ensures touched[m] == Touch(v, t)[m] {
        assert Touch(lru, t)[m] == lru[From(k, m)] && Touch(v, t)[m] == v[From(k, m)];
      }
    }
  }

  lemma OverwriteSlot(lru: seq<Slot<nat>>, entries: seq<Entry>, t: int, p: nat, m: nat)
    requires Has(lru, t) && (forall x :: x in lru ==> x.val < |entries| && entries[x.val].tenant == x.tenant)
    requires Distinct(lru) && m < |lru|
    ensures var k, v := Find(lru, t), ViewOf(lru, entries);
      ViewOf(Touch(lru, t), entries[lru[k].val := Entry(t, p)])[m] == ([Slot(t, p)] + Without(v, k))[m]
  {
    var k, v := Find(lru, t), ViewOf(lru, entries);
    FrontSlots(lru, k, lru[k]);
    FrontSlots(v, k, Slot(t, p));
    assert lru[From(k, m)] in lru && lru[k] in lru;
  }

  lemma OverwriteView(lru: seq<Slot<nat>>, entries: seq<Entry>, t: int, p: nat, cap: nat)
    requires Has(lru, t) && (forall x :: x in lru ==> x.val < |entries| && entries[x.val].tenant == x.tenant)
    requires Distinct(lru)
    requires lru[Find(lru, t)].val < |entries|
    ensures ViewOf(Touch(lru, t), entries[lru[Find(lru, t)].val := Entry(t, p)]) == Put(ViewOf(lru, entries), t, p, cap)
  {
    var k, v := Find(lru, t), ViewOf(lru, entries);
    ViewFind(lru, entries, t);
    var now := ViewOf(Touch(lru, t), entries[lru[k].val := Entry(t, p)]);
    forall m | 0 <= m < |lru| ensures now[m] == ([Slot(t, p)] + Without(v, k))[m] {
      OverwriteSlot(lru, entries, t, p, m);
    }
    assert now == [Slot(t, p)] + Without(v, k);
  }

  lemma PushView(lru: seq<Slot<nat>>, entries: seq<Entry>, t: int, p: nat, cap: nat)
    requires !Has(lru, t) && forall x :: x in lru ==> x.val < |entries|
    ensures ViewOf(Truncate([Slot(t, |entries|)] + lru, cap), entries + [Entry(t, p)]) ==
      Put(ViewOf(lru, entries), t, p, cap)
  {
    var v := ViewOf(lru, entries);
    var full, kept := [Slot(t, |entries|)] + lru, Truncate([Slot(t, |entries|)] + lru, cap);
    ViewFind(lru, entries, t);
    forall m | 0 <= m < |kept| ensures ViewOf(kept, entries + [Entry(t, p)])[m] == Put(v, t, p, cap)[m] {
      if m > 0 { assert kept[m] == lru[m - 1] && lru[m - 1] in lru; }
    }
  }

  /** The cache is what the hits and inserts so far make of an empty one. */
  ghost predicate Matches(lru: seq<Slot<nat>>, entries: seq<Entry>, ops: seq<Op<nat>>, cap: nat) {
    ViewOf(lru, entries) == Run(ops, cap)
  }

  ghost predicate LruOk(c: Config, s: State) {
    Matches(s.lru, s.entries, s.cacheOps, c.cap)
  }

  lemma DistinctView(lru: seq<Slot<nat>>, entries: seq<Entry>)
    requires Distinct(ViewOf(lru, entries))
    ensures Distinct(lru)
  {
    forall i, j | 0 <= i < j < |lru| ensures lru[i].tenant != lru[j].tenant {
      assert ViewOf(lru, entries)[i].tenant != ViewOf(lru, entries)[j].tenant;
    }
  }

  lemma RunAppend(ops: seq<Op<nat>>, op: Op<nat>, cap: nat)
    ensures Run(ops + [op], cap) == LruSpec.Apply(Run(ops, cap), op, cap)
  {
    assert (ops + [op])[..|ops|] == ops;
  }

  lemma TouchLru(c: Config, s: State, t: int)
    requires LruOk(c, s)
    ensures LruOk(c, TouchCache(s, t))
  {
    ViewTouch(s.lru, s.entries, t);
    RunAppend(s.cacheOps, Get(t), c.cap);
  }

  lemma InsertLru(c: Config, s: State, t: int, p: nat)
    requires c.cap > 0 && LruOk(c, s) && CacheOk(s)
    ensures LruOk(c, InsertEntry(s, t, p, c.cap))
  {
    LruOverRuns(s.cacheOps, c.cap);
    DistinctView(s.lru, s.entries);
    RunAppend(s.cacheOps, Op.Insert(t, p), c.cap);
    if Has(s.lru, t) {
      CachedIsOwn(s, t);
      OverwriteView(s.lru, s.entries, t, p, c.cap);
    } else {
      PushView(s.lru, s.entries, t, p, c.cap);
    }
  }

  lemma InsertNewLru(c: Config, s: State, t: int, v: TenantPolicy)
    requires c.cap > 0 && LruOk(c, s) && CacheOk(s)
    ensures LruOk(c, InsertNew(s, t, v, c.cap))
  {
    var s1 := s.(pols := s.pols + [Pol(t, v, {}, None)]);
    assert CacheOk(s1);
    InsertLru(c, s1, t, |s.pols|);
  }

  // ---------- steps ----------

  predicate CacheStep(step: Step) {
    step.Lookup? || step.LeaderCheck? || step.WorkerInsert? || step.ReloadInsert?
  }

  predicate OtherReload(step: Step) {
    || step.ReloadBegin? || step.ReloadRead? || step.ReloadLookup? || step.ReloadAim? || step.ReloadLock?
    || step.ReloadWrite? || step.ReloadUnlock?
  }

  ghost predicate SameLru(s: State, s': State) {
    s'.lru == s.lru && s'.entries == s.entries && s'.cacheOps == s.cacheOps
  }

  lemma RequestsLeaveCache(c: Config, s: State, step: Step)
    requires Enabled(c, s, step) && !CacheStep(step) && !OtherReload(step)
    ensures SameLru(s, Next(c, s, step))
  {}

  lemma ReloadsLeaveCache(c: Config, s: State, step: Step)
    requires Enabled(c, s, step) && OtherReload(step)
    ensures SameLru(s, Next(c, s, step))
  {}

  lemma CacheStepLru(c: Config, s: State, step: Step)
    requires c.cap > 0 && LruOk(c, s) && CacheOk(s) && Enabled(c, s, step) && CacheStep(step)
    ensures LruOk(c, Next(c, s, step))
  {
    match step
    case Lookup(r) => TouchLru(c, s, s.reqs[r].q.tenant);
    case LeaderCheck(f) => TouchLru(c, s, s.flights[f].tenant);
    case WorkerInsert(w) =>
      if s.workers[w].got.Value? { InsertNewLru(c, s, s.jobs[s.workers[w].job].tenant, s.workers[w].got.policy); }
    case ReloadInsert(l) => InsertNewLru(c, s, s.reloads[l].tenant, s.reloads[l].next);
  }

  lemma StepLru(c: Config, s: State, step: Step)
    requires c.cap > 0 && LruOk(c, s) && CacheOk(s) && Enabled(c, s, step)
    ensures LruOk(c, Next(c, s, step))
  {
    if CacheStep(step) {
      CacheStepLru(c, s, step);
    } else if OtherReload(step) {
      ReloadsLeaveCache(c, s, step);
    } else {
      RequestsLeaveCache(c, s, step);
    }
  }

  lemma {:induction false} RunLru(c: Config, s: State, steps: seq<Step>, s': State)
    requires c.cap > 0 && Inv(c, s) && LruOk(c, s) && Runs(c, s, steps, s')
    ensures LruOk(c, s')
    decreases steps
  {
    if steps != [] {
      StepLru(c, s, steps[0]);
      StepSafe(c, s, steps[0]);
      RunLru(c, Next(c, s, steps[0]), steps[1..], s');
    }
  }

  /**
   * In every interleaving, the cache lists exactly the CacheSize most recently touched distinct tenants, latest
   * first, each with the policy object inserted for it last.
   */
  lemma CacheIsLru(c: Config, steps: seq<Step>, s: State)
    requires c.cap > 0 && Runs(c, Init(c), steps, s)
    ensures ViewOf(s.lru, s.entries) == Run(s.cacheOps, c.cap) && |s.lru| <= c.cap && Distinct(s.lru)
    ensures Tenants(s.lru) == Truncate(Recent(Touched(s.cacheOps, c.cap)), c.cap)
  {
    RunLru(c, Init(c), steps, s);
    LruOverRuns(s.cacheOps, c.cap);
    DistinctView(s.lru, s.entries);
    assert Tenants(s.lru) == Tenants(ViewOf(s.lru, s.entries));
  }
}
