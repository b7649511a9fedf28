/** What coalescing gives: one leader, one result for all who join, and few cold loads (policy/registry.go:141-178). */
module RegistryBound {
  import opened Text
  import opened LruSpec
  import opened Registry
  import opened RegistryJobs
  import opened RegistryCalls

  /** The tenant's call has decided to make a job and not made it yet. */
  predicate AboutToLoad(s: State, t: int) {
    t in s.group && s.group[t] < |s.flights| && s.flights[s.group[t]].phase.Creating?
  }

  /** The tenant's call waits for a job whose load is not finished. */
  predicate LoadUnderWay(s: State, t: int) {
    && t in s.group && s.group[t] < |s.flights| && s.flights[s.group[t]].phase.Waiting?
    && s.flights[s.group[t]].phase.job < |s.jobs| && !s.jobs[s.flights[s.group[t]].phase.job].loaded
  }

  /** One job is paid for by the policy being in the cache, or by a load that will put it there. */
  function Credit(s: State, t: int): nat {
    One(!AboutToLoad(s, t) && (Has(s.lru, t) || LoadUnderWay(s, t)))
  }

  function Losses(s: State, t: int): nat {
    s.evicted[t] + s.failed[t] + s.timedOut[t]
  }

  ghost predicate BoundAt(s: State, t: int) {
    s.created[t] <= Losses(s, t) + Credit(s, t)
  }

  // ---------- the cache ----------

  lemma HasMeans<V>(s: seq<Slot<V>>, t: int)
    ensures Has(s, t) <==> exists i :: 0 <= i < |s| && s[i].tenant == t
  {}

  lemma FrontHas<V>(s: seq<Slot<V>>, k: nat, x: int)
    requires k < |s|
    ensures Has(s, x) ==> Has([s[k]] + Without(s, k), x)
  {
    if Has(s, x) {
      var i, moved := Find(s, x), [s[k]] + Without(s, k);
      var m := if i < k then i + 1 else if i == k then 0 else i;
      FrontSlots(s, k, s[k]);
      assert i == From(k, m) && moved[m] == s[i];
      HasMeans(moved, x);
    }
  }

  lemma FrontHad<V>(s: seq<Slot<V>>, k: nat, x: int)
    requires k < |s|
    ensures Has([s[k]] + Without(s, k), x) ==> Has(s, x)
  {
    var moved := [s[k]] + Without(s, k);
    if Has(moved, x) {
      var m := Find(moved, x);
      FrontSlots(s, k, s[k]);
      assert moved[m] == s[From(k, m)];
      HasMeans(s, x);
    }
  }

  lemma TouchHas<V>(s: seq<Slot<V>>, t: int, x: int)
    ensures Has(Touch(s, t), x) == Has(s, x)
  {
    if Has(s, t) {
      FrontHas(s, Find(s, t), x);
      FrontHad(s, Find(s, t), x);
    }
  }

  /** A tenant that drops out of the cache is counted as evicted. */
  lemma TruncateHas<V>(s: seq<Slot<V>>, cap: nat, x: int)
    requires Has(s, x)
    ensures Has(Truncate(s, cap), x) || multiset(Tenants(s[|Truncate(s, cap)|..]))[x] > 0
  {
    var kept := Truncate(s, cap);
    var k := Find(s, x);
    if k < |kept| {
      assert kept[k].tenant == x;
      HasMeans(kept, x);
    } else {
      var out := Tenants(s[|kept|..]);
      assert out[k - |kept|] == x;
      assert x in multiset(out);
    }
  }

  lemma InsertCounts(s: State, t: int, p: nat, cap: nat, x: int)
    ensures var s' := InsertEntry(s, t, p, cap);
      && s.evicted[x] <= s'.evicted[x]
      && (Has(s.lru, x) || x == t ==> Has(s'.lru, x) || s.evicted[x] < s'.evicted[x])
  {
    if Has(s.lru, t) {
      TouchHas(s.lru, t, x);
    } else if Has(s.lru, x) || x == t {
      var full := [Slot(t, |s.entries|)] + s.lru;
      HasMeans(s.lru, x);
      HasMeans(full, x);
      if x == t { assert full[0].tenant == x; } else { assert full[Find(s.lru, x) + 1].tenant == x; }
      TruncateHas(full, cap, x);
    }
  }

  // ---------- steps ----------

  ghost predicate SameBound(s: State, s': State) {
    && s'.lru == s.lru && s'.group == s.group && s'.flights == s.flights && s'.jobs == s.jobs
    && s'.created == s.created && s'.evicted == s.evicted && s'.failed == s.failed && s'.timedOut == s.timedOut
  }

  lemma SameBoundAt(s: State, s': State, t: int)
    requires SameBound(s, s') && BoundAt(s, t)
    ensures BoundAt(s', t)
  {}

  predicate QuietRequest(step: Step) {
    || step.Publish? || step.Begin? || step.JoinerReturn?
    || step.ReadLock? || step.ReadAst? || step.ReadOrder? || step.ReadDefault?
  }

  predicate QuietLoad(step: Step) {
    || step.HelperSend? || step.WorkerTake? || step.WorkerRead? || step.ReloadBegin? || step.ReloadRead?
    || step.ReloadLookup? || step.ReloadAim? || step.ReloadLock? || step.ReloadWrite? || step.ReloadUnlock?
  }

  lemma QuietRequests(c: Config, s: State, step: Step)
    requires Enabled(c, s, step) && QuietRequest(step)
    ensures SameBound(s, Next(c, s, step))
  {}

  lemma QuietLoads(c: Config, s: State, step: Step)
    requires Enabled(c, s, step) && QuietLoad(step)
    ensures SameBound(s, Next(c, s, step))
  {}

  lemma LookupBound(s: State, r: nat, t: int)
    requires r < |s.reqs| && s.reqs[r].Start? && BoundAt(s, t)
    ensures BoundAt(DoLookup(s, r), t)
  {
    TouchHas(s.lru, s.reqs[r].q.tenant, t);
  }

  lemma EnterFlightBound(s: State, r: nat, t: int)
    requires CallsOk(s) && r < |s.reqs| && s.reqs[r].Missed? && BoundAt(s, t)
    ensures BoundAt(DoEnterFlight(s, r), t)
  {
    if t in s.group { assert GroupOk(s.flights, t, s.group[t]); }
  }

  /** Only the tenant whose call it is sees the call change. */
  lemma OwnCall(s: State, f: nat, t: int)
    requires CallsOk(s) && f < |s.flights| && !s.flights[f].phase.Left?
    ensures s.flights[f].tenant in s.group && s.group[s.flights[f].tenant] == f
    ensures t in s.group && t != s.flights[f].tenant ==> s.group[t] != f
    ensures s.flights[f].phase.Waiting? ==>
      var j := s.flights[f].phase.job; j < |s.jobs| && s.jobs[j].flight == f && s.jobs[j].tenant == s.flights[f].tenant
  {
    assert FlightCall(s.group, s.flights, s.reqs, s.jobs, f);
    if t in s.group { assert GroupOk(s.flights, t, s.group[t]); }
    if s.flights[f].phase.Waiting? { assert JobCall(s.flights, s.jobs, s.timedOut, s.flights[f].phase.job); }
  }

  lemma LeaderCheckBound(s: State, f: nat, t: int)
    requires CallsOk(s) && f < |s.flights| && s.flights[f].phase.Entered? && BoundAt(s, t)
    ensures BoundAt(DoLeaderCheck(s, f), t)
  {
    OwnCall(s, f, t);
    TouchHas(s.lru, s.flights[f].tenant, t);
  }

  /** The jobs two calls wait for differ. */
  lemma WaitedJobIsOwn(s: State, f: nat, t: int)
    requires CallsOk(s) && f < |s.flights| && s.flights[f].phase.Waiting? && t in s.group && t != s.flights[f].tenant
    ensures s.group[t] < |s.flights| && s.group[t] != f && s.flights[s.group[t]].phase != s.flights[f].phase
  {
    OwnCall(s, f, t);
    assert GroupOk(s.flights, t, s.group[t]);
    OwnCall(s, s.group[t], t);
  }

  lemma LeaderSendBound(c: Config, s: State, f: nat, t: int)
    requires CallsOk(s) && f < |s.flights| && s.flights[f].phase.Creating? && BoundAt(s, t)
    ensures BoundAt(DoLeaderSend(s, f, c.cap), t)
  {
    OwnCall(s, f, t);
    if t in s.group && t != s.flights[f].tenant {
      assert GroupOk(s.flights, t, s.group[t]);
      OwnCall(s, s.group[t], t);
    }
  }

  lemma LeaderReceiveBound(s: State, f: nat, t: int)
    requires CallsOk(s) && JobsOk(s) && f < |s.flights| && s.flights[f].phase.Waiting?
    requires s.flights[f].phase.job < |s.jobs|
    requires s.jobs[s.flights[f].phase.job].chan != [] && BoundAt(s, t)
    ensures BoundAt(DoLeaderReceive(s, f), t)
  {
    OwnCall(s, f, t);
    ReceiveConsumes(s, s.flights[f].phase.job);
    if t in s.group && t != s.flights[f].tenant { WaitedJobIsOwn(s, f, t); }
  }

  lemma LeaderTimeoutBound(s: State, f: nat, t: int)
    requires CallsOk(s) && f < |s.flights| && s.flights[f].phase.Waiting? && BoundAt(s, t)
    ensures BoundAt(DoLeaderTimeout(s, f), t)
  {
    OwnCall(s, f, t);
  }

  lemma LeaderLeaveBound(s: State, f: nat, t: int)
    requires CallsOk(s) && f < |s.flights| && s.flights[f].phase.Ended? && s.flights[f].leader < |s.reqs|
    requires BoundAt(s, t)
    ensures BoundAt(DoLeaderLeave(s, f), t)
  {
    OwnCall(s, f, t);
  }

  lemma ReloadInsertBound(c: Config, s: State, l: nat, t: int)
    requires l < |s.reloads| && s.reloads[l].RAbsent? && BoundAt(s, t)
    ensures BoundAt(DoReloadInsert(s, l, c.cap), t)
  {
    var x := s.reloads[l];
    InsertCounts(s.(pols := s.pols + [Pol(x.tenant, x.next, {}, None)]), x.tenant, |s.pols|, c.cap, t);
  }

  /** A finished load either put its tenant into the cache or is counted. */
  lemma WorkerInsertBound(c: Config, s: State, w: nat, t: int)
    requires CallsOk(s) && w < |s.workers| && s.workers[w].HasRead? && s.workers[w].job < |s.jobs| && BoundAt(s, t)
    ensures BoundAt(DoWorkerInsert(s, w, c.cap), t)
  {
    var j := s.workers[w].job;
    var own := s.jobs[j].tenant;
    if t in s.group {
      assert GroupOk(s.flights, t, s.group[t]);
      OwnCall(s, s.group[t], t);
    }
    match s.workers[w].got {
      case Value(v) => InsertCounts(s.(pols := s.pols + [Pol(own, v, {}, None)]), own, |s.pols|, c.cap, t);
      case Fail =>
    }
  }

  lemma WorkerAnswerBound(s: State, w: nat, t: int)
    requires w < |s.workers| && s.workers[w].HasInserted? && s.workers[w].job < |s.jobs| && BoundAt(s, t)
    ensures BoundAt(DoWorkerAnswer(s, w), t)
  {}

  predicate CallStep(step: Step) {
    || step.Lookup? || step.EnterFlight? || step.LeaderCheck? || step.LeaderSend? || step.LeaderReceive?
    || step.LeaderTimeout? || step.LeaderLeave?
  }

  lemma CallStepBound(c: Config, s: State, step: Step, t: int)
    requires CallsOk(s) && JobsOk(s) && Enabled(c, s, step) && BoundAt(s, t) && CallStep(step)
    ensures BoundAt(Next(c, s, step), t)
  {
    match step
    case Lookup(r) => LookupBound(s, r, t);
    case EnterFlight(r) => EnterFlightBound(s, r, t);
    case LeaderCheck(f) => LeaderCheckBound(s, f, t);
    case LeaderSend(f) => LeaderSendBound(c, s, f, t);
    case LeaderReceive(f) => LeaderReceiveBound(s, f, t);
    case LeaderTimeout(f) => LeaderTimeoutBound(s, f, t);
    case LeaderLeave(f) => LeaderLeaveBound(s, f, t);
  }

  lemma StepBound(c: Config, s: State, step: Step, t: int)
    requires CallsOk(s) && JobsOk(s) && Enabled(c, s, step) && BoundAt(s, t)
    ensures BoundAt(Next(c, s, step), t)
  {
    if CallStep(step) {
      CallStepBound(c, s, step, t);
    } else if step.WorkerInsert? {
      WorkerInsertBound(c, s, step.w, t);
    } else if step.WorkerAnswer? {
      WorkerAnswerBound(s, step.w, t);
    } else if step.ReloadInsert? {
      ReloadInsertBound(c, s, step.l, t);
    } else {
      if QuietRequest(step) { QuietRequests(c, s, step); } else { QuietLoads(c, s, step); }
      SameBoundAt(s, Next(c, s, step), t);
    }
  }

  lemma {:induction false} RunBound(c: Config, s: State, steps: seq<Step>, s': State, t: int)
    requires CallsOk(s) && JobsOk(s) && BoundAt(s, t) && Runs(c, s, steps, s')
    ensures CallsOk(s') && JobsOk(s') && BoundAt(s', t)
    decreases steps
  {
    if steps != [] {
      StepBound(c, s, steps[0], t);
      StepCalls(c, s, steps[0]);
      StepJobs(c, s, steps[0]);
      RunBound(c, Next(c, s, steps[0]), steps[1..], s', t);
    }
  }

  lemma Reached(c: Config, steps: seq<Step>, s: State)
    requires Runs(c, Init(c), steps, s)
    ensures CallsOk(s) && JobsOk(s)
  {
    InitJobs(c);
    RunCalls(c, Init(c), steps, s);
  }

  // ---------- what holds in every run ----------

  /** In every run, the jobs made for a tenant are at most one more than its evictions, failed loads and timeouts. */
  lemma ColdLoadBound(c: Config, steps: seq<Step>, s: State, t: int)
    requires Runs(c, Init(c), steps, s)
    ensures s.created[t] <= 1 + s.evicted[t] + s.failed[t] + s.timedOut[t]
  {
    InitJobs(c);
    RunBound(c, Init(c), steps, s, t);
  }

  predicate InProgress(s: State, f: nat, t: int) {
    f < |s.flights| && s.flights[f].tenant == t && !s.flights[f].phase.Left?
  }

  predicate Leads(s: State, r: nat, f: nat) {
    r < |s.reqs| && s.reqs[r].Leading? && s.reqs[r].flight == f
  }

  /** At every moment a tenant has at most one call in progress, and exactly one request leads it. */
  lemma OneLeader(c: Config, steps: seq<Step>, s: State, t: int, f: nat)
    requires Runs(c, Init(c), steps, s) && InProgress(s, f, t)
    ensures forall g :: InProgress(s, g, t) ==> g == f
    ensures Leads(s, s.flights[f].leader, f) && forall r :: Leads(s, r, f) ==> r == s.flights[f].leader
  {
    Reached(c, steps, s);
    assert FlightCall(s.group, s.flights, s.reqs, s.jobs, f);
    forall g | InProgress(s, g, t) ensures g == f { OwnCall(s, g, t); }
    forall r | Leads(s, r, f) ensures r == s.flights[f].leader { assert LeaderCall(s.flights, s.reqs, r); }
  }

  /** While no load of a tenant has timed out, at most one of its jobs is outstanding. */
  lemma OneOutstandingJob(c: Config, steps: seq<Step>, s: State, i: nat, j: nat)
    requires Runs(c, Init(c), steps, s)
    requires i < |s.jobs| && j < |s.jobs| && s.jobs[i].tenant == s.jobs[j].tenant && s.timedOut[s.jobs[i].tenant] == 0
    requires !Consumed(s.jobs[i]) && !Consumed(s.jobs[j])
    ensures i == j
  {
    Reached(c, steps, s);
    assert JobCall(s.flights, s.jobs, s.timedOut, i) && JobCall(s.flights, s.jobs, s.timedOut, j);
    OwnCall(s, s.jobs[i].flight, 0);
    OwnCall(s, s.jobs[j].flight, 0);
  }

  // ---------- one result for the leader and all who joined ----------

  /** A call that is over keeps its result. */
  lemma LeftStays(c: Config, s: State, step: Step, f: nat)
    requires CallsOk(s) && Enabled(c, s, step) && f < |s.flights| && s.flights[f].phase.Left?
    ensures var s' := Next(c, s, step); f < |s'.flights| && s'.flights[f] == s.flights[f]
  {
    if ReloadStep(step) {
      ReloadsLeaveCalls(c, s, step);
    } else if LoaderStep(step) {
      LoaderLeavesCalls(c, s, step);
    }
  }

  lemma {:induction false} LeftForGood(c: Config, s: State, steps: seq<Step>, s': State, f: nat)
    requires CallsOk(s) && JobsOk(s) && Runs(c, s, steps, s') && f < |s.flights| && s.flights[f].phase.Left?
    ensures f < |s'.flights| && s'.flights[f] == s.flights[f]
    decreases steps
  {
    if steps != [] {
      LeftStays(c, s, steps[0], f);
      StepCalls(c, s, steps[0]);
      StepJobs(c, s, steps[0]);
      LeftForGood(c, Next(c, s, steps[0]), steps[1..], s', f);
    }
  }

  /** When a call ends its leader can always leave, and takes the result with it. */
  lemma LeaderTakesTheResult(c: Config, steps: seq<Step>, s: State, f: nat)
    requires Runs(c, Init(c), steps, s) && f < |s.flights| && s.flights[f].phase.Ended?
    ensures Enabled(c, s, LeaderLeave(f))
    ensures var x := s.flights[f];
      Next(c, s, LeaderLeave(f)).reqs[x.leader] == Returned(s.reqs[x.leader].q, x.phase.res)
  {
    Reached(c, steps, s);
    assert FlightCall(s.group, s.flights, s.reqs, s.jobs, f);
  }

  /** Whoever joined a call gets the result its leader left with, however much later it returns. */
  lemma JoinersShareTheResult(c: Config, before: seq<Step>, s: State, f: nat, after: seq<Step>, s': State, r: nat)
    requires Runs(c, Init(c), before, s) && f < |s.flights| && s.flights[f].phase.Left?
    requires Runs(c, s, after, s') && r < |s'.reqs| && s'.reqs[r].Joined? && s'.reqs[r].flight == f
    ensures Enabled(c, s', JoinerReturn(r))
    ensures Next(c, s', JoinerReturn(r)).reqs[r] == Returned(s'.reqs[r].q, s.flights[f].phase.res)
  {
    Reached(c, before, s);
    LeftForGood(c, s, after, s', f);
  }
}
