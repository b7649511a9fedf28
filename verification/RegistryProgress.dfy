/** No request and no reload is ever stuck: from every reachable state each of them can be brought to its end. */
module RegistryProgress {
  import opened Text
  import opened Policy
  import opened TenantDecide
  import opened LruSpec
  import opened Registry
  import opened RegistrySafety
  import opened RegistryJobs
  import opened RegistryCalls
  import opened RegistryStale
  import opened RegistryRefusals
  import opened RegistryHistory
  import RegistryBound

  // ---------- a miss that finds the tenant cached after all ----------

  lemma MissedGets(c: Config, s: State, r: nat) returns (steps: seq<Step>, s': State)
    requires r < |s.reqs| && s.reqs[r].Missed? && Has(s.lru, s.reqs[r].q.tenant) && s.reqs[r].q.tenant !in s.group
    ensures Runs(c, s, steps, s') && |s'.reqs| == |s.reqs| && forall i :: 0 <= i < |steps| ==> !steps[i].Publish?
    ensures s'.reqs[r] == Got(s.reqs[r].q, CachedPol(s, s.reqs[r].q.tenant)) && s'.pols == s.pols
  {
    var q, f := s.reqs[r].q, |s.flights|;
    var s1 := DoEnterFlight(s, r);
    assert s1.flights[f] == Flight(q.tenant, r, Entered) && s1.reqs[r] == Leading(q, f);
    assert s1.lru == s.lru && s1.entries == s.entries && s1.pols == s.pols;
    TwoSteps(c, s, EnterFlight(r), s1, LeaderCheck(f), DoLeaderCheck(s1, f));
    var s2 := DoLeaderCheck(s1, f);
    assert s2.flights[f] == Flight(q.tenant, r, Ended(Hit(CachedPol(s, q.tenant)))) && s2.reqs == s1.reqs;
    s' := DoLeaderLeave(s2, f);
    OneStep(c, s2, LeaderLeave(f), s');
    RunsConcat(c, s, [EnterFlight(r), LeaderCheck(f)], s2, [LeaderLeave(f)], s');
    steps := [EnterFlight(r), LeaderCheck(f)] + [LeaderLeave(f)];
  }

  /**
   * A request that missed, of a tenant that has been cached since and has no call in progress, leads a call of its own
   * and is answered from the object the cache holds.
   */
  lemma MissedIsAnswered(c: Config, s: State, r: nat) returns (steps: seq<Step>, s': State)
    requires r < |s.reqs| && s.reqs[r].Missed? && Has(s.lru, s.reqs[r].q.tenant) && s.reqs[r].q.tenant !in s.group
    requires var p := CachedPol(s, s.reqs[r].q.tenant); p < |s.pols| && s.pols[p].writer.None?
    ensures Runs(c, s, steps, s') && |s'.reqs| == |s.reqs| && forall i :: 0 <= i < |steps| ==> !steps[i].Publish?
    ensures var q := s.reqs[r].q;
      s'.reqs[r] == Answered(q, Decide(c.rx, s.pols[CachedPol(s, q.tenant)].fields, q.domain, q.verb))
  {
    var first, s1 := MissedGets(c, s, r);
    var rest;
    rest, s' := ReadAnswers(c, s1, r, s.reqs[r].q, CachedPol(s, s.reqs[r].q.tenant));
    RunsConcat(c, s, first, s1, rest, s');
    steps := first + rest;
  }

  // ---------- who holds the read locks ----------

  /** Whoever holds a read lock is reading that object, and has not read past its last field. */
  ghost predicate Locks(pols: seq<Pol>, reqs: seq<Req>) {
    && (forall p, r :: 0 <= p < |pols| && r in pols[p].readers ==> ReadsFrom(reqs, r, p))
    && (forall r :: 0 <= r < |reqs| && reqs[r].Reading? ==> reqs[r].stage <= 2)
  }

  predicate ReadsFrom(reqs: seq<Req>, r: nat, p: nat) {
    r < |reqs| && reqs[r].Reading? && reqs[r].pol == p
  }

  ghost predicate LocksOk(s: State) {
    Locks(s.pols, s.reqs)
  }

  lemma SetReqLocks(s: State, r: nat, x: Req)
    requires LocksOk(s) && r < |s.reqs| && !s.reqs[r].Reading? && !x.Reading?
    ensures LocksOk(SetReq(s, r, x))
  {}

  lemma ReadStageLocks(s: State, r: nat, x: Req)
    requires LocksOk(s) && r < |s.reqs| && s.reqs[r].Reading? && x.Reading? && x.pol == s.reqs[r].pol && x.stage <= 2
    ensures LocksOk(SetReq(s, r, x))
  {}

  lemma ReadLockLocks(s: State, r: nat)
    requires LocksOk(s) && r < |s.reqs| && s.reqs[r].Got? && s.reqs[r].pol < |s.pols|
    ensures LocksOk(DoReadLock(s, r))
  {}

  lemma ReadDefaultLocks(c: Config, s: State, r: nat)
    requires LocksOk(s) && r < |s.reqs| && s.reqs[r].Reading? && s.reqs[r].pol < |s.pols|
    ensures LocksOk(DoReadDefault(c, s, r))
  {}

  lemma NewPolLocks(pols: seq<Pol>, reqs: seq<Req>, x: Pol)
    requires Locks(pols, reqs) && x.readers == {}
    ensures Locks(pols + [x], reqs)
  {}

  lemma SetPolLocks(pols: seq<Pol>, reqs: seq<Req>, p: nat, x: Pol)
    requires Locks(pols, reqs) && p < |pols| && x.readers == pols[p].readers
    ensures Locks(pols[p := x], reqs)
  {}

  ghost predicate SameLocks(s: State, s': State) {
    s'.pols == s.pols && s'.reqs == s.reqs
  }

  predicate AddsPol(step: Step) {
    step.WorkerInsert? || step.ReloadInsert?
  }

  predicate Swaps(step: Step) {
    step.ReloadLock? || step.ReloadWrite? || step.ReloadUnlock?
  }

  predicate Looks(step: Step) {
    step.Begin? || step.Lookup? || step.EnterFlight? || step.LeaderLeave? || step.JoinerReturn?
  }

  predicate Reads(step: Step) {
    step.ReadLock? || step.ReadAst? || step.ReadOrder? || step.ReadDefault?
  }

  lemma OthersKeepLocks(c: Config, s: State, step: Step)
    requires Enabled(c, s, step) && !AddsPol(step) && !Swaps(step) && !Looks(step) && !Reads(step)
    ensures SameLocks(s, Next(c, s, step))
  {}

  lemma WorkerAddsPol(c: Config, s: State, w: nat)
    requires Enabled(c, s, WorkerInsert(w)) && LocksOk(s)
    ensures LocksOk(DoWorkerInsert(s, w, c.cap))
  {
    var x := s.workers[w];
    if x.got.Value? { NewPolLocks(s.pols, s.reqs, Pol(s.jobs[x.job].tenant, x.got.policy, {}, None)); }
  }

  lemma ReloadAddsPol(c: Config, s: State, l: nat)
    requires Enabled(c, s, ReloadInsert(l)) && LocksOk(s)
    ensures LocksOk(DoReloadInsert(s, l, c.cap))
  {
    NewPolLocks(s.pols, s.reqs, Pol(s.reloads[l].tenant, s.reloads[l].next, {}, None));
  }

  lemma SwapsKeepLocks(c: Config, s: State, step: Step)
    requires Enabled(c, s, step) && Swaps(step) && LocksOk(s)
    ensures LocksOk(Next(c, s, step))
  {
    var p := s.reloads[step.l].pol;
    SetPolLocks(s.pols, s.reqs, p, Next(c, s, step).pols[p]);
  }

  lemma LooksKeepLocks(c: Config, s: State, step: Step)
    requires Enabled(c, s, step) && Looks(step) && LocksOk(s)
    ensures LocksOk(Next(c, s, step))
  {
    match step
    case Begin(q) =>
    case Lookup(r) => SetReqLocks(s, r, DoLookup(s, r).reqs[r]);
    case EnterFlight(r) => SetReqLocks(s, r, DoEnterFlight(s, r).reqs[r]);
    case LeaderLeave(f) =>
      var r := s.flights[f].leader;
      SetReqLocks(s, r, DoLeaderLeave(s, f).reqs[r]);
    case JoinerReturn(r) => SetReqLocks(s, r, DoJoinerReturn(s, r).reqs[r]);
  }

  lemma ReadsKeepLocks(c: Config, s: State, step: Step)
    requires Enabled(c, s, step) && Reads(step) && LocksOk(s)
    ensures LocksOk(Next(c, s, step))
  {
    match step
    case ReadLock(r) => ReadLockLocks(s, r);
    case ReadAst(r) => ReadStageLocks(s, r, Next(c, s, step).reqs[r]);
    case ReadOrder(r) => ReadStageLocks(s, r, Next(c, s, step).reqs[r]);
    case ReadDefault(r) => ReadDefaultLocks(c, s, r);
  }

  lemma StepLocks(c: Config, s: State, step: Step)
    requires LocksOk(s) && Enabled(c, s, step)
    ensures LocksOk(Next(c, s, step))
  {
    if step.WorkerInsert? {
      WorkerAddsPol(c, s, step.w);
    } else if step.ReloadInsert? {
      ReloadAddsPol(c, s, step.l);
    } else if Swaps(step) {
      SwapsKeepLocks(c, s, step);
    } else if Looks(step) {
      LooksKeepLocks(c, s, step);
    } else if Reads(step) {
      ReadsKeepLocks(c, s, step);
    } else {
      OthersKeepLocks(c, s, step);
    }
  }

  lemma {:induction false} RunLocks(c: Config, s: State, steps: seq<Step>, s': State)
    requires LocksOk(s) && Runs(c, s, steps, s')
    ensures LocksOk(s')
    decreases steps
  {
    if steps != [] {
      StepLocks(c, s, steps[0]);
      RunLocks(c, Next(c, s, steps[0]), steps[1..], s');
    }
  }

  // ---------- runs that only bring things to their end ----------

  /** What holds in every reachable state of a registry that can cache and load. */
  ghost predicate Good(c: Config, s: State) {
    Inv(c, s) && CallsOk(s) && JobsOk(s) && LocksOk(s) && c.cap > 0 && |s.workers| > 0
  }

  /** Nothing new comes in, no file changes and nobody stops waiting. */
  predicate Quiet(step: Step) {
    !step.Publish? && !step.Begin? && !step.ReloadBegin? && !step.LeaderTimeout?
  }

  ghost predicate QuietRun(c: Config, s: State, steps: seq<Step>, s': State) {
    Runs(c, s, steps, s') && forall i :: 0 <= i < |steps| ==> Quiet(steps[i])
  }

  lemma StepGood(c: Config, s: State, step: Step)
    requires Good(c, s) && Enabled(c, s, step)
    ensures Good(c, Next(c, s, step))
  {
    StepSafe(c, s, step);
    StepCalls(c, s, step);
    StepJobs(c, s, step);
    StepLocks(c, s, step);
    RunsOne(c, s, step);
    RunJobs(c, s, [step], Next(c, s, step));
  }

  lemma {:induction false} RunGood(c: Config, s: State, steps: seq<Step>, s': State)
    requires Good(c, s) && Runs(c, s, steps, s')
    ensures Good(c, s')
    decreases steps
  {
    if steps != [] {
      StepGood(c, s, steps[0]);
      RunGood(c, Next(c, s, steps[0]), steps[1..], s');
    }
  }

  lemma ReachedGood(c: Config, before: seq<Step>, s: State)
    requires c.cap > 0 && c.workers > 0 && Runs(c, Init(c), before, s)
    ensures Good(c, s)
  {
    RunSafe(c, Init(c), before, s);
    RegistryBound.Reached(c, before, s);
    InitJobs(c);
    RunJobs(c, Init(c), before, s);
    RunLocks(c, Init(c), before, s);
  }

  lemma QuietOne(c: Config, s: State, step: Step)
    requires Good(c, s) && Enabled(c, s, step) && Quiet(step)
    ensures QuietRun(c, s, [step], Next(c, s, step)) && Good(c, Next(c, s, step))
  {
    RunsOne(c, s, step);
    StepGood(c, s, step);
  }

  lemma QuietConcat(c: Config, a: State, xs: seq<Step>, b: State, ys: seq<Step>, d: State)
    requires QuietRun(c, a, xs, b) && QuietRun(c, b, ys, d)
    ensures QuietRun(c, a, xs + ys, d)
  {
    RunsConcat(c, a, xs, b, ys, d);
  }

  // ---------- locks ----------

  lemma WriteEffect(c: Config, s: State, l: nat)
    requires Enabled(c, s, ReloadWrite(l))
    ensures var s', x := Next(c, s, ReloadWrite(l)), s.reloads[l];
      && s'.reqs == s.reqs && s'.reloads == s.reloads[l := x.(stage := x.stage + 1)] && |s'.pols| == |s.pols|
      && forall p :: 0 <= p < |s.pols| ==> s'.pols[p].readers == s.pols[p].readers
  {}

  lemma UnlockEffect(c: Config, s: State, l: nat)
    requires Enabled(c, s, ReloadUnlock(l))
    ensures var s', x := Next(c, s, ReloadUnlock(l)), s.reloads[l];
      && s'.reqs == s.reqs && s'.reloads == s.reloads[l := RDone(x.tenant, true)] && |s'.pols| == |s.pols|
      && s'.pols[x.pol].writer.None? && forall p :: 0 <= p < |s.pols| ==> s'.pols[p].readers == s.pols[p].readers
  {}

  /** A reload that holds a write lock can finish and release it. */
  lemma {:induction false} WriterFinishes(c: Config, s: State, l: nat) returns (steps: seq<Step>, s': State)
    requires Good(c, s) && l < |s.reloads| && s.reloads[l].RWriting?
    ensures QuietRun(c, s, steps, s') && Good(c, s') && s'.reqs == s.reqs && |s'.pols| == |s.pols|
    ensures s'.reloads == s.reloads[l := RDone(s.reloads[l].tenant, true)] && s.reloads[l].pol < |s.pols|
    ensures s'.pols[s.reloads[l].pol].writer.None?
    ensures forall p :: 0 <= p < |s.pols| ==> s'.pols[p].readers == s.pols[p].readers
    decreases 4 - s.reloads[l].stage
  {
    WriterEnabled(c, s, l);
    if s.reloads[l].stage < 4 {
      var s1 := Next(c, s, ReloadWrite(l));
      QuietOne(c, s, ReloadWrite(l));
      WriteEffect(c, s, l);
      var rest;
      rest, s' := WriterFinishes(c, s1, l);
      QuietConcat(c, s, [ReloadWrite(l)], s1, rest, s');
      steps := [ReloadWrite(l)] + rest;
    } else {
      s' := Next(c, s, ReloadUnlock(l));
      QuietOne(c, s, ReloadUnlock(l));
      UnlockEffect(c, s, l);
      steps := [ReloadUnlock(l)];
    }
  }

  lemma WriterEnabled(c: Config, s: State, l: nat)
    requires Good(c, s) && l < |s.reloads| && s.reloads[l].RWriting?
    ensures s.reloads[l].stage <= 4 && s.reloads[l].pol < |s.pols|
    ensures Enabled(c, s, if s.reloads[l].stage < 4 then ReloadWrite(l) else ReloadUnlock(l))
  {
    assert ReloadOk(s, l);
  }

  lemma FreeOfWriter(c: Config, s: State, p: nat) returns (steps: seq<Step>, s': State)
    requires Good(c, s) && p < |s.pols|
    ensures QuietRun(c, s, steps, s') && Good(c, s') && s'.reqs == s.reqs && |s'.pols| == |s.pols|
    ensures s'.pols[p].writer.None? && s'.pols[p].readers == s.pols[p].readers
    ensures |s'.reloads| == |s.reloads|
    ensures forall l :: 0 <= l < |s.reloads| && !s.reloads[l].RWriting? ==> s'.reloads[l] == s.reloads[l]
  {
    assert PolOk(s, p);
    if s.pols[p].writer.Some? {
      steps, s' := WriterFinishes(c, s, s.pols[p].writer.value);
    } else {
      steps, s' := [], s;
    }
  }

  // ---------- requests ----------

  predicate Over(x: Req) {
    x.Answered? || x.Refused?
  }

  /** The request is over, and no other has been touched. */
  ghost predicate Finishes(s: State, s': State, r: nat) {
    && r < |s.reqs| == |s'.reqs| && Over(s'.reqs[r]) && s'.reqs[r].q == s.reqs[r].q
  }

  lemma FieldEffect(c: Config, s: State, r: nat, step: Step)
    requires Enabled(c, s, step) && (step == ReadAst(r) || step == ReadOrder(r))
    ensures var s', x := Next(c, s, step), s.reqs[r];
      && s'.pols == s.pols && s'.reloads == s.reloads && |s'.reqs| == |s.reqs|
      && s'.reqs[r].Reading? && s'.reqs[r].q == x.q && s'.reqs[r].pol == x.pol && s'.reqs[r].stage == x.stage + 1
      && forall i :: 0 <= i < |s.reqs| && i != r ==> s'.reqs[i] == s.reqs[i]
  {}

  lemma LastReadEffect(c: Config, s: State, r: nat)
    requires Enabled(c, s, ReadDefault(r))
    ensures var s', x := Next(c, s, ReadDefault(r)), s.reqs[r];
      && s'.reloads == s.reloads && |s'.reqs| == |s.reqs| && s'.reqs[r].Answered? && s'.reqs[r].q == x.q
      && (forall i :: 0 <= i < |s.reqs| && i != r ==> s'.reqs[i] == s.reqs[i])
      && |s'.pols| == |s.pols| && (forall p :: 0 <= p < |s.pols| ==> s'.pols[p].writer == s.pols[p].writer)
      && forall p :: 0 <= p < |s.pols| ==>
        s'.pols[p].readers == if p == x.pol then s.pols[p].readers - {r} else s.pols[p].readers
  {}

  /** A request that reads finishes reading; nobody can stop it. */
  lemma {:induction false} ReadingFinishes(c: Config, s: State, r: nat) returns (steps: seq<Step>, s': State)
    requires Good(c, s) && r < |s.reqs| && s.reqs[r].Reading?
    ensures QuietRun(c, s, steps, s') && Good(c, s') && Finishes(s, s', r)
    ensures s'.reqs[r].Answered? && s.reqs[r].pol < |s.pols| == |s'.pols|
    ensures s'.reloads == s.reloads && forall i :: 0 <= i < |s.reqs| && i != r ==> s'.reqs[i] == s.reqs[i]
    ensures forall p :: 0 <= p < |s.pols| ==> s'.pols[p].writer == s.pols[p].writer
    ensures forall p :: 0 <= p < |s.pols| ==>
      s'.pols[p].readers == if p == s.reqs[r].pol then s.pols[p].readers - {r} else s.pols[p].readers
    decreases 2 - s.reqs[r].stage
  {
    assert ReqOk(c, s, r);
    if s.reqs[r].stage == 2 {
      s' := Next(c, s, ReadDefault(r));
      QuietOne(c, s, ReadDefault(r));
      LastReadEffect(c, s, r);
      steps := [ReadDefault(r)];
    } else {
      var step := if s.reqs[r].stage == 0 then ReadAst(r) else ReadOrder(r);
      var s1 := Next(c, s, step);
      QuietOne(c, s, step);
      FieldEffect(c, s, r, step);
      var rest;
      rest, s' := ReadingFinishes(c, s1, r);
      QuietConcat(c, s, [step], s1, rest, s');
      steps := [step] + rest;
    }
  }

  lemma ReadLockEffect(c: Config, s: State, r: nat)
    requires Enabled(c, s, ReadLock(r))
    ensures var s' := Next(c, s, ReadLock(r));
      |s'.reqs| == |s.reqs| && s'.reqs[r].Reading? && s'.reqs[r].q == s.reqs[r].q
  {}

  /** A request that has a policy object waits for its writer, if there is one, and is answered. */
  lemma GotFinishes(c: Config, s: State, r: nat) returns (steps: seq<Step>, s': State)
    requires Good(c, s) && r < |s.reqs| && s.reqs[r].Got?
    ensures QuietRun(c, s, steps, s') && Good(c, s') && Finishes(s, s', r)
  {
    assert ReqOk(c, s, r);
    var first, s1 := FreeOfWriter(c, s, s.reqs[r].pol);
    var s2 := Next(c, s1, ReadLock(r));
    QuietOne(c, s1, ReadLock(r));
    ReadLockEffect(c, s1, r);
    var rest;
    rest, s' := ReadingFinishes(c, s2, r);
    QuietConcat(c, s, first, s1, [ReadLock(r)], s2);
    QuietConcat(c, s, first + [ReadLock(r)], s2, rest, s');
    steps := first + [ReadLock(r)] + rest;
  }

  // ---------- calls ----------

  /** The call is over, its leader has its result, and every other request is where it was. */
  ghost predicate Leaves(s: State, s': State, f: nat) {
    && f < |s.flights| && f < |s'.flights| && s'.flights[f].phase.Left? && |s'.reqs| == |s.reqs|
    && var r := s.flights[f].leader;
    && r < |s.reqs| && (s'.reqs[r].Got? || s'.reqs[r].Refused?) && s'.reqs[r].q == s.reqs[r].q
    && forall i :: 0 <= i < |s.reqs| && i != r ==> s'.reqs[i] == s.reqs[i]
  }

  /** The call has moved on and no request has. */
  ghost predicate MovesOn(s: State, s': State, f: nat) {
    && f < |s.flights| == |s'.flights| && s'.reqs == s.reqs && s'.flights[f].leader == s.flights[f].leader
  }

  lemma EndedLeaves(c: Config, s: State, f: nat) returns (steps: seq<Step>, s': State)
    requires Good(c, s) && f < |s.flights| && s.flights[f].phase.Ended?
    ensures QuietRun(c, s, steps, s') && Good(c, s') && Leaves(s, s', f)
  {
    assert FlightCall(s.group, s.flights, s.reqs, s.jobs, f);
    s' := Next(c, s, LeaderLeave(f));
    QuietOne(c, s, LeaderLeave(f));
    steps := [LeaderLeave(f)];
  }

  lemma {:induction false} LoaderRunKeeps(c: Config, s: State, steps: seq<Step>, s': State)
    requires Runs(c, s, steps, s') && forall i :: 0 <= i < |steps| ==> LoaderStep(steps[i])
    ensures s'.flights == s.flights && s'.reqs == s.reqs && QuietRun(c, s, steps, s')
    decreases steps
  {
    if steps != [] {
      LoaderLeavesCalls(c, s, steps[0]);
      LoaderRunKeeps(c, Next(c, s, steps[0]), steps[1..], s');
    }
  }

  lemma ReceiveEffect(c: Config, s: State, f: nat)
    requires Enabled(c, s, LeaderReceive(f))
    ensures var s' := Next(c, s, LeaderReceive(f)); MovesOn(s, s', f) && s'.flights[f].phase.Ended?
  {}

  lemma WaitingEnds(c: Config, s: State, f: nat) returns (steps: seq<Step>, s': State)
    requires Good(c, s) && f < |s.flights| && s.flights[f].phase.Waiting?
    ensures QuietRun(c, s, steps, s') && Good(c, s') && MovesOn(s, s', f) && s'.flights[f].phase.Ended?
  {
    var first, s1 := LoaderCanFinish(c, s);
    LoaderRunKeeps(c, s, first, s1);
    RunGood(c, s, first, s1);
    assert FlightCall(s1.group, s1.flights, s1.reqs, s1.jobs, f) && s1.jobs[s1.flights[f].phase.job].answers == 1;
    s' := Next(c, s1, LeaderReceive(f));
    QuietOne(c, s1, LeaderReceive(f));
    ReceiveEffect(c, s1, f);
    QuietConcat(c, s, first, s1, [LeaderReceive(f)], s');
    steps := first + [LeaderReceive(f)];
  }

  lemma SendEffect(c: Config, s: State, f: nat)
    requires Enabled(c, s, LeaderSend(f))
    ensures var s' := Next(c, s, LeaderSend(f)); MovesOn(s, s', f) && s'.flights[f].phase.Waiting?
  {}

  lemma CreatingEnds(c: Config, s: State, f: nat) returns (steps: seq<Step>, s': State)
    requires Good(c, s) && f < |s.flights| && s.flights[f].phase.Creating?
    ensures QuietRun(c, s, steps, s') && Good(c, s') && MovesOn(s, s', f) && s'.flights[f].phase.Ended?
  {
    var s1 := Next(c, s, LeaderSend(f));
    QuietOne(c, s, LeaderSend(f));
    SendEffect(c, s, f);
    var rest;
    rest, s' := WaitingEnds(c, s1, f);
    QuietConcat(c, s, [LeaderSend(f)], s1, rest, s');
    steps := [LeaderSend(f)] + rest;
  }

  lemma CheckEffect(c: Config, s: State, f: nat)
    requires Enabled(c, s, LeaderCheck(f))
    ensures var s' := Next(c, s, LeaderCheck(f));
      MovesOn(s, s', f) && (s'.flights[f].phase.Ended? || s'.flights[f].phase.Creating?)
  {}

  lemma CallEnds(c: Config, s: State, f: nat) returns (steps: seq<Step>, s': State)
    requires Good(c, s) && f < |s.flights| && !s.flights[f].phase.Left?
    ensures QuietRun(c, s, steps, s') && Good(c, s') && MovesOn(s, s', f) && s'.flights[f].phase.Ended?
  {
    match s.flights[f].phase
    case Entered =>
      var s1 := Next(c, s, LeaderCheck(f));
      QuietOne(c, s, LeaderCheck(f));
      CheckEffect(c, s, f);
      var rest := [];
      s' := s1;
      if s1.flights[f].phase.Creating? { rest, s' := CreatingEnds(c, s1, f); }
      QuietConcat(c, s, [LeaderCheck(f)], s1, rest, s');
      steps := [LeaderCheck(f)] + rest;
    case Creating => steps, s' := CreatingEnds(c, s, f);
    case Waiting(_) => steps, s' := WaitingEnds(c, s, f);
    case Ended(_) => steps, s' := [], s;
  }

  /** A call in progress can be brought to its end, and its leader leaves with the result. */
  lemma CallLeaves(c: Config, s: State, f: nat) returns (steps: seq<Step>, s': State)
    requires Good(c, s) && f < |s.flights| && !s.flights[f].phase.Left?
    ensures QuietRun(c, s, steps, s') && Good(c, s') && Leaves(s, s', f)
  {
    var first, s1 := CallEnds(c, s, f);
    var rest;
    rest, s' := EndedLeaves(c, s1, f);
    QuietConcat(c, s, first, s1, rest, s');
    steps := first + rest;
  }

  // ---------- requests on their way ----------

  /** What is left once a request has its result. */
  lemma ReturnedFinishes(c: Config, s: State, r: nat) returns (steps: seq<Step>, s': State)
    requires Good(c, s) && r < |s.reqs| && (s.reqs[r].Got? || Over(s.reqs[r]))
    ensures QuietRun(c, s, steps, s') && Good(c, s') && Finishes(s, s', r)
  {
    if s.reqs[r].Got? { steps, s' := GotFinishes(c, s, r); } else { steps, s' := [], s; }
  }

  lemma Then(c: Config, s: State, first: seq<Step>, s1: State, r: nat) returns (steps: seq<Step>, s': State)
    requires QuietRun(c, s, first, s1) && Good(c, s1) && r < |s.reqs| == |s1.reqs| && s1.reqs[r].q == s.reqs[r].q
    requires s1.reqs[r].Got? || Over(s1.reqs[r])
    ensures QuietRun(c, s, steps, s') && Good(c, s') && Finishes(s, s', r)
  {
    var rest;
    rest, s' := ReturnedFinishes(c, s1, r);
    QuietConcat(c, s, first, s1, rest, s');
    steps := first + rest;
  }

  lemma LeadingFinishes(c: Config, s: State, r: nat) returns (steps: seq<Step>, s': State)
    requires Good(c, s) && r < |s.reqs| && s.reqs[r].Leading?
    ensures QuietRun(c, s, steps, s') && Good(c, s') && Finishes(s, s', r)
  {
    assert LeaderCall(s.flights, s.reqs, r);
    var first, s1 := CallLeaves(c, s, s.reqs[r].flight);
    steps, s' := Then(c, s, first, s1, r);
  }

  lemma JoinerEffect(c: Config, s: State, r: nat)
    requires Enabled(c, s, JoinerReturn(r))
    ensures var s' := Next(c, s, JoinerReturn(r));
      |s'.reqs| == |s.reqs| && s'.reqs[r].q == s.reqs[r].q && (s'.reqs[r].Got? || Over(s'.reqs[r]))
  {}

  lemma JoinedFinishes(c: Config, s: State, r: nat) returns (steps: seq<Step>, s': State)
    requires Good(c, s) && r < |s.reqs| && s.reqs[r].Joined?
    ensures QuietRun(c, s, steps, s') && Good(c, s') && Finishes(s, s', r)
  {
    var f := s.reqs[r].flight;
    assert ReqOk(c, s, r);
    var first, s1 := [], s;
    if !s.flights[f].phase.Left? {
      assert FlightCall(s.group, s.flights, s.reqs, s.jobs, f);
      first, s1 := CallLeaves(c, s, f);
    }
    var s2 := Next(c, s1, JoinerReturn(r));
    QuietOne(c, s1, JoinerReturn(r));
    JoinerEffect(c, s1, r);
    QuietConcat(c, s, first, s1, [JoinerReturn(r)], s2);
    steps, s' := Then(c, s, first + [JoinerReturn(r)], s2, r);
  }

  lemma EnterEffect(c: Config, s: State, r: nat)
    requires Enabled(c, s, EnterFlight(r))
    ensures var s' := Next(c, s, EnterFlight(r));
      |s'.reqs| == |s.reqs| && s'.reqs[r].q == s.reqs[r].q && (s'.reqs[r].Leading? || s'.reqs[r].Joined?)
  {}

  lemma MissedFinishes(c: Config, s: State, r: nat) returns (steps: seq<Step>, s': State)
    requires Good(c, s) && r < |s.reqs| && s.reqs[r].Missed?
    ensures QuietRun(c, s, steps, s') && Good(c, s') && Finishes(s, s', r)
  {
    var s1 := Next(c, s, EnterFlight(r));
    QuietOne(c, s, EnterFlight(r));
    EnterEffect(c, s, r);
    var rest;
    if s1.reqs[r].Leading? { rest, s' := LeadingFinishes(c, s1, r); } else { rest, s' := JoinedFinishes(c, s1, r); }
    QuietConcat(c, s, [EnterFlight(r)], s1, rest, s');
    steps := [EnterFlight(r)] + rest;
  }

  lemma LookupEffect(c: Config, s: State, r: nat)
    requires Enabled(c, s, Lookup(r))
    ensures var s' := Next(c, s, Lookup(r));
      |s'.reqs| == |s.reqs| && s'.reqs[r].q == s.reqs[r].q && (s'.reqs[r].Got? || s'.reqs[r].Missed?)
  {}

  lemma StartFinishes(c: Config, s: State, r: nat) returns (steps: seq<Step>, s': State)
    requires Good(c, s) && r < |s.reqs| && s.reqs[r].Start?
    ensures QuietRun(c, s, steps, s') && Good(c, s') && Finishes(s, s', r)
  {
    var s1 := Next(c, s, Lookup(r));
    QuietOne(c, s, Lookup(r));
    LookupEffect(c, s, r);
    var rest;
    if s1.reqs[r].Got? { rest, s' := GotFinishes(c, s1, r); } else { rest, s' := MissedFinishes(c, s1, r); }
    QuietConcat(c, s, [Lookup(r)], s1, rest, s');
    steps := [Lookup(r)] + rest;
  }

  lemma RequestFinishes(c: Config, s: State, r: nat) returns (steps: seq<Step>, s': State)
    requires Good(c, s) && r < |s.reqs|
    ensures QuietRun(c, s, steps, s') && Good(c, s') && Finishes(s, s', r)
  {
    match s.reqs[r]
    case Start(_) => steps, s' := StartFinishes(c, s, r);
    case Missed(_) => steps, s' := MissedFinishes(c, s, r);
    case Leading(_, _) => steps, s' := LeadingFinishes(c, s, r);
    case Joined(_, _) => steps, s' := JoinedFinishes(c, s, r);
    case Got(_, _) => steps, s' := GotFinishes(c, s, r);
    case Reading(_, _, _, _, _) => steps, s' := ReadingFinishes(c, s, r);
    case Answered(_, _) => steps, s' := [], s;
    case Refused(_) => steps, s' := [], s;
  }

  /**
   * No request is ever stuck: in every run, at any moment, each request can be brought to an answer or a refusal, with
   * nothing new coming in and nobody giving up.
   */
  lemma RequestNeverStuck(c: Config, before: seq<Step>, s: State, r: nat) returns (steps: seq<Step>, s': State)
    requires c.cap > 0 && c.workers > 0 && Runs(c, Init(c), before, s) && r < |s.reqs|
    ensures QuietRun(c, s, steps, s') && Finishes(s, s', r)
  {
    ReachedGood(c, before, s);
    steps, s' := RequestFinishes(c, s, r);
  }

  // ---------- requests that must be answered ----------

  lemma {:induction false} SawBadConcat(c: Config, a: State, xs: seq<Step>, b: State, ys: seq<Step>, t: int)
    requires Runs(c, a, xs, b)
    ensures SawBadRead(c, a, xs + ys, t) <==> SawBadRead(c, a, xs, t) || SawBadRead(c, b, ys, t)
    decreases xs
  {
    if xs == [] {
      assert xs + ys == ys;
    } else {
      SawBadConcat(c, Next(c, a, xs[0]), xs[1..], b, ys, t);
      assert (xs + ys)[1..] == xs[1..] + ys;
    }
  }

  lemma {:induction false} SawGivingUpConcat(c: Config, a: State, xs: seq<Step>, b: State, ys: seq<Step>, t: int)
    requires Runs(c, a, xs, b)
    ensures SawGivingUp(c, a, xs + ys, t) <==> SawGivingUp(c, a, xs, t) || SawGivingUp(c, b, ys, t)
    decreases xs
  {
    if xs == [] {
      assert xs + ys == ys;
    } else {
      SawGivingUpConcat(c, Next(c, a, xs[0]), xs[1..], b, ys, t);
      assert (xs + ys)[1..] == xs[1..] + ys;
    }
  }

  /** In a quiet run over a readable file nothing goes wrong for its tenant. */
  lemma {:induction false} QuietGoesWell(c: Config, s: State, steps: seq<Step>, s': State, t: int)
    requires QuietRun(c, s, steps, s') && Current(s, t).Holds?
    ensures !SawBadRead(c, s, steps, t) && !SawGivingUp(c, s, steps, t)
    decreases steps
  {
    if steps != [] {
      assert Quiet(steps[0]);
      OthersKeepHistory(c, s, steps[0]);
      QuietGoesWell(c, Next(c, s, steps[0]), steps[1..], s', t);
    }
  }

  /**
   * As long as no worker has met a bad file of the tenant and no leader has given up on it, every request for it can be
   * answered while its file is readable, cached or not, and by one whole version of that file.
   */
  lemma ReadableIsAnswered(c: Config, before: seq<Step>, s: State, r: nat) returns (steps: seq<Step>, s': State)
    requires c.cap > 0 && c.workers > 0 && Runs(c, Init(c), before, s) && r < |s.reqs| && s.reqs[r].q.tenant > 0
    requires var t := s.reqs[r].q.tenant;
      && Current(s, t).Holds? && !SawBadRead(c, Init(c), before, t) && !SawGivingUp(c, Init(c), before, t)
    ensures QuietRun(c, s, steps, s') && r < |s'.reqs| && s'.reqs[r].Answered? && s'.reqs[r].q == s.reqs[r].q
    ensures var q := s.reqs[r].q;
      exists v :: Version(s', q.tenant, v) && s'.reqs[r].outcome == Decide(c.rx, v, q.domain, q.verb)
  {
    var t := s.reqs[r].q.tenant;
    steps, s' := RequestNeverStuck(c, before, s, r);
    QuietGoesWell(c, s, steps, s', t);
    SawBadConcat(c, Init(c), before, s, steps, t);
    SawGivingUpConcat(c, Init(c), before, s, steps, t);
    RunsConcat(c, Init(c), before, s, steps, s');
    if s'.reqs[r].Refused? { RefusedBecause(c, before + steps, s', r); }
    AnswersComeFromOneVersion(c, before + steps, s', r);
  }

  // ---------- reloads ----------

  /** All who read an object finish reading it. */
  lemma {:induction false} ReadersFinish(c: Config, s: State, p: nat) returns (steps: seq<Step>, s': State)
    requires Good(c, s) && p < |s.pols| && s.pols[p].writer.None?
    ensures QuietRun(c, s, steps, s') && Good(c, s') && s'.reloads == s.reloads && p < |s'.pols|
    ensures s'.pols[p].writer.None? && s'.pols[p].readers == {}
    decreases |s.pols[p].readers|
  {
    if s.pols[p].readers == {} {
      steps, s' := [], s;
    } else {
      var r :| r in s.pols[p].readers;
      assert ReadsFrom(s.reqs, r, p);
      var first, s1 := ReadingFinishes(c, s, r);
      var rest;
      rest, s' := ReadersFinish(c, s1, p);
      QuietConcat(c, s, first, s1, rest, s');
      steps := first + rest;
    }
  }

  lemma LockEffect(c: Config, s: State, l: nat)
    requires Enabled(c, s, ReloadLock(l))
    ensures var s' := Next(c, s, ReloadLock(l));
      |s'.reloads| == |s.reloads| && s'.reloads[l].RWriting? && s'.reloads[l].tenant == s.reloads[l].tenant
  {}

  /** A reload that waits for the lock gets it, and finishes. */
  lemma AimedFinishes(c: Config, s: State, l: nat) returns (steps: seq<Step>, s': State)
    requires Good(c, s) && l < |s.reloads| && s.reloads[l].RAimed?
    ensures QuietRun(c, s, steps, s') && Good(c, s')
    ensures l < |s'.reloads| && s'.reloads[l] == RDone(s.reloads[l].tenant, true)
  {
    assert ReloadOk(s, l);
    var p := s.reloads[l].pol;
    var first, s1 := FreeOfWriter(c, s, p);
    var second, s2 := ReadersFinish(c, s1, p);
    var s3 := Next(c, s2, ReloadLock(l));
    QuietOne(c, s2, ReloadLock(l));
    LockEffect(c, s2, l);
    var rest;
    rest, s' := WriterFinishes(c, s3, l);
    QuietConcat(c, s, first, s1, second, s2);
    QuietConcat(c, s, first + second, s2, [ReloadLock(l)], s3);
    QuietConcat(c, s, first + second + [ReloadLock(l)], s3, rest, s');
    steps := first + second + [ReloadLock(l)] + rest;
  }

  lemma ReloadEffect(c: Config, s: State, step: Step)
    requires Enabled(c, s, step) && (step.ReloadRead? || step.ReloadLookup? || step.ReloadInsert? || step.ReloadAim?)
    ensures var s', l := Next(c, s, step), step.l;
      && |s'.reloads| == |s.reloads| && s'.reloads[l].tenant == s.reloads[l].tenant
      && (step.ReloadRead? ==> s'.reloads[l].RRead? || s'.reloads[l] == RDone(s.reloads[l].tenant, false))
      && (step.ReloadLookup? ==> s'.reloads[l].RFound? || s'.reloads[l].RAbsent?)
      && (step.ReloadInsert? ==> s'.reloads[l] == RDone(s.reloads[l].tenant, true))
      && (step.ReloadAim? ==> s'.reloads[l].RAimed?)
  {}

  /** How far a reload is from its end. */
  function Ahead(x: Reload): nat {
    match x
    case RStart(_) => 4
    case RRead(_, _) => 3
    case RFound(_, _, _) => 2
    case RAbsent(_, _) => 2
    case RAimed(_, _, _) => 1
    case RWriting(_, _, _, _) => 1
    case RDone(_, _) => 0
  }

  lemma {:induction false} ReloadFinishes(c: Config, s: State, l: nat) returns (steps: seq<Step>, s': State)
    requires Good(c, s) && l < |s.reloads|
    ensures QuietRun(c, s, steps, s') && Good(c, s')
    ensures l < |s'.reloads| && s'.reloads[l].RDone? && s'.reloads[l].tenant == s.reloads[l].tenant
    decreases Ahead(s.reloads[l])
  {
    match s.reloads[l]
    case RDone(_, _) => steps, s' := [], s;
    case RAimed(_, _, _) => steps, s' := AimedFinishes(c, s, l);
    case RWriting(_, _, _, _) => steps, s' := WriterFinishes(c, s, l);
    case _ =>
      var step := match s.reloads[l]
        case RStart(_) => ReloadRead(l)
        case RRead(_, _) => ReloadLookup(l)
        case RAbsent(_, _) => ReloadInsert(l)
        case _ => ReloadAim(l);
      var s1 := Next(c, s, step);
      QuietOne(c, s, step);
      ReloadEffect(c, s, step);
      var rest;
      rest, s' := ReloadFinishes(c, s1, l);
      QuietConcat(c, s, [step], s1, rest, s');
      steps := [step] + rest;
  }

  /** No reload is ever stuck: the readers it waits for can finish, and so can whoever writes before it. */
  lemma ReloadNeverStuck(c: Config, before: seq<Step>, s: State, l: nat) returns (steps: seq<Step>, s': State)
    requires c.cap > 0 && c.workers > 0 && Runs(c, Init(c), before, s) && l < |s.reloads|
    ensures QuietRun(c, s, steps, s')
    ensures l < |s'.reloads| && s'.reloads[l].RDone? && s'.reloads[l].tenant == s.reloads[l].tenant
  {
    ReachedGood(c, before, s);
    steps, s' := ReloadFinishes(c, s, l);
  }
}
