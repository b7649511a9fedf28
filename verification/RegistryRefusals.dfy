/** When a request may be refused: only after a load of its tenant failed or timed out (policy/registry.go). */
module RegistryRefusals {
  import opened Text
  import opened LruSpec
  import opened Registry
  import opened RegistrySafety
  import opened RegistryJobs

  /** A load of the tenant has failed or timed out. */
  predicate Blamed(s: State, t: int) {
    s.failed[t] + s.timedOut[t] > 0
  }

  /** No error of the tenant is anywhere: not with a worker, on a channel, with a call or a request. */
  ghost predicate ErrorFree(workers: seq<Worker>, jobs: seq<Job>, flights: seq<Flight>, reqs: seq<Req>, t: int) {
    && (forall w :: 0 <= w < |workers| ==> WorkerClear(workers[w], jobs, t))
    && (forall j :: 0 <= j < |jobs| && jobs[j].tenant == t ==> Error !in jobs[j].chan)
    && (forall f :: 0 <= f < |flights| && flights[f].tenant == t ==> PhaseClear(flights[f].phase))
    && (forall r :: 0 <= r < |reqs| ==> ReqClear(reqs[r], t))
  }

  predicate WorkerClear(x: Worker, jobs: seq<Job>, t: int) {
    x.HasInserted? && x.res.Error? && x.job < |jobs| ==> jobs[x.job].tenant != t
  }

  predicate PhaseClear(p: Phase) {
    (p.Ended? || p.Left?) ==> !p.res.Error?
  }

  predicate ReqClear(x: Req, t: int) {
    x.Refused? ==> x.q.tenant != t
  }

  ghost predicate Clear(s: State, t: int) {
    ErrorFree(s.workers, s.jobs, s.flights, s.reqs, t)
  }

  ghost predicate Explained(s: State, t: int) {
    Blamed(s, t) || Clear(s, t)
  }

  // ---------- what the changes do ----------

  lemma SetReqClear(s: State, r: nat, x: Req, t: int)
    requires Clear(s, t) && r < |s.reqs| && ReqClear(x, t)
    ensures Clear(SetReq(s, r, x), t)
  {}

  lemma NewReqClear(s: State, x: Req, t: int)
    requires Clear(s, t) && ReqClear(x, t)
    ensures Clear(s.(reqs := s.reqs + [x]), t)
  {}

  lemma SetPhaseClear(s: State, f: nat, p: Phase, t: int)
    requires Clear(s, t) && f < |s.flights| && (s.flights[f].tenant == t ==> PhaseClear(p))
    ensures Clear(SetPhase(s, f, p), t)
  {}

  lemma SetJobClear(s: State, j: nat, x: Job, t: int)
    requires Clear(s, t) && j < |s.jobs| && x.tenant == s.jobs[j].tenant && (x.tenant == t ==> Error !in x.chan)
    ensures Clear(SetJob(s, j, x), t)
  {}

  lemma SetWorkerClear(s: State, w: nat, x: Worker, t: int)
    requires Clear(s, t) && w < |s.workers| && WorkerClear(x, s.jobs, t)
    ensures Clear(s.(workers := s.workers[w := x]), t)
  {}

  /** The parts that may hold errors are as before. */
  ghost predicate SameErrors(s: State, s': State) {
    s'.workers == s.workers && s'.jobs == s.jobs && s'.flights == s.flights && s'.reqs == s.reqs
  }

  lemma ReloadsLeaveErrors(c: Config, s: State, step: Step)
    requires Enabled(c, s, step) && ReloadStep(step)
    ensures SameErrors(s, Next(c, s, step))
  {}

  lemma EnterFlightClear(s: State, r: nat, t: int)
    requires Clear(s, t) && r < |s.reqs| && s.reqs[r].Missed?
    ensures Clear(DoEnterFlight(s, r), t)
  {}

  lemma LookupsClear(c: Config, s: State, step: Step, t: int)
    requires t > 0 && Clear(s, t) && Enabled(c, s, step) && (step.Begin? || step.Lookup? || step.EnterFlight?)
    ensures Clear(Next(c, s, step), t)
  {
    match step
    case Begin(q) => NewReqClear(s, if q.tenant <= 0 then Refused(q) else Start(q), t);
    case Lookup(r) => SetReqClear(s, r, DoLookup(s, r).reqs[r], t);
    case EnterFlight(r) => EnterFlightClear(s, r, t);
  }

  lemma ReadsClear(c: Config, s: State, step: Step, t: int)
    requires Clear(s, t) && Enabled(c, s, step)
    requires step.ReadLock? || step.ReadAst? || step.ReadOrder? || step.ReadDefault?
    ensures Clear(Next(c, s, step), t)
  {
    SetReqClear(s, step.r, Next(c, s, step).reqs[step.r], t);
  }

  lemma ReturnsClear(c: Config, s: State, step: Step, t: int)
    requires Inv(c, s) && Clear(s, t) && Enabled(c, s, step) && (step.LeaderLeave? || step.JoinerReturn?)
    ensures Clear(Next(c, s, step), t)
  {
    match step
    case LeaderLeave(f) =>
      var x := s.flights[f];
      assert FlightOk(s, f);
      SetPhaseClear(s, f, Left(x.phase.res), t);
      SetReqClear(SetPhase(s, f, Left(x.phase.res)), x.leader, Returned(s.reqs[x.leader].q, x.phase.res), t);
    case JoinerReturn(r) =>
      assert ReqOk(c, s, r);
      SetReqClear(s, r, Returned(s.reqs[r].q, s.flights[s.reqs[r].flight].phase.res), t);
  }

  /** The leader's steps: only the one that times out brings an error of its own. */
  lemma LeaderClear(c: Config, s: State, step: Step, t: int)
    requires Inv(c, s) && Clear(s, t) && Enabled(c, s, step)
    requires step.LeaderCheck? || step.LeaderSend? || step.LeaderReceive?
    ensures Clear(Next(c, s, step), t)
  {
    match step
    case LeaderCheck(f) => SetPhaseClear(s, f, DoLeaderCheck(s, f).flights[f].phase, t);
    case LeaderSend(f) => SendClear(c, s, f, t);
    case LeaderReceive(f) =>
      var j := s.flights[f].phase.job;
      assert FlightOk(s, f) && s.jobs[j].chan[0] in s.jobs[j].chan;
      SetPhaseClear(s, f, Ended(s.jobs[j].chan[0]), t);
      SetJobClear(SetPhase(s, f, Ended(s.jobs[j].chan[0])), j, s.jobs[j].(chan := s.jobs[j].chan[1..]), t);
  }

  lemma SendClear(c: Config, s: State, f: nat, t: int)
    requires Inv(c, s) && Clear(s, t) && f < |s.flights|
    ensures Clear(DoLeaderSend(s, f, c.cap), t)
  {
    SetPhaseClear(s, f, Waiting(|s.jobs|), t);
    forall w | 0 <= w < |s.workers| ensures WorkerClear(s.workers[w], DoLeaderSend(s, f, c.cap).jobs, t) {
      assert WorkerOk(s, w) && WorkerClear(s.workers[w], s.jobs, t);
    }
  }

  lemma WorkersClear(c: Config, s: State, step: Step, t: int)
    requires Inv(c, s) && Clear(s, t) && Enabled(c, s, step)
    requires step.HelperSend? || step.WorkerTake? || step.WorkerRead? || step.WorkerAnswer?
    ensures Clear(Next(c, s, step), t)
  {
    match step
    case HelperSend(j) =>
    case WorkerTake(w) => SetWorkerClear(s, w, Taken(s.queue[0]), t);
    case WorkerRead(w) => SetWorkerClear(s, w, DoWorkerRead(s, w).workers[w], t);
    case WorkerAnswer(w) =>
      var j := s.workers[w].job;
      var x := s.jobs[j].(chan := s.jobs[j].chan + [s.workers[w].res], answers := s.jobs[j].answers + 1);
      assert WorkerClear(s.workers[w], s.jobs, t);
      SetJobClear(s, j, x, t);
      SetWorkerClear(SetJob(s, j, x), w, Idle, t);
  }

  /** A worker that could not load counts the failure before anybody hears of it. */
  lemma InsertExplained(c: Config, s: State, w: nat, t: int)
    requires Clear(s, t) && w < |s.workers| && s.workers[w].HasRead? && s.workers[w].job < |s.jobs|
    ensures Explained(DoWorkerInsert(s, w, c.cap), t)
  {
    var j := s.workers[w].job;
    var x := s.jobs[j].(loaded := true);
    SetJobClear(s, j, x, t);
    if s.workers[w].got.Value? || s.jobs[j].tenant != t {
      var res := if s.workers[w].got.Value? then Hit(|s.pols|) else Error;
      SetWorkerClear(SetJob(s, j, x), w, HasInserted(j, res), t);
    }
  }

  lemma CountersGrow(c: Config, s: State, step: Step, t: int)
    requires Enabled(c, s, step)
    ensures s.failed[t] <= Next(c, s, step).failed[t] && s.timedOut[t] <= Next(c, s, step).timedOut[t]
  {}

  lemma StepExplained(c: Config, s: State, step: Step, t: int)
    requires t > 0 && Inv(c, s) && Explained(s, t) && Enabled(c, s, step)
    ensures Explained(Next(c, s, step), t)
  {
    CountersGrow(c, s, step, t);
    if Blamed(s, t) { return; }
    if ReloadStep(step) {
      ReloadsLeaveErrors(c, s, step);
    } else if step.Begin? || step.Lookup? || step.EnterFlight? {
      LookupsClear(c, s, step, t);
    } else if step.ReadLock? || step.ReadAst? || step.ReadOrder? || step.ReadDefault? {
      ReadsClear(c, s, step, t);
    } else if step.LeaderLeave? || step.JoinerReturn? {
      ReturnsClear(c, s, step, t);
    } else if step.LeaderCheck? || step.LeaderSend? || step.LeaderReceive? {
      LeaderClear(c, s, step, t);
    } else if step.HelperSend? || step.WorkerTake? || step.WorkerRead? || step.WorkerAnswer? {
      WorkersClear(c, s, step, t);
    } else if step.WorkerInsert? {
      InsertExplained(c, s, step.w, t);
    } else if step.LeaderTimeout? {
      TimeoutExplained(s, step.f, t);
    } else {
      assert SameErrors(s, Next(c, s, step));
    }
  }

  lemma TimeoutExplained(s: State, f: nat, t: int)
    requires Clear(s, t) && f < |s.flights|
    ensures Explained(DoLeaderTimeout(s, f), t)
  {
    if s.flights[f].tenant != t { SetPhaseClear(s, f, Ended(Error), t); }
  }

  lemma {:induction false} RunExplained(c: Config, s: State, steps: seq<Step>, s': State, t: int)
    requires t > 0 && Inv(c, s) && Explained(s, t) && Runs(c, s, steps, s')
    ensures Explained(s', t)
    decreases steps
  {
    if steps != [] {
      StepExplained(c, s, steps[0], t);
      StepSafe(c, s, steps[0]);
      RunExplained(c, Next(c, s, steps[0]), steps[1..], s', t);
    }
  }

  /** In every run a request of a positive tenant is refused only when a load of its tenant has failed or timed out. */
  lemma RefusedMeans(c: Config, steps: seq<Step>, s: State, r: nat)
    requires Runs(c, Init(c), steps, s) && r < |s.reqs| && s.reqs[r].Refused? && s.reqs[r].q.tenant > 0
    ensures s.failed[s.reqs[r].q.tenant] + s.timedOut[s.reqs[r].q.tenant] > 0
  {
    var t := s.reqs[r].q.tenant;
    assert Clear(Init(c), t);
    RunExplained(c, Init(c), steps, s, t);
    assert !ReqClear(s.reqs[r], t);
  }

  // ---------- what went wrong ----------

  /** A worker reads for the tenant while its file is missing or broken. */
  predicate BadRead(s: State, step: Step, t: int) {
    && step.WorkerRead? && step.w < |s.workers| && s.workers[step.w].Taken? && s.workers[step.w].job < |s.jobs|
    && s.jobs[s.workers[step.w].job].tenant == t
    && (History(s, t) == [] || !History(s, t)[|History(s, t)| - 1].Holds?)
  }

  /** The leader of a call of the tenant stops waiting. */
  predicate GivesUp(s: State, step: Step, t: int) {
    step.LeaderTimeout? && step.f < |s.flights| && s.flights[step.f].tenant == t
  }

  ghost predicate SawBadRead(c: Config, s: State, steps: seq<Step>, t: int)
    decreases steps
  {
    && steps != []
    && (BadRead(s, steps[0], t) || (Enabled(c, s, steps[0]) && SawBadRead(c, Next(c, s, steps[0]), steps[1..], t)))
  }

  ghost predicate SawGivingUp(c: Config, s: State, steps: seq<Step>, t: int)
    decreases steps
  {
    && steps != []
    && (GivesUp(s, steps[0], t) || (Enabled(c, s, steps[0]) && SawGivingUp(c, Next(c, s, steps[0]), steps[1..], t)))
  }

  /** No load of the tenant has failed, and no worker holds a failure for it. */
  ghost predicate NoFailure(failed: multiset<int>, workers: seq<Worker>, jobs: seq<Job>, t: int) {
    && failed[t] == 0
    && forall w :: 0 <= w < |workers| ==> LoadClear(workers[w], jobs, t)
  }

  predicate LoadClear(x: Worker, jobs: seq<Job>, t: int) {
    x.HasRead? && x.got.Fail? && x.job < |jobs| ==> jobs[x.job].tenant != t
  }

  ghost predicate Unfailed(s: State, t: int) {
    NoFailure(s.failed, s.workers, s.jobs, t)
  }

  lemma QuietFailed(c: Config, s: State, step: Step)
    requires Enabled(c, s, step) && !LoaderStep(step)
    ensures Next(c, s, step).failed == s.failed && Next(c, s, step).workers == s.workers
  {}

  lemma QuietTenants(c: Config, s: State, step: Step)
    requires Enabled(c, s, step) && (step.LeaderSend? || step.LeaderReceive?)
    ensures var s' := Next(c, s, step);
      |s.jobs| <= |s'.jobs| && forall j :: 0 <= j < |s.jobs| ==> s'.jobs[j].tenant == s.jobs[j].tenant
  {}

  lemma QuietUnfailed(c: Config, s: State, step: Step, t: int)
    requires Inv(c, s) && Unfailed(s, t) && Enabled(c, s, step) && !LoaderStep(step)
    ensures Unfailed(Next(c, s, step), t)
  {
    QuietFailed(c, s, step);
    if step.LeaderSend? || step.LeaderReceive? {
      QuietTenants(c, s, step);
      forall w | 0 <= w < |s.workers| ensures LoadClear(s.workers[w], Next(c, s, step).jobs, t) {
        assert WorkerOk(s, w) && LoadClear(s.workers[w], s.jobs, t);
      }
    } else if RequestStep(step) {
      RequestsLeaveJobs(c, s, step);
    } else {
      ReloadsLeaveJobs(c, s, step);
    }
  }

  lemma LoaderUnfailed(c: Config, s: State, step: Step, t: int)
    requires t > 0 && Unfailed(s, t) && Enabled(c, s, step) && LoaderStep(step) && !BadRead(s, step, t)
    ensures Unfailed(Next(c, s, step), t)
  {
    match step
    case HelperSend(j) =>
    case WorkerTake(w) =>
    case WorkerRead(w) =>
    case WorkerInsert(w) => InsertUnfailed(c, s, w, t);
    case WorkerAnswer(w) =>
  }

  lemma InsertUnfailed(c: Config, s: State, w: nat, t: int)
    requires Unfailed(s, t) && w < |s.workers| && s.workers[w].HasRead? && s.workers[w].job < |s.jobs|
    ensures Unfailed(DoWorkerInsert(s, w, c.cap), t)
  {
    assert LoadClear(s.workers[w], s.jobs, t);
  }

  lemma {:induction false} RunUnfailed(c: Config, s: State, steps: seq<Step>, s': State, t: int)
    requires t > 0 && Inv(c, s) && Unfailed(s, t) && Runs(c, s, steps, s') && !SawBadRead(c, s, steps, t)
    ensures s'.failed[t] == 0
    decreases steps
  {
    if steps != [] {
      if LoaderStep(steps[0]) { LoaderUnfailed(c, s, steps[0], t); } else { QuietUnfailed(c, s, steps[0], t); }
      StepSafe(c, s, steps[0]);
      RunUnfailed(c, Next(c, s, steps[0]), steps[1..], s', t);
    }
  }

  lemma TimeoutsCounted(c: Config, s: State, step: Step, t: int)
    requires Enabled(c, s, step) && !GivesUp(s, step, t)
    ensures Next(c, s, step).timedOut[t] == s.timedOut[t]
  {}

  lemma {:induction false} RunTimeouts(c: Config, s: State, steps: seq<Step>, s': State, t: int)
    requires s.timedOut[t] == 0 && Runs(c, s, steps, s') && !SawGivingUp(c, s, steps, t)
    ensures s'.timedOut[t] == 0
    decreases steps
  {
    if steps != [] {
      TimeoutsCounted(c, s, steps[0], t);
      RunTimeouts(c, Next(c, s, steps[0]), steps[1..], s', t);
    }
  }

  /**
   * In every run a request of a positive tenant is refused only when, before, a worker read for its tenant while the
   * file was missing or broken, or a leader of a call of its tenant stopped waiting.
   */
  lemma RefusedBecause(c: Config, steps: seq<Step>, s: State, r: nat)
    requires Runs(c, Init(c), steps, s) && r < |s.reqs| && s.reqs[r].Refused? && s.reqs[r].q.tenant > 0
    ensures var t := s.reqs[r].q.tenant; SawBadRead(c, Init(c), steps, t) || SawGivingUp(c, Init(c), steps, t)
  {
    var t := s.reqs[r].q.tenant;
    RefusedMeans(c, steps, s, r);
    if !SawBadRead(c, Init(c), steps, t) && !SawGivingUp(c, Init(c), steps, t) {
      RunUnfailed(c, Init(c), steps, s, t);
      RunTimeouts(c, Init(c), steps, s, t);
    }
  }
}
