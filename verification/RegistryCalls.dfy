/** Coalescing of loads (policy/registry.go, loadTenant), and how many load jobs are ever made for a tenant. */
module RegistryCalls {
  import opened LruSpec
  import opened Registry
  import opened RegistryJobs

  /** The job was answered and its leader took the result. */
  predicate Consumed(x: Job) {
    x.answers > 0 && x.chan == []
  }

  /** The call a tenant has in progress is its own and is not over. */
  predicate GroupOk(flights: seq<Flight>, t: int, f: nat) {
    f < |flights| && flights[f].tenant == t && !flights[f].phase.Left?
  }

  /** A call that is not over is the one its tenant has in progress, and one request leads it. */
  ghost predicate FlightCall(group: map<int, nat>, flights: seq<Flight>, reqs: seq<Req>, jobs: seq<Job>, f: nat)
    requires f < |flights|
  {
    var x := flights[f];
    && (!x.phase.Left? ==>
        && x.tenant in group && group[x.tenant] == f
        && x.leader < |reqs| && reqs[x.leader].Leading? && reqs[x.leader].flight == f)
    && (x.phase.Waiting? ==> x.phase.job < |jobs| && jobs[x.phase.job].flight == f && !Consumed(jobs[x.phase.job]))
  }

  ghost predicate LeaderCall(flights: seq<Flight>, reqs: seq<Req>, r: nat)
    requires r < |reqs|
  {
    reqs[r].Leading? ==> var f := reqs[r].flight; f < |flights| && !flights[f].phase.Left? && flights[f].leader == r
  }

  /** While no load of its tenant has timed out, a job that still counts is the one its call waits for. */
  ghost predicate JobCall(flights: seq<Flight>, jobs: seq<Job>, timedOut: multiset<int>, j: nat)
    requires j < |jobs|
  {
    var x := jobs[j];
    && x.flight < |flights| && flights[x.flight].tenant == x.tenant
    && (timedOut[x.tenant] == 0 && !Consumed(x) ==> flights[x.flight].phase == Waiting(j))
  }

  ghost predicate Calls(group: map<int, nat>, flights: seq<Flight>, reqs: seq<Req>, jobs: seq<Job>,
                        timedOut: multiset<int>) {
    && (forall t :: t in group ==> GroupOk(flights, t, group[t]))
    && (forall f :: 0 <= f < |flights| ==> FlightCall(group, flights, reqs, jobs, f))
    && (forall r :: 0 <= r < |reqs| ==> LeaderCall(flights, reqs, r))
    && (forall j :: 0 <= j < |jobs| ==> JobCall(flights, jobs, timedOut, j))
  }

  ghost predicate CallsOk(s: State) {
    Calls(s.group, s.flights, s.reqs, s.jobs, s.timedOut)
  }

  // ---------- changes that steps are made of ----------

  /** A request that leads no call changes, and still leads none. */
  lemma SetReqCalls(s: State, r: nat, x: Req)
    requires CallsOk(s) && r < |s.reqs| && !s.reqs[r].Leading? && !x.Leading?
    ensures CallsOk(SetReq(s, r, x))
  {
    var reqs := s.reqs[r := x];
    forall f | 0 <= f < |s.flights| ensures FlightCall(s.group, s.flights, reqs, s.jobs, f) {
      assert FlightCall(s.group, s.flights, s.reqs, s.jobs, f);
    }
    forall i | 0 <= i < |reqs| ensures LeaderCall(s.flights, reqs, i) {
      assert LeaderCall(s.flights, s.reqs, i);
    }
  }

  lemma NewReqCalls(s: State, x: Req)
    requires CallsOk(s) && !x.Leading?
    ensures CallsOk(s.(reqs := s.reqs + [x]))
  {
    var reqs := s.reqs + [x];
    forall f | 0 <= f < |s.flights| ensures FlightCall(s.group, s.flights, reqs, s.jobs, f) {
      assert FlightCall(s.group, s.flights, s.reqs, s.jobs, f);
    }
    forall i | 0 <= i < |reqs| ensures LeaderCall(s.flights, reqs, i) {
      if i < |s.reqs| { assert LeaderCall(s.flights, s.reqs, i); }
    }
  }

  /** The first to ask for a tenant with no call in progress leads a new one. */
  lemma NewFlightCalls(s: State, r: nat)
    requires CallsOk(s) && r < |s.reqs| && s.reqs[r].Missed? && s.reqs[r].q.tenant !in s.group
    ensures CallsOk(DoEnterFlight(s, r))
  {
    var s' := DoEnterFlight(s, r);
    forall t | t in s'.group ensures GroupOk(s'.flights, t, s'.group[t]) {
      if t in s.group { assert GroupOk(s.flights, t, s.group[t]); }
    }
    forall f | 0 <= f < |s'.flights| ensures FlightCall(s'.group, s'.flights, s'.reqs, s'.jobs, f) {
      if f < |s.flights| { assert FlightCall(s.group, s.flights, s.reqs, s.jobs, f); }
    }
    forall i | 0 <= i < |s'.reqs| ensures LeaderCall(s'.flights, s'.reqs, i) {
      assert LeaderCall(s.flights, s.reqs, i);
    }
    forall j | 0 <= j < |s.jobs| ensures JobCall(s'.flights, s.jobs, s.timedOut, j) {
      assert JobCall(s.flights, s.jobs, s.timedOut, j);
    }
  }

  /** A call goes on without waiting; when it was waiting, its job no longer counts. */
  lemma SetPhaseCalls(s: State, f: nat, p: Phase, jobs: seq<Job>, timedOut: multiset<int>)
    requires CallsOk(s) && f < |s.flights| && !s.flights[f].phase.Left? && (p.Creating? || p.Ended?)
    requires |jobs| == |s.jobs| && s.timedOut <= timedOut
    requires forall i :: 0 <= i < |jobs| && s.flights[f].phase != Waiting(i) ==> jobs[i] == s.jobs[i]
    requires forall i :: 0 <= i < |jobs| ==> jobs[i].flight == s.jobs[i].flight && jobs[i].tenant == s.jobs[i].tenant
    requires s.flights[f].phase.Waiting? && s.flights[f].phase.job < |jobs| ==>
      Consumed(jobs[s.flights[f].phase.job]) || timedOut[s.flights[f].tenant] > 0
    ensures CallsOk(SetPhase(s, f, p).(jobs := jobs, timedOut := timedOut))
  {
    var flights := s.flights[f := s.flights[f].(phase := p)];
    forall t | t in s.group ensures GroupOk(flights, t, s.group[t]) {
      assert GroupOk(s.flights, t, s.group[t]);
    }
    forall g | 0 <= g < |flights| ensures FlightCall(s.group, flights, s.reqs, jobs, g) {
      assert FlightCall(s.group, s.flights, s.reqs, s.jobs, g) && FlightCall(s.group, s.flights, s.reqs, s.jobs, f);
    }
    forall i | 0 <= i < |s.reqs| ensures LeaderCall(flights, s.reqs, i) {
      assert LeaderCall(s.flights, s.reqs, i);
    }
    forall j | 0 <= j < |jobs| ensures JobCall(flights, jobs, timedOut, j) {
      assert JobCall(s.flights, s.jobs, s.timedOut, j);
    }
  }

  lemma LeaderSendCalls(c: Config, s: State, f: nat)
    requires CallsOk(s) && f < |s.flights| && s.flights[f].phase.Creating?
    ensures CallsOk(DoLeaderSend(s, f, c.cap))
  {
    var s' := DoLeaderSend(s, f, c.cap);
    forall t | t in s'.group ensures GroupOk(s'.flights, t, s'.group[t]) {
      assert GroupOk(s.flights, t, s.group[t]);
    }
    forall g | 0 <= g < |s'.flights| ensures FlightCall(s'.group, s'.flights, s'.reqs, s'.jobs, g) {
      assert FlightCall(s.group, s.flights, s.reqs, s.jobs, g);
    }
    forall i | 0 <= i < |s'.reqs| ensures LeaderCall(s'.flights, s'.reqs, i) {
      assert LeaderCall(s.flights, s.reqs, i);
    }
    forall j | 0 <= j < |s'.jobs| ensures JobCall(s'.flights, s'.jobs, s'.timedOut, j) {
      if j < |s.jobs| { assert JobCall(s.flights, s.jobs, s.timedOut, j); }
    }
  }

  lemma LeaderLeaveCalls(s: State, f: nat)
    requires CallsOk(s) && f < |s.flights| && s.flights[f].phase.Ended? && s.flights[f].leader < |s.reqs|
    ensures CallsOk(DoLeaderLeave(s, f))
  {
    var s' := DoLeaderLeave(s, f);
    assert FlightCall(s.group, s.flights, s.reqs, s.jobs, f);
    forall t | t in s'.group ensures GroupOk(s'.flights, t, s'.group[t]) {
      assert GroupOk(s.flights, t, s.group[t]);
    }
    forall g | 0 <= g < |s'.flights| ensures FlightCall(s'.group, s'.flights, s'.reqs, s'.jobs, g) {
      assert FlightCall(s.group, s.flights, s.reqs, s.jobs, g);
    }
    forall i | 0 <= i < |s'.reqs| ensures LeaderCall(s'.flights, s'.reqs, i) {
      assert LeaderCall(s.flights, s.reqs, i);
    }
    forall j | 0 <= j < |s.jobs| ensures JobCall(s'.flights, s.jobs, s.timedOut, j) {
      assert JobCall(s.flights, s.jobs, s.timedOut, j);
    }
  }

  /** A worker writes into a job that counts as before. */
  lemma SetJobCalls(s: State, j: nat, x: Job)
    requires CallsOk(s) && j < |s.jobs| && x.flight == s.jobs[j].flight && x.tenant == s.jobs[j].tenant
    requires Consumed(x) == Consumed(s.jobs[j])
    ensures CallsOk(SetJob(s, j, x))
  {
    var jobs := s.jobs[j := x];
    forall f | 0 <= f < |s.flights| ensures FlightCall(s.group, s.flights, s.reqs, jobs, f) {
      assert FlightCall(s.group, s.flights, s.reqs, s.jobs, f);
    }
    forall i | 0 <= i < |jobs| ensures JobCall(s.flights, jobs, s.timedOut, i) {
      assert JobCall(s.flights, s.jobs, s.timedOut, i);
    }
  }

  // ---------- steps ----------

  /** What requests see of the other parts of the registry is as before. */
  ghost predicate SameCalls(s: State, s': State) {
    s'.group == s.group && s'.flights == s.flights && s'.reqs == s.reqs && s'.timedOut == s.timedOut
  }

  lemma ReloadsLeaveCalls(c: Config, s: State, step: Step)
    requires Enabled(c, s, step) && ReloadStep(step)
    ensures SameCalls(s, Next(c, s, step))
  {}

  lemma LoaderLeavesCalls(c: Config, s: State, step: Step)
    requires Enabled(c, s, step) && LoaderStep(step)
    ensures SameCalls(s, Next(c, s, step))
  {}

  /** The job a call waits for has one result at most; taking it leaves nothing. */
  lemma ReceiveConsumes(s: State, j: nat)
    requires JobsOk(s) && j < |s.jobs| && s.jobs[j].chan != []
    ensures s.jobs[j].answers == 1 && s.jobs[j].loaded && s.jobs[j].chan[1..] == []
  {
    assert InOnePlace(s.senders, s.queue, s.workers, s.jobs, j);
  }

  lemma FlightStepCalls(c: Config, s: State, step: Step)
    requires CallsOk(s) && JobsOk(s) && Enabled(c, s, step)
    requires step.LeaderCheck? || step.LeaderReceive? || step.LeaderTimeout?
    ensures CallsOk(Next(c, s, step))
  {
    var f := step.f;
    match step
    case LeaderCheck(_) =>
      if Has(s.lru, s.flights[f].tenant) {
        SetPhaseCalls(s, f, Ended(Hit(CachedPol(s, s.flights[f].tenant))), s.jobs, s.timedOut);
      } else {
        SetPhaseCalls(s, f, Creating, s.jobs, s.timedOut);
      }
    case LeaderReceive(_) =>
      var j := s.flights[f].phase.job;
      ReceiveConsumes(s, j);
      SetPhaseCalls(s, f, Ended(s.jobs[j].chan[0]), s.jobs[j := s.jobs[j].(chan := s.jobs[j].chan[1..])], s.timedOut);
    case LeaderTimeout(_) =>
      SetPhaseCalls(s, f, Ended(Error), s.jobs, s.timedOut + multiset{s.flights[f].tenant});
  }

  lemma ReqStepCalls(c: Config, s: State, step: Step)
    requires CallsOk(s) && Enabled(c, s, step)
    requires step.Begin? || step.Lookup? || step.EnterFlight? || step.JoinerReturn?
    ensures CallsOk(Next(c, s, step))
  {
    match step
    case Begin(q) => NewReqCalls(s, if q.tenant <= 0 then Refused(q) else Start(q));
    case Lookup(r) =>
      var q := s.reqs[r].q;
      SetReqCalls(s, r, if Has(s.lru, q.tenant) then Got(q, CachedPol(s, q.tenant)) else Missed(q));
    case EnterFlight(r) =>
      var q := s.reqs[r].q;
      if q.tenant in s.group { SetReqCalls(s, r, Joined(q, s.group[q.tenant])); } else { NewFlightCalls(s, r); }
    case JoinerReturn(r) => SetReqCalls(s, r, Returned(s.reqs[r].q, s.flights[s.reqs[r].flight].phase.res));
  }

  lemma ReadStepCalls(c: Config, s: State, step: Step)
    requires CallsOk(s) && Enabled(c, s, step)
    requires step.ReadLock? || step.ReadAst? || step.ReadOrder? || step.ReadDefault?
    ensures CallsOk(Next(c, s, step))
  {
    SetReqCalls(s, step.r, Next(c, s, step).reqs[step.r]);
  }

  lemma LoaderStepCalls(c: Config, s: State, step: Step)
    requires CallsOk(s) && JobsOk(s) && Enabled(c, s, step) && LoaderStep(step)
    ensures CallsOk(Next(c, s, step))
  {
    LoaderLeavesCalls(c, s, step);
    if step.WorkerInsert? {
      var j := s.workers[step.w].job;
      SetJobCalls(s, j, s.jobs[j].(loaded := true));
    } else if step.WorkerAnswer? {
      var j := s.workers[step.w].job;
      HeldMeansUnanswered(s, step.w);
      SetJobCalls(s, j, s.jobs[j].(chan := s.jobs[j].chan + [s.workers[step.w].res], answers := s.jobs[j].answers + 1));
    }
  }

  lemma StepCalls(c: Config, s: State, step: Step)
    requires CallsOk(s) && JobsOk(s) && Enabled(c, s, step)
    ensures CallsOk(Next(c, s, step))
  {
    if LoaderStep(step) {
      LoaderStepCalls(c, s, step);
    } else if ReloadStep(step) {
      ReloadsLeaveCalls(c, s, step);
      ReloadsLeaveJobs(c, s, step);
    } else if step.Publish? {
      assert Next(c, s, step) == s.(hist := Next(c, s, step).hist);
    } else if step.LeaderCheck? || step.LeaderReceive? || step.LeaderTimeout? {
      FlightStepCalls(c, s, step);
    } else if step.LeaderSend? {
      LeaderSendCalls(c, s, step.f);
    } else if step.LeaderLeave? {
      LeaderLeaveCalls(s, step.f);
    } else if step.ReadLock? || step.ReadAst? || step.ReadOrder? || step.ReadDefault? {
      ReadStepCalls(c, s, step);
    } else {
      ReqStepCalls(c, s, step);
    }
  }

  lemma {:induction false} RunCalls(c: Config, s: State, steps: seq<Step>, s': State)
    requires CallsOk(s) && JobsOk(s) && Runs(c, s, steps, s')
    ensures CallsOk(s') && JobsOk(s')
    decreases steps
  {
    if steps != [] {
      StepCalls(c, s, steps[0]);
      StepJobs(c, s, steps[0]);
      RunCalls(c, Next(c, s, steps[0]), steps[1..], s');
    }
  }
}
