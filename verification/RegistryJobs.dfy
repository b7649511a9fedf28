/** Every load job is in exactly one place and is answered once, so a worker never blocks on a result channel. */
module RegistryJobs {
  import opened Registry

  function One(b: bool): nat { if b then 1 else 0 }

  predicate Holding(w: Worker, j: nat) { !w.Idle? && w.job == j }

  /** How many workers hold a job. */
  function HeldBy(ws: seq<Worker>, j: nat): nat {
    if ws == [] then 0 else HeldBy(ws[..|ws| - 1], j) + One(Holding(ws[|ws| - 1], j))
  }

  /** How often a job is in the queue. */
  function Queued(q: seq<nat>, j: nat): nat {
    if q == [] then 0 else Queued(q[..|q| - 1], j) + One(q[|q| - 1] == j)
  }

  function Answers(jobs: seq<Job>, j: nat): nat {
    if j < |jobs| then jobs[j].answers else 0
  }

  /** In how many places a job is: with a helper, in the queue, with a worker, answered. */
  function Places(senders: set<nat>, queue: seq<nat>, workers: seq<Worker>, jobs: seq<Job>, j: nat): nat {
    One(j in senders) + Queued(queue, j) + HeldBy(workers, j) + Answers(jobs, j)
  }

  ghost predicate InOnePlace(senders: set<nat>, queue: seq<nat>, workers: seq<Worker>, jobs: seq<Job>, j: nat) {
    Places(senders, queue, workers, jobs, j) == One(j < |jobs|)
  }

  ghost predicate Conserved(senders: set<nat>, queue: seq<nat>, workers: seq<Worker>, jobs: seq<Job>) {
    && (forall j: nat :: InOnePlace(senders, queue, workers, jobs, j))
    && (forall j :: 0 <= j < |jobs| ==> |jobs[j].chan| <= jobs[j].answers && (jobs[j].answers > 0 ==> jobs[j].loaded))
    && (forall w :: 0 <= w < |workers| && workers[w].HasInserted? && workers[w].job < |jobs| ==>
         jobs[workers[w].job].loaded)
  }

  ghost predicate JobsOk(s: State) {
    Conserved(s.senders, s.queue, s.workers, s.jobs)
  }

  lemma {:induction false} HeldUpdate(ws: seq<Worker>, w: nat, x: Worker, j: nat)
    requires w < |ws|
    ensures HeldBy(ws[w := x], j) == HeldBy(ws, j) - One(Holding(ws[w], j)) + One(Holding(x, j))
  {
    var n := |ws| - 1;
    if w == n {
      assert ws[w := x][..n] == ws[..n];
    } else {
      HeldUpdate(ws[..n], w, x, j);
      assert ws[w := x][..n] == ws[..n][w := x];
    }
  }

  lemma {:induction false} QueuedSplit(q: seq<nat>, j: nat)
    requires q != []
    ensures Queued(q, j) == One(q[0] == j) + Queued(q[1..], j)
  {
    var n := |q| - 1;
    if n > 0 {
      QueuedSplit(q[..n], j);
      assert q[..n][1..] == q[1..][..n - 1];
    }
  }

  lemma QueuedAppend(q: seq<nat>, k: nat, j: nat)
    ensures Queued(q + [k], j) == Queued(q, j) + One(k == j)
  {
    assert (q + [k])[..|q|] == q;
  }

  lemma {:induction false} NoneHeld(n: nat, j: nat)
    ensures HeldBy(seq(n, _ => Idle), j) == 0
  {
    if n > 0 {
      NoneHeld(n - 1, j);
      assert seq(n, _ => Idle)[..n - 1] == seq(n - 1, _ => Idle);
    }
  }

  lemma InitJobs(c: Config)
    ensures JobsOk(Init(c))
  {
    var ws := Init(c).workers;
    forall j: nat ensures InOnePlace({}, [], ws, [], j) { NoneHeld(c.workers, j); }
  }

  /** Two workers never hold the same job. */
  lemma HeldByTwo(ws: seq<Worker>, w: nat, x: nat)
    requires w < x < |ws| && !ws[w].Idle? && !ws[x].Idle? && ws[w].job == ws[x].job
    ensures HeldBy(ws, ws[w].job) >= 2
  {
    HeldUpdate(ws, w, Idle, ws[w].job);
    HeldUpdate(ws[w := Idle], x, Idle, ws[w].job);
  }

  lemma NewJobPlace(s: State, x: Job, senders: set<nat>, queue: seq<nat>, j: nat)
    requires JobsOk(s) && x.answers == 0
    requires (senders, queue) == (s.senders, s.queue + [|s.jobs|])
      || (senders, queue) == (s.senders + {|s.jobs|}, s.queue)
    ensures InOnePlace(senders, queue, s.workers, s.jobs + [x], j)
  {
    assert InOnePlace(s.senders, s.queue, s.workers, s.jobs, j);
    QueuedAppend(s.queue, |s.jobs|, j);
  }

  lemma LeaderSendJobs(c: Config, s: State, f: nat)
    requires JobsOk(s) && f < |s.flights|
    ensures JobsOk(DoLeaderSend(s, f, c.cap))
  {
    var s' := DoLeaderSend(s, f, c.cap);
    forall j: nat ensures InOnePlace(s'.senders, s'.queue, s'.workers, s'.jobs, j) {
      NewJobPlace(s, Job(s.flights[f].tenant, f, [], false, 0), s'.senders, s'.queue, j);
    }
    forall w | 0 <= w < |s.workers| && s.workers[w].HasInserted? && s.workers[w].job < |s'.jobs|
      ensures s'.jobs[s.workers[w].job].loaded {
      HeldMeansUnanswered(s, w);
    }
  }

  lemma HelperSendPlace(s: State, j: nat, i: nat)
    requires JobsOk(s) && j in s.senders
    ensures InOnePlace(s.senders - {j}, s.queue + [j], s.workers, s.jobs, i)
  {
    assert InOnePlace(s.senders, s.queue, s.workers, s.jobs, i);
    QueuedAppend(s.queue, j, i);
  }

  lemma HelperSendJobs(s: State, j: nat)
    requires JobsOk(s) && j in s.senders
    ensures JobsOk(s.(senders := s.senders - {j}, queue := s.queue + [j]))
  {
    var senders, queue := s.senders - {j}, s.queue + [j];
    forall i: nat ensures InOnePlace(senders, queue, s.workers, s.jobs, i) { HelperSendPlace(s, j, i); }
  }

  /** A worker moves on with the same job in hand. */
  lemma SetWorkerJobs(s: State, w: nat, x: Worker)
    requires JobsOk(s) && w < |s.workers| && !x.Idle? && !s.workers[w].Idle? && x.job == s.workers[w].job
    requires x.HasInserted? && x.job < |s.jobs| ==> s.jobs[x.job].loaded
    ensures JobsOk(s.(workers := s.workers[w := x]))
  {
    var ws := s.workers[w := x];
    forall j: nat ensures InOnePlace(s.senders, s.queue, ws, s.jobs, j) {
      assert InOnePlace(s.senders, s.queue, s.workers, s.jobs, j);
      HeldUpdate(s.workers, w, x, j);
    }
  }

  lemma WorkerTakeJobs(s: State, w: nat)
    requires JobsOk(s) && w < |s.workers| && s.workers[w].Idle? && s.queue != []
    ensures JobsOk(s.(queue := s.queue[1..], workers := s.workers[w := Taken(s.queue[0])]))
  {
    var x := Taken(s.queue[0]);
    var ws, q := s.workers[w := x], s.queue[1..];
    forall j: nat ensures InOnePlace(s.senders, q, ws, s.jobs, j) {
      assert InOnePlace(s.senders, s.queue, s.workers, s.jobs, j);
      HeldUpdate(s.workers, w, x, j);
      QueuedSplit(s.queue, j);
    }
  }

  /** A job's record changes, but not whether it was answered. */
  lemma SetJobJobs(s: State, j: nat, x: Job)
    requires JobsOk(s) && j < |s.jobs| && x.answers == s.jobs[j].answers && |x.chan| <= |s.jobs[j].chan|
    requires (s.jobs[j].loaded ==> x.loaded)
    ensures JobsOk(SetJob(s, j, x))
  {
    var jobs := s.jobs[j := x];
    forall i: nat ensures InOnePlace(s.senders, s.queue, s.workers, jobs, i) {
      assert InOnePlace(s.senders, s.queue, s.workers, s.jobs, i);
    }
  }

  /** A job in a worker's hands has not been answered, so its result channel is empty. */
  lemma HeldMeansUnanswered(s: State, w: nat)
    requires JobsOk(s) && w < |s.workers| && !s.workers[w].Idle?
    ensures var j := s.workers[w].job; j < |s.jobs| && s.jobs[j].answers == 0 && s.jobs[j].chan == []
  {
    var j := s.workers[w].job;
    HeldUpdate(s.workers, w, Idle, j);
    assert InOnePlace(s.senders, s.queue, s.workers, s.jobs, j);
  }

  lemma WorkerAnswerJobs(s: State, w: nat)
    requires JobsOk(s) && w < |s.workers| && s.workers[w].HasInserted? && s.workers[w].job < |s.jobs|
    ensures JobsOk(DoWorkerAnswer(s, w))
  {
    var s' := DoWorkerAnswer(s, w);
    HeldMeansUnanswered(s, w);
    forall i: nat ensures InOnePlace(s'.senders, s'.queue, s'.workers, s'.jobs, i) {
      assert InOnePlace(s.senders, s.queue, s.workers, s.jobs, i);
      HeldUpdate(s.workers, w, Idle, i);
    }
  }

  lemma WorkerInsertJobs(c: Config, s: State, w: nat)
    requires JobsOk(s) && w < |s.workers| && s.workers[w].HasRead? && s.workers[w].job < |s.jobs|
    ensures JobsOk(DoWorkerInsert(s, w, c.cap))
  {
    var j := s.workers[w].job;
    var s1 := SetJob(s, j, s.jobs[j].(loaded := true));
    SetJobJobs(s, j, s.jobs[j].(loaded := true));
    SetWorkerJobs(s1, w, HasInserted(j, if s.workers[w].got.Value? then Hit(|s.pols|) else Error));
    InsertKeepsQueues(s, s.jobs[j].tenant, c.cap, s.workers[w].got);
  }

  lemma InsertKeepsQueues(s: State, t: int, cap: nat, got: Loaded)
    ensures got.Value? ==>
      var s' := InsertNew(s, t, got.policy, cap); s'.senders == s.senders && s'.queue == s.queue
  {}

  predicate LoaderStep(step: Step) {
    step.HelperSend? || step.WorkerTake? || step.WorkerRead? || step.WorkerInsert? || step.WorkerAnswer?
  }

  predicate RequestStep(step: Step) {
    step.Publish? || step.Begin? || step.Lookup? || step.EnterFlight? || step.LeaderCheck? || step.LeaderTimeout? ||
    step.LeaderLeave? || step.JoinerReturn? || step.ReadLock? || step.ReadAst? || step.ReadOrder? || step.ReadDefault?
  }

  predicate ReloadStep(step: Step) {
    step.ReloadBegin? || step.ReloadRead? || step.ReloadLookup? || step.ReloadInsert? || step.ReloadAim? ||
    step.ReloadLock? || step.ReloadWrite? || step.ReloadUnlock?
  }

  ghost predicate SameJobs(s: State, s': State) {
    s'.senders == s.senders && s'.queue == s.queue && s'.workers == s.workers && s'.jobs == s.jobs
  }

  lemma RequestsLeaveJobs(c: Config, s: State, step: Step)
    requires Enabled(c, s, step) && RequestStep(step)
    ensures SameJobs(s, Next(c, s, step))
  {}

  lemma ReloadsLeaveJobs(c: Config, s: State, step: Step)
    requires Enabled(c, s, step) && ReloadStep(step)
    ensures SameJobs(s, Next(c, s, step))
  {}

  lemma LoaderJobs(c: Config, s: State, step: Step)
    requires JobsOk(s) && Enabled(c, s, step) && LoaderStep(step)
    ensures JobsOk(Next(c, s, step))
  {
    match step
    case HelperSend(j) => HelperSendJobs(s, j);
    case WorkerTake(w) => WorkerTakeJobs(s, w);
    case WorkerRead(w) => SetWorkerJobs(s, w, HasRead(s.workers[w].job, LoadNow(s, s.jobs[s.workers[w].job].tenant)));
    case WorkerInsert(w) => WorkerInsertJobs(c, s, w);
    case WorkerAnswer(w) => WorkerAnswerJobs(s, w);
  }

  lemma StepJobs(c: Config, s: State, step: Step)
    requires JobsOk(s) && Enabled(c, s, step)
    ensures JobsOk(Next(c, s, step))
  {
    if step.LeaderSend? {
      LeaderSendJobs(c, s, step.f);
    } else if step.LeaderReceive? {
      var j := s.flights[step.f].phase.job;
      SetJobJobs(s, j, s.jobs[j].(chan := s.jobs[j].chan[1..]));
    } else if LoaderStep(step) {
      LoaderJobs(c, s, step);
    } else if RequestStep(step) {
      RequestsLeaveJobs(c, s, step);
    } else {
      ReloadsLeaveJobs(c, s, step);
    }
  }

  lemma {:induction false} RunJobs(c: Config, s: State, steps: seq<Step>, s': State)
    requires JobsOk(s) && Runs(c, s, steps, s')
    ensures JobsOk(s') && |s'.workers| == |s.workers|
    decreases steps
  {
    if steps != [] {
      StepJobs(c, s, steps[0]);
      RunJobs(c, Next(c, s, steps[0]), steps[1..], s');
    }
  }

  // ---------- what holds in every run ----------

  /** Each job ever made is with a helper, in the queue, with one worker, or answered: exactly one of these, once. */
  lemma EachJobInOnePlace(c: Config, steps: seq<Step>, s: State, j: nat)
    requires Runs(c, Init(c), steps, s) && j < |s.jobs|
    ensures Places(s.senders, s.queue, s.workers, s.jobs, j) == 1
  {
    InitJobs(c);
    RunJobs(c, Init(c), steps, s);
    assert InOnePlace(s.senders, s.queue, s.workers, s.jobs, j);
  }

  /** A worker that has a result to send can always send it, whether or not the leader still waits. */
  lemma WorkersNeverBlock(c: Config, steps: seq<Step>, s: State, w: nat)
    requires Runs(c, Init(c), steps, s) && w < |s.workers| && s.workers[w].HasInserted?
    ensures Enabled(c, s, WorkerAnswer(w))
  {
    InitJobs(c);
    RunJobs(c, Init(c), steps, s);
    HeldMeansUnanswered(s, w);
  }

  /** Never more loads at once than there are loader workers, and never two of them for one job. */
  lemma LoadsBounded(c: Config, steps: seq<Step>, s: State)
    requires Runs(c, Init(c), steps, s)
    ensures |s.workers| == c.workers
    ensures forall w, x :: 0 <= w < x < |s.workers| && !s.workers[w].Idle? && !s.workers[x].Idle? ==>
      s.workers[w].job != s.workers[x].job
  {
    InitJobs(c);
    RunJobs(c, Init(c), steps, s);
    forall w, x | 0 <= w < x < |s.workers| && !s.workers[w].Idle? && !s.workers[x].Idle?
      ensures s.workers[w].job != s.workers[x].job {
      assert InOnePlace(s.senders, s.queue, s.workers, s.jobs, s.workers[w].job);
      if s.workers[w].job == s.workers[x].job { HeldByTwo(s.workers, w, x); }
    }
  }

  // ---------- the loader never gets stuck ----------

  function StepsLeft(w: Worker): nat {
    match w
    case Idle => 0
    case Taken(_) => 3
    case HasRead(_, _) => 2
    case HasInserted(_, _) => 1
  }

  function WorkersLeft(ws: seq<Worker>): nat {
    if ws == [] then 0 else WorkersLeft(ws[..|ws| - 1]) + StepsLeft(ws[|ws| - 1])
  }

  /** How many loader steps are still to come for the jobs there are. */
  function Work(s: State): nat {
    5 * |s.senders| + 4 * |s.queue| + WorkersLeft(s.workers)
  }

  lemma {:induction false} WorkersLeftUpdate(ws: seq<Worker>, w: nat, x: Worker)
    requires w < |ws|
    ensures WorkersLeft(ws[w := x]) == WorkersLeft(ws) - StepsLeft(ws[w]) + StepsLeft(x)
  {
    var n := |ws| - 1;
    if w == n {
      assert ws[w := x][..n] == ws[..n];
    } else {
      WorkersLeftUpdate(ws[..n], w, x);
      assert ws[w := x][..n] == ws[..n][w := x];
    }
  }

  lemma {:induction false} HolderExists(ws: seq<Worker>, j: nat) returns (w: nat)
    requires HeldBy(ws, j) > 0
    ensures w < |ws| && Holding(ws[w], j)
  {
    w := |ws| - 1;
    if !Holding(ws[w], j) { w := HolderExists(ws[..w], j); }
  }

  /** The loader step that can be taken next, when a job is still unanswered. */
  lemma NextLoaderStep(c: Config, s: State, j: nat) returns (step: Step)
    requires JobsOk(s) && c.cap > 0 && |s.workers| > 0 && j < |s.jobs| && s.jobs[j].answers == 0
    ensures LoaderStep(step) && Enabled(c, s, step)
  {
    assert InOnePlace(s.senders, s.queue, s.workers, s.jobs, j);
    if w :| 0 <= w < |s.workers| && !s.workers[w].Idle? {
      HeldMeansUnanswered(s, w);
      if s.workers[w].Taken? { step := WorkerRead(w); }
      else if s.workers[w].HasRead? { step := WorkerInsert(w); }
      else { step := WorkerAnswer(w); }
    } else if s.queue != [] {
      step := WorkerTake(0);
    } else {
      if HeldBy(s.workers, j) > 0 { var w := HolderExists(s.workers, j); }
      step := HelperSend(j);
    }
  }

  lemma LoaderStepsEnd(c: Config, s: State, step: Step)
    requires Enabled(c, s, step) && LoaderStep(step)
    ensures var s' := Next(c, s, step); Work(s') < Work(s) && |s'.jobs| == |s.jobs| && |s'.workers| == |s.workers|
  {
    match step
    case HelperSend(j) => assert s.senders == (s.senders - {j}) + {j};
    case WorkerTake(w) => WorkersLeftUpdate(s.workers, w, Taken(s.queue[0]));
    case WorkerRead(w) =>
      WorkersLeftUpdate(s.workers, w, HasRead(s.workers[w].job, LoadNow(s, s.jobs[s.workers[w].job].tenant)));
    case WorkerInsert(w) =>
      InsertKeepsQueues(s, s.jobs[s.workers[w].job].tenant, c.cap, s.workers[w].got);
      WorkersLeftUpdate(s.workers, w,
        HasInserted(s.workers[w].job, if s.workers[w].got.Value? then Hit(|s.pols|) else Error));
    case WorkerAnswer(w) => WorkersLeftUpdate(s.workers, w, Idle);
  }

  /** From every reachable state the loader alone, by at most Work(s) steps of its own, answers every job. */
  lemma {:induction false} LoaderCanFinish(c: Config, s: State) returns (steps: seq<Step>, s': State)
    requires JobsOk(s) && c.cap > 0 && |s.workers| > 0
    ensures Runs(c, s, steps, s') && |steps| <= Work(s) && (forall i :: 0 <= i < |steps| ==> LoaderStep(steps[i]))
    ensures |s'.jobs| == |s.jobs| && forall j :: 0 <= j < |s'.jobs| ==> s'.jobs[j].answers == 1
    decreases Work(s)
  {
    if j :| 0 <= j < |s.jobs| && s.jobs[j].answers == 0 {
      var step := NextLoaderStep(c, s, j);
      LoaderStepsEnd(c, s, step);
      StepJobs(c, s, step);
      var rest;
      rest, s' := LoaderCanFinish(c, Next(c, s, step));
      steps := [step] + rest;
      assert steps[1..] == rest;
    } else {
      steps, s' := [], s;
      forall j | 0 <= j < |s.jobs| ensures s.jobs[j].answers == 1 {
        assert InOnePlace(s.senders, s.queue, s.workers, s.jobs, j);
      }
    }
  }

  /** In no run is the loader stuck: every job there is can still be answered, whatever leaders and requests do. */
  lemma LoaderNeverStuck(c: Config, before: seq<Step>, s: State) returns (steps: seq<Step>, s': State)
    requires c.cap > 0 && c.workers > 0 && Runs(c, Init(c), before, s)
    ensures Runs(c, s, steps, s') && |steps| <= Work(s) && (forall i :: 0 <= i < |steps| ==> LoaderStep(steps[i]))
    ensures |s'.jobs| == |s.jobs| && forall j :: 0 <= j < |s'.jobs| ==> s'.jobs[j].answers == 1
  {
    InitJobs(c);
    RunJobs(c, Init(c), before, s);
    steps, s' := LoaderCanFinish(c, s);
  }
}
