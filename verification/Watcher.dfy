/** Debounced reloads (policy/watcher.go): events for a tenant restart its timer, and a timer that fires reloads it. */
module Watcher {
  /**
   * A timer made by time.AfterFunc: it waits, was stopped in time, or fired; its callback then takes the mutex to
   * delete the map entry, and then calls ReloadTenant.
   */
  datatype Phase = Armed | Stopped | Fired | Cleared | Reloading

  datatype Timer = Timer(tenant: int, phase: Phase)

  datatype Entry = Event(tenant: int) | Reload(tenant: int)

  /** The pending map, all timers ever made, and the history of events and of calls to ReloadTenant. */
  datatype State = State(pending: map<int, nat>, timers: seq<Timer>, log: seq<Entry>)

  const INIT := State(map[], [], [])

  /** Timer.Stop: no effect on a timer that has fired. */
  function Stop(timers: seq<Timer>, i: nat): seq<Timer> {
    if i < |timers| && timers[i].phase.Armed? then timers[i := timers[i].(phase := Stopped)] else timers
  }

  /** The critical section of schedule. */
  function Schedule(s: State, t: int): State {
    var stopped := if t in s.pending then Stop(s.timers, s.pending[t]) else s.timers;
    State(s.pending[t := |stopped|], stopped + [Timer(t, Armed)], s.log + [Event(t)])
  }

  function SetPhase(s: State, i: nat, p: Phase): State
    requires i < |s.timers|
  {
    s.(timers := s.timers[i := s.timers[i].(phase := p)])
  }

  datatype Step = Happens(tenant: int) | Fires(i: nat) | Clears(i: nat) | Reloads(i: nat)

  predicate Enabled(s: State, step: Step) {
    match step
    case Happens(_) => true
    case Fires(i) => i < |s.timers| && s.timers[i].phase.Armed?
    case Clears(i) => i < |s.timers| && s.timers[i].phase.Fired?
    case Reloads(i) => i < |s.timers| && s.timers[i].phase.Cleared?
  }

  function Next(s: State, step: Step): State
    requires Enabled(s, step)
  {
    match step
    case Happens(t) => Schedule(s, t)
    case Fires(i) => SetPhase(s, i, Fired)
    // the callback deletes whatever entry the tenant has by then
    case Clears(i) => SetPhase(s, i, Cleared).(pending := s.pending - {s.timers[i].tenant})
    case Reloads(i) => SetPhase(s, i, Reloading).(log := s.log + [Reload(s.timers[i].tenant)])
  }

  ghost predicate Runs(s: State, steps: seq<Step>, s': State)
    decreases steps
  {
    if steps == [] then s' == s else Enabled(s, steps[0]) && Runs(Next(s, steps[0]), steps[1..], s')
  }

  // ---------- the watcher's own variables ----------

  /** The closure variables of Watch, with the history for the proofs. */
  class Debouncer {
    var pending: map<int, nat>
    var timers: seq<Timer>
    ghost var log: seq<Entry>

    ghost function Now(): State
      reads this
    {
      State(pending, timers, log)
    }

    constructor ()
      ensures Now() == INIT
    {
      pending, timers, log := map[], [], [];
    }

    method ScheduleReload(tenant: int)
      modifies this
      ensures Enabled(old(Now()), Happens(tenant)) && Now() == Next(old(Now()), Happens(tenant))
    {
      if tenant in pending {
        var i := pending[tenant];
        if i < |timers| && timers[i].phase.Armed? { timers := timers[i := timers[i].(phase := Stopped)]; }
      }
      pending := pending[tenant := |timers|];
      timers := timers + [Timer(tenant, Armed)];
      log := log + [Event(tenant)];
    }

    /** The locked part of a fired timer's callback. */
    method ClearEntry(i: nat)
      requires i < |timers| && timers[i].phase.Fired?
      modifies this
      ensures Enabled(old(Now()), Clears(i)) && Now() == Next(old(Now()), Clears(i))
    {
      pending := pending - {timers[i].tenant};
      timers := timers[i := timers[i].(phase := Cleared)];
    }
  }

  // ---------- no update is lost ----------

  /** An event of the tenant has come after the last start of a reload of it. */
  function Waiting(log: seq<Entry>, t: int): bool {
    if log == [] then false
    else
      var last := log[|log| - 1];
      if last.tenant == t then last.Event? else Waiting(log[..|log| - 1], t)
  }

  /** The timer will still call ReloadTenant. */
  predicate Live(x: Timer) {
    x.phase.Armed? || x.phase.Fired? || x.phase.Cleared?
  }

  /** The newest timer of a tenant. */
  function Newest(timers: seq<Timer>, t: int): (k: nat)
    ensures k <= |timers| && (k < |timers| ==> timers[k].tenant == t)
    ensures forall i :: 0 <= i < |timers| && timers[i].tenant == t ==> i <= k < |timers|
  {
    if timers == [] then 0
    else
      var n := |timers| - 1;
      if timers[n].tenant == t then n
      else
        var k := Newest(timers[..n], t);
        if k < n then k else n + 1
  }

  /** The map points at timers of the right tenant; nobody stops a tenant's newest timer. */
  ghost predicate Sound(s: State) {
    && (forall t :: t in s.pending ==> s.pending[t] < |s.timers| && s.timers[s.pending[t]].tenant == t)
    && (forall t :: Waiting(s.log, t) ==> NewestLive(s.timers, t))
  }

  ghost predicate NewestLive(timers: seq<Timer>, t: int) {
    Newest(timers, t) < |timers| && Live(timers[Newest(timers, t)])
  }

  lemma NewestIs(timers: seq<Timer>, t: int, k: nat)
    requires k < |timers| && timers[k].tenant == t && forall i :: k < i < |timers| ==> timers[i].tenant != t
    ensures Newest(timers, t) == k
  {}

  /** A change of phase moves no tenant's newest timer. */
  lemma NewestKept(timers: seq<Timer>, i: nat, p: Phase, t: int)
    requires i < |timers|
    ensures Newest(timers[i := timers[i].(phase := p)], t) == Newest(timers, t)
  {
    var changed, k := timers[i := timers[i].(phase := p)], Newest(timers, t);
    if k < |timers| {
      NewestIs(changed, t, k);
    } else {
      assert forall j :: 0 <= j < |changed| ==> changed[j].tenant == timers[j].tenant;
    }
  }

  lemma LogAppend(log: seq<Entry>, e: Entry, t: int)
    ensures Waiting(log + [e], t) == if e.tenant == t then e.Event? else Waiting(log, t)
  {
    assert (log + [e])[..|log|] == log;
  }

  lemma ScheduleSound(s: State, t: int)
    requires Sound(s)
    ensures Sound(Schedule(s, t))
  {
    var s' := Schedule(s, t);
    forall u | Waiting(s'.log, u) ensures NewestLive(s'.timers, u) {
      LogAppend(s.log, Event(t), u);
      if u == t {
        NewestIs(s'.timers, u, |s.timers|);
      } else {
        var k := Newest(s.timers, u);
        assert NewestLive(s.timers, u);
        NewestIs(s'.timers, u, k);
      }
    }
  }

  lemma PhaseSound(s: State, i: nat, p: Phase, t: int)
    requires i < |s.timers| && NewestLive(s.timers, t) && (Live(Timer(0, p)) || s.timers[i].tenant != t)
    ensures NewestLive(SetPhase(s, i, p).timers, t)
  {
    NewestKept(s.timers, i, p, t);
  }

  lemma StepSound(s: State, step: Step)
    requires Sound(s) && Enabled(s, step)
    ensures Sound(Next(s, step))
  {
    var s' := Next(s, step);
    match step
    case Happens(t) => ScheduleSound(s, t);
    case Fires(i) =>
      forall t | Waiting(s'.log, t) ensures NewestLive(s'.timers, t) { PhaseSound(s, i, Fired, t); }
    case Clears(i) =>
      forall t | Waiting(s'.log, t) ensures NewestLive(s'.timers, t) { PhaseSound(s, i, Cleared, t); }
    case Reloads(i) =>
      forall t | Waiting(s'.log, t) ensures NewestLive(s'.timers, t) {
        LogAppend(s.log, Reload(s.timers[i].tenant), t);
        PhaseSound(s, i, Reloading, t);
      }
  }

  lemma {:induction false} RunSound(s: State, steps: seq<Step>, s': State)
    requires Sound(s) && Runs(s, steps, s')
    ensures Sound(s')
    decreases steps
  {
    if steps != [] {
      StepSound(s, steps[0]);
      RunSound(Next(s, steps[0]), steps[1..], s');
    }
  }

  /**
   * In every interleaving: when an event for t has come after the last start of a reload of t, a timer of t is armed
   * or its callback has not reached ReloadTenant yet.
   */
  lemma NoUpdateLost(steps: seq<Step>, s: State, t: int)
    requires Runs(INIT, steps, s) && Waiting(s.log, t)
    ensures exists i :: 0 <= i < |s.timers| && s.timers[i].tenant == t && Live(s.timers[i])
  {
    RunSound(INIT, steps, s);
    assert NewestLive(s.timers, t);
  }

  /** What is left of a timer's way to its reload. */
  function WayToReload(x: Timer, i: nat): seq<Step> {
    if x.phase.Armed? then [Fires(i), Clears(i), Reloads(i)]
    else if x.phase.Fired? then [Clears(i), Reloads(i)]
    else [Reloads(i)]
  }

  lemma {:induction false} WayLeads(s: State, i: nat) returns (s': State)
    requires i < |s.timers| && Live(s.timers[i])
    ensures Runs(s, WayToReload(s.timers[i], i), s') && s'.log == s.log + [Reload(s.timers[i].tenant)]
    decreases |WayToReload(s.timers[i], i)|
  {
    var way := WayToReload(s.timers[i], i);
    var s1 := Next(s, way[0]);
    if s.timers[i].phase.Cleared? {
      s' := s1;
      assert Runs(s1, way[1..], s');
    } else {
      s' := WayLeads(s1, i);
      assert way[1..] == WayToReload(s1.timers[i], i);
    }
  }

  /** In every interleaving, an update that has not been reloaded yet is reloaded if the timers just go on. */
  lemma UpdateCanReload(steps: seq<Step>, s: State, t: int) returns (rest: seq<Step>, s': State)
    requires Runs(INIT, steps, s) && Waiting(s.log, t)
    ensures Runs(s, rest, s') && s'.log == s.log + [Reload(t)] && !Waiting(s'.log, t)
    ensures forall i :: 0 <= i < |rest| ==> !rest[i].Happens?
  {
    NoUpdateLost(steps, s, t);
    var i :| 0 <= i < |s.timers| && s.timers[i].tenant == t && Live(s.timers[i]);
    rest := WayToReload(s.timers[i], i);
    s' := WayLeads(s, i);
    LogAppend(s.log, Reload(t), t);
  }

  // ---------- reloads and events ----------

  function One(b: bool): nat { if b then 1 else 0 }

  function Count(log: seq<Entry>, e: Entry): nat {
    if log == [] then 0 else Count(log[..|log| - 1], e) + One(log[|log| - 1] == e)
  }

  /** How many timers of a tenant are in a phase; in any phase when `all`. */
  function Timers(timers: seq<Timer>, t: int, p: Phase, all: bool): nat {
    if timers == [] then 0
    else
      var x := timers[|timers| - 1];
      Timers(timers[..|timers| - 1], t, p, all) + One(x.tenant == t && (all || x.phase == p))
  }

  lemma {:induction false} TimersUpdate(timers: seq<Timer>, i: nat, x: Timer, t: int, p: Phase, all: bool)
    requires i < |timers|
    ensures Timers(timers[i := x], t, p, all) ==
      Timers(timers, t, p, all)
        - One(timers[i].tenant == t && (all || timers[i].phase == p)) + One(x.tenant == t && (all || x.phase == p))
  {
    var n := |timers| - 1;
    if i == n {
      assert timers[i := x][..n] == timers[..n];
    } else {
      TimersUpdate(timers[..n], i, x, t, p, all);
      assert timers[i := x][..n] == timers[..n][i := x];
    }
  }

  lemma {:induction false} PhaseAtMostAll(timers: seq<Timer>, t: int, p: Phase)
    ensures Timers(timers, t, p, false) <= Timers(timers, t, p, true)
  {
    if timers != [] { PhaseAtMostAll(timers[..|timers| - 1], t, p); }
  }

  /** One timer per event, one reload per timer that got that far. */
  ghost predicate Counted(s: State, t: int) {
    && Count(s.log, Event(t)) == Timers(s.timers, t, Reloading, true)
    && Count(s.log, Reload(t)) == Timers(s.timers, t, Reloading, false)
  }

  lemma CountAppend(log: seq<Entry>, e: Entry, x: Entry)
    ensures Count(log + [e], x) == Count(log, x) + One(e == x)
  {
    assert (log + [e])[..|log|] == log;
  }

  lemma TimersAppend(timers: seq<Timer>, x: Timer, t: int, p: Phase, all: bool)
    ensures Timers(timers + [x], t, p, all) == Timers(timers, t, p, all) + One(x.tenant == t && (all || x.phase == p))
  {
    assert (timers + [x])[..|timers|] == timers;
  }

  lemma SetPhaseCounts(s: State, i: nat, p: Phase, t: int)
    requires i < |s.timers| && !s.timers[i].phase.Reloading?
    ensures var after := SetPhase(s, i, p).timers;
      && Timers(after, t, Reloading, true) == Timers(s.timers, t, Reloading, true)
      && Timers(after, t, Reloading, false) ==
         Timers(s.timers, t, Reloading, false) + One(s.timers[i].tenant == t && p.Reloading?)
  {
    TimersUpdate(s.timers, i, s.timers[i].(phase := p), t, Reloading, true);
    TimersUpdate(s.timers, i, s.timers[i].(phase := p), t, Reloading, false);
  }

  lemma StopCounts(timers: seq<Timer>, i: nat, t: int, all: bool)
    ensures Timers(Stop(timers, i), t, Reloading, all) == Timers(timers, t, Reloading, all)
  {
    if i < |timers| && timers[i].phase.Armed? {
      TimersUpdate(timers, i, timers[i].(phase := Stopped), t, Reloading, all);
    }
  }

  /** An event is counted as one more timer and as no reload. */
  lemma ScheduleTimers(s: State, u: int, t: int, all: bool)
    ensures Timers(Schedule(s, u).timers, t, Reloading, all) == Timers(s.timers, t, Reloading, all) + One(u == t && all)
  {
    if u in s.pending {
      StopCounts(s.timers, s.pending[u], t, all);
      TimersAppend(Stop(s.timers, s.pending[u]), Timer(u, Armed), t, Reloading, all);
    } else {
      TimersAppend(s.timers, Timer(u, Armed), t, Reloading, all);
    }
  }

  lemma ScheduleLog(s: State, u: int, t: int)
    ensures Count(Schedule(s, u).log, Event(t)) == Count(s.log, Event(t)) + One(u == t)
    ensures Count(Schedule(s, u).log, Reload(t)) == Count(s.log, Reload(t))
  {
    CountAppend(s.log, Event(u), Event(t));
    CountAppend(s.log, Event(u), Reload(t));
  }

  lemma ScheduleCounted(s: State, u: int, t: int)
    requires Counted(s, t)
    ensures Counted(Schedule(s, u), t)
  {
    ScheduleTimers(s, u, t, true);
    ScheduleTimers(s, u, t, false);
    ScheduleLog(s, u, t);
  }

  lemma StepCounted(s: State, step: Step, t: int)
    requires Counted(s, t) && Enabled(s, step)
    ensures Counted(Next(s, step), t)
  {
    match step
    case Happens(u) => ScheduleCounted(s, u, t);
    case Fires(i) => SetPhaseCounts(s, i, Fired, t);
    case Clears(i) => SetPhaseCounts(s, i, Cleared, t);
    case Reloads(i) =>
      SetPhaseCounts(s, i, Reloading, t);
      CountAppend(s.log, Reload(s.timers[i].tenant), Event(t));
      CountAppend(s.log, Reload(s.timers[i].tenant), Reload(t));
  }

  lemma {:induction false} RunCounted(s: State, steps: seq<Step>, s': State, t: int)
    requires Counted(s, t) && Runs(s, steps, s')
    ensures Counted(s', t)
    decreases steps
  {
    if steps != [] {
      StepCounted(s, steps[0], t);
      RunCounted(Next(s, steps[0]), steps[1..], s', t);
    }
  }

  /** Reloads of a tenant never outnumber its events. */
  lemma ReloadsAtMostEvents(steps: seq<Step>, s: State, t: int)
    requires Runs(INIT, steps, s)
    ensures Count(s.log, Reload(t)) <= Count(s.log, Event(t))
  {
    RunCounted(INIT, steps, s, t);
    PhaseAtMostAll(s.timers, t, Reloading);
  }

  // ---------- one timer at a time ----------

  /** An armed timer of the tenant that its map entry does not point at. */
  ghost predicate Hidden(s: State, t: int) {
    exists i :: 0 <= i < |s.timers| && s.timers[i] == Timer(t, Armed) && !(t in s.pending && s.pending[t] == i)
  }

  ghost predicate AtMostOneArmed(s: State, t: int) {
    forall i, j :: 0 <= i < j < |s.timers| ==> s.timers[i] != Timer(t, Armed) || s.timers[j] != Timer(t, Armed)
  }

  /** A callback takes the mutex when its tenant has a newer timer, still armed, in the map: it deletes that entry. */
  predicate Late(s: State, step: Step, t: int) {
    && step.Clears? && step.i < |s.timers| && s.timers[step.i].tenant == t
    && t in s.pending && s.pending[t] != step.i
    && s.pending[t] < |s.timers| && s.timers[s.pending[t]].phase.Armed?
  }

  /** The cause: a late callback, and nothing else, hides an armed timer from the map. */
  lemma HidesIff(s: State, step: Step, t: int)
    requires Sound(s) && !Hidden(s, t) && Enabled(s, step)
    ensures Hidden(Next(s, step), t) <==> Late(s, step, t)
  {
    var s' := Next(s, step);
    if Late(s, step, t) {
      assert s'.timers[s.pending[t]] == Timer(t, Armed);
    } else {
      forall i | 0 <= i < |s'.timers| && s'.timers[i] == Timer(t, Armed) ensures t in s'.pending && s'.pending[t] == i {
        if i < |s.timers| { assert s.timers[i] == Timer(t, Armed); }
      }
    }
  }

  /** What an event does to the timers there are: it stops the one in the map and arms one more. */
  lemma EventArms(s: State, t: int)
    requires Sound(s)
    ensures var s' := Schedule(s, t);
      && |s'.timers| == |s.timers| + 1 && s'.timers[|s.timers|] == Timer(t, Armed)
      && forall i :: 0 <= i < |s.timers| ==>
        (s'.timers[i] == Timer(t, Armed) <==> s.timers[i] == Timer(t, Armed) && !(t in s.pending && s.pending[t] == i))
  {}

  /** The effect: an event that comes while a timer is hidden, and nothing else, leaves two armed timers. */
  lemma StepOneIff(s: State, step: Step, t: int)
    requires Sound(s) && AtMostOneArmed(s, t) && Enabled(s, step)
    ensures AtMostOneArmed(Next(s, step), t) <==> !(step == Happens(t) && Hidden(s, t))
  {
    var s' := Next(s, step);
    if step == Happens(t) {
      EventArms(s, t);
      if Hidden(s, t) {
        var i :| 0 <= i < |s.timers| && s.timers[i] == Timer(t, Armed) && !(t in s.pending && s.pending[t] == i);
        assert s'.timers[i] == Timer(t, Armed) && s'.timers[|s.timers|] == Timer(t, Armed);
      }
    } else {
      forall i | 0 <= i < |s'.timers| && s'.timers[i] == Timer(t, Armed)
        ensures i < |s.timers| && s.timers[i] == Timer(t, Armed) {}
    }
  }

  /** From a state without a hidden timer, the event after a step leaves two armed exactly when the step is late. */
  lemma NextEventIff(s: State, step: Step, t: int)
    requires Sound(s) && AtMostOneArmed(s, t) && !Hidden(s, t) && Enabled(s, step)
    ensures AtMostOneArmed(Schedule(Next(s, step), t), t) <==> !Late(s, step, t)
  {
    HidesIff(s, step, t);
    StepOneIff(s, step, t);
    StepSound(s, step);
    StepOneIff(Next(s, step), Happens(t), t);
  }

  /** At every moment of the run the tenant has one armed timer at most. */
  ghost predicate OneAtATime(s: State, steps: seq<Step>, t: int)
    decreases steps
  {
    && AtMostOneArmed(s, t)
    && (steps != [] && Enabled(s, steps[0]) ==> OneAtATime(Next(s, steps[0]), steps[1..], t))
  }

  /** No event of the tenant comes while one of its timers is hidden from the map. */
  ghost predicate NoEventWhileHidden(s: State, steps: seq<Step>, t: int)
    decreases steps
  {
    steps == [] || (!(steps[0] == Happens(t) && Hidden(s, t)) &&
                    (Enabled(s, steps[0]) ==> NoEventWhileHidden(Next(s, steps[0]), steps[1..], t)))
  }

  /** At no moment of the run is a timer of the tenant hidden from the map. */
  ghost predicate NeverHidden(s: State, steps: seq<Step>, t: int)
    decreases steps
  {
    !Hidden(s, t) && (steps != [] && Enabled(s, steps[0]) ==> NeverHidden(Next(s, steps[0]), steps[1..], t))
  }

  /** No callback of the tenant is late in the run. */
  ghost predicate OnTime(s: State, steps: seq<Step>, t: int)
    decreases steps
  {
    steps == [] || (!Late(s, steps[0], t) && (Enabled(s, steps[0]) ==> OnTime(Next(s, steps[0]), steps[1..], t)))
  }

  lemma {:induction false} OneAtATimeIff(s: State, steps: seq<Step>, s': State, t: int)
    requires Sound(s) && AtMostOneArmed(s, t) && Runs(s, steps, s')
    ensures OneAtATime(s, steps, t) <==> NoEventWhileHidden(s, steps, t)
    decreases steps
  {
    if steps != [] {
      var step := steps[0];
      StepOneIff(s, step, t);
      if !(step == Happens(t) && Hidden(s, t)) {
        StepSound(s, step);
        OneAtATimeIff(Next(s, step), steps[1..], s', t);
      }
    }
  }

  lemma {:induction false} OnTimeIff(s: State, steps: seq<Step>, s': State, t: int)
    requires Sound(s) && !Hidden(s, t) && Runs(s, steps, s')
    ensures NeverHidden(s, steps, t) <==> OnTime(s, steps, t)
    ensures NeverHidden(s, steps, t) ==> NoEventWhileHidden(s, steps, t)
    decreases steps
  {
    if steps != [] {
      var step := steps[0];
      HidesIff(s, step, t);
      if !Late(s, step, t) {
        StepSound(s, step);
        OnTimeIff(Next(s, step), steps[1..], s', t);
      }
    }
  }

  /**
   * In every run, over any number of bursts and reloads, a tenant has one armed timer at most at every moment if and
   * only if no event of it comes while a timer is hidden from the map. Runs without a late callback are such runs.
   */
  lemma OneTimerIff(steps: seq<Step>, s: State, t: int)
    requires Runs(INIT, steps, s)
    ensures OneAtATime(INIT, steps, t) <==> NoEventWhileHidden(INIT, steps, t)
    ensures OnTime(INIT, steps, t) ==> OneAtATime(INIT, steps, t)
  {
    OneAtATimeIff(INIT, steps, s, t);
    OnTimeIff(INIT, steps, s, t);
  }

  /** In every run the map knows a tenant's armed timer at every moment if and only if no callback of it is late. */
  lemma NeverHiddenIff(steps: seq<Step>, s: State, t: int)
    requires Runs(INIT, steps, s)
    ensures NeverHidden(INIT, steps, t) <==> OnTime(INIT, steps, t)
  {
    OnTimeIff(INIT, steps, s, t);
  }

  /** The state in which a first timer has fired and an event has armed a second one. */
  function BeforeLate(t: int): State {
    State(map[t := 1], [Timer(t, Fired), Timer(t, Armed)], [Event(t), Event(t)])
  }

  /** The late callback of the first timer hides the second. */
  function AfterLate(t: int): State {
    State(map[], [Timer(t, Cleared), Timer(t, Armed)], [Event(t), Event(t)])
  }

  lemma LateStep(t: int)
    ensures Enabled(BeforeLate(t), Clears(0)) && Next(BeforeLate(t), Clears(0)) == AfterLate(t)
    ensures Late(BeforeLate(t), Clears(0), t) && AtMostOneArmed(BeforeLate(t), t)
  {}

  lemma UpToLate(t: int)
    ensures
      var s1 := State(map[t := 0], [Timer(t, Armed)], [Event(t)]);
      var s2 := State(map[t := 0], [Timer(t, Fired)], [Event(t)]);
      && Next(INIT, Happens(t)) == s1 && Enabled(s1, Fires(0)) && Next(s1, Fires(0)) == s2
      && Next(s2, Happens(t)) == BeforeLate(t) && AtMostOneArmed(s1, t) && AtMostOneArmed(s2, t)
  {}

  lemma OneMore(s: State, step: Step, rest: seq<Step>, s': State, t: int)
    requires Enabled(s, step) && Runs(Next(s, step), rest, s')
    ensures var steps := [step] + rest;
      && Runs(s, steps, s') && (OnTime(s, steps, t) <==> !Late(s, step, t) && OnTime(Next(s, step), rest, t))
      && (OneAtATime(s, steps, t) <==> AtMostOneArmed(s, t) && OneAtATime(Next(s, step), rest, t))
  {
    assert ([step] + rest)[1..] == rest;
  }

  function LateRun(t: int, rest: seq<Step>): seq<Step> {
    [Happens(t)] + ([Fires(0)] + ([Happens(t)] + ([Clears(0)] + rest)))
  }

  lemma LateCallbackHides(t: int, rest: seq<Step>, s': State)
    requires Runs(AfterLate(t), rest, s')
    ensures Runs(INIT, LateRun(t, rest), s') && !OnTime(INIT, LateRun(t, rest), t)
    ensures OneAtATime(AfterLate(t), rest, t) ==> OneAtATime(INIT, LateRun(t, rest), t)
  {
    LateStep(t);
    UpToLate(t);
    var s1, s2 := Next(INIT, Happens(t)), Next(Next(INIT, Happens(t)), Fires(0));
    OneMore(BeforeLate(t), Clears(0), rest, s', t);
    OneMore(s2, Happens(t), [Clears(0)] + rest, s', t);
    OneMore(s1, Fires(0), [Happens(t)] + ([Clears(0)] + rest), s', t);
    OneMore(INIT, Happens(t), [Fires(0)] + ([Happens(t)] + ([Clears(0)] + rest)), s', t);
  }

  /** A late callback does no harm when the timer it hid fires before the next event. */
  lemma LateButHarmless(t: int)
    ensures var steps := [Happens(t), Fires(0), Happens(t), Clears(0), Fires(1)];
      (exists s :: Runs(INIT, steps, s)) && !OnTime(INIT, steps, t) && OneAtATime(INIT, steps, t)
  {
    var s, rest := AfterLate(t), [Fires(1)];
    var s' := Next(s, Fires(1));
    assert Runs(s', rest[1..], s') && OneAtATime(s', rest[1..], t);
    LateCallbackHides(t, rest, s');
    assert LateRun(t, rest) == [Happens(t), Fires(0), Happens(t), Clears(0), Fires(1)];
  }

  /** When the next event comes first, it cannot stop the hidden timer, and two are armed. */
  lemma LateCallbackLeavesTwoTimers(t: int)
    ensures var steps := [Happens(t), Fires(0), Happens(t), Clears(0), Happens(t)];
      exists s :: Runs(INIT, steps, s) && s.timers == [Timer(t, Cleared), Timer(t, Armed), Timer(t, Armed)]
  {
    var s, rest := AfterLate(t), [Happens(t)];
    var s' := Next(s, Happens(t));
    assert Runs(s', rest[1..], s');
    LateCallbackHides(t, rest, s');
    assert LateRun(t, rest) == [Happens(t), Fires(0), Happens(t), Clears(0), Happens(t)];
    assert s'.timers == [Timer(t, Cleared), Timer(t, Armed), Timer(t, Armed)];
  }
}
