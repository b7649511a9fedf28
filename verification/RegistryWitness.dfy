/**
 * A run of the registry, with a cache of one entry and one loader worker, after which the file of tenant 1 holds one
 * version, a reload that read it is about to return, nothing else is in flight, and the cache answers from an older
 * one.
 */
module RegistryWitness {
  import opened Text
  import opened Policy
  import opened LruSpec
  import opened Registry
  import opened RegistryFresh
  import opened RegistryStale

  /** The versions, the request and the settings the run is about. */
  datatype Scene = Scene(rx: Regex, v1: TenantPolicy, v2: TenantPolicy, w: TenantPolicy, q: Query)

  function Settings(x: Scene): Config {
    Config(x.rx, 1, 1)
  }

  ghost function At0(x: Scene): State {
    Init(Settings(x)).(workers := [Idle])
  }

  ghost function At0a(x: Scene): State {
    At0(x).(hist := map[1 := [Holds(x.v1)]], reqs := [Start(x.q)])
  }

  /** A request for tenant 1 has missed. */
  ghost function At1(x: Scene): State {
    At0(x).(hist := map[1 := [Holds(x.v1)]], reqs := [Missed(x.q)])
  }

  ghost function At1a(x: Scene): State {
    At1(x).(reqs := [Leading(x.q, 0)], flights := [Flight(1, 0, Creating)], group := map[1 := 0])
  }

  /** It leads a call that waits for a job. */
  ghost function At2(x: Scene): State {
    At1(x).(reqs := [Leading(x.q, 0)], flights := [Flight(1, 0, Waiting(0))], group := map[1 := 0],
      jobs := [Job(1, 0, [], false, 0)], queue := [0], created := multiset{1})
  }

  /** The worker has read version 1. */
  ghost function At3(x: Scene): State {
    At2(x).(queue := [], workers := [HasRead(0, Value(x.v1))])
  }

  ghost function At3a(x: Scene): State {
    At3(x).(reloads := [RRead(1, x.v1)])
  }

  ghost function At3b(x: Scene): State {
    At3(x).(reloads := [RAbsent(1, x.v1)])
  }

  /** A reload has put version 1 into the cache. */
  ghost function At4(x: Scene): State {
    At3(x).(pols := [Pol(1, x.v1, {}, None)],
      entries := [Entry(1, 0)], lru := [Slot(1, 0)], cacheOps := [Op.Insert(1, 0)],
      reloads := [RDone(1, true)])
  }

  ghost function At4a(x: Scene): State {
    At4(x).(hist := map[1 := [Holds(x.v1), Holds(x.v2)]], reloads := [RDone(1, true), RStart(1)])
  }

  /** The file holds version 2; a second reload has read it and found the entry of the first. */
  ghost function At5(x: Scene): State {
    At4(x).(hist := map[1 := [Holds(x.v1), Holds(x.v2)]], reloads := [RDone(1, true), RFound(1, x.v2, 0)])
  }

  ghost function At5a(x: Scene): State {
    At5(x).(hist := map[1 := [Holds(x.v1), Holds(x.v2)], 2 := [Holds(x.w)]],
      reloads := [RDone(1, true), RFound(1, x.v2, 0), RStart(2)])
  }

  ghost function At5b(x: Scene): State {
    At5a(x).(reloads := [RDone(1, true), RFound(1, x.v2, 0), RAbsent(2, x.w)])
  }

  /** A reload of tenant 2 has pushed that entry out of the cache. */
  ghost function At6(x: Scene): State {
    At5(x).(hist := map[1 := [Holds(x.v1), Holds(x.v2)], 2 := [Holds(x.w)]],
      pols := [Pol(1, x.v1, {}, None), Pol(2, x.w, {}, None)],
      entries := [Entry(1, 0), Entry(2, 1)], lru := [Slot(2, 1)],
      cacheOps := [Op.Insert(1, 0), Op.Insert(2, 1)], evicted := multiset{1},
      reloads := [RDone(1, true), RFound(1, x.v2, 0), RDone(2, true)])
  }

  ghost function At6a(x: Scene): State {
    At7(x).(jobs := [Job(1, 0, [], true, 0)], workers := [HasInserted(0, Hit(2))])
  }

  /** The worker has put the version 1 it read long ago into a new entry. */
  ghost function At7(x: Scene): State {
    At6(x).(pols := [Pol(1, x.v1, {}, None), Pol(2, x.w, {}, None), Pol(1, x.v1, {}, None)],
      entries := [Entry(1, 0), Entry(2, 1), Entry(1, 2)], lru := [Slot(1, 2)],
      cacheOps := [Op.Insert(1, 0), Op.Insert(2, 1), Op.Insert(1, 2)], evicted := multiset{1, 2},
      jobs := [Job(1, 0, [Hit(2)], true, 1)], workers := [Idle])
  }

  ghost function At7a(x: Scene): State {
    At7(x).(jobs := [Job(1, 0, [], true, 1)], flights := [Flight(1, 0, Ended(Hit(2)))])
  }

  /** The request has its policy; no load is in flight. */
  ghost function At8(x: Scene): State {
    At7(x).(jobs := [Job(1, 0, [], true, 1)], flights := [Flight(1, 0, Left(Hit(2)))],
      group := map[], reqs := [Got(x.q, 2)])
  }

  /** The second reload has the lock of the object in the entry that was pushed out. */
  ghost function At9(x: Scene): State {
    At8(x).(pols := [Pol(1, x.v1, {}, Some(1)), Pol(2, x.w, {}, None), Pol(1, x.v1, {}, None)],
      reloads := [RDone(1, true), RWriting(1, x.v2, 0, 0), RDone(2, true)])
  }

  ghost function At9a(x: Scene): State {
    var mixed := x.v1.(defaultAction := x.v2.defaultAction, evaluationOrder := x.v2.evaluationOrder);
    At9(x).(pols := [Pol(1, mixed, {}, Some(1)), Pol(2, x.w, {}, None), Pol(1, x.v1, {}, None)],
      reloads := [RDone(1, true), RWriting(1, x.v2, 0, 2), RDone(2, true)])
  }

  /** It has written version 2 into it. */
  ghost function At10(x: Scene): State {
    At9(x).(pols := [Pol(1, x.v2, {}, Some(1)), Pol(2, x.w, {}, None), Pol(1, x.v1, {}, None)],
      reloads := [RDone(1, true), RWriting(1, x.v2, 0, 4), RDone(2, true)])
  }

  lemma FromAt0(x: Scene)
    requires x.q.tenant == 1
    ensures Runs(Settings(x), At0(x), [Publish(1, Holds(x.v1)), Begin(x.q)], At0a(x))
  {
    var c, s := Settings(x), At0(x);
    var s1 := Next(c, s, Publish(1, Holds(x.v1)));
    assert [] + [Holds(x.v1)] == [Holds(x.v1)];
    assert s1.hist == map[1 := [Holds(x.v1)]];
    TwoSteps(c, s, Publish(1, Holds(x.v1)), s1, Begin(x.q), At0a(x));
  }

  lemma FromAt0a(x: Scene)
    requires x.q.tenant == 1
    ensures Runs(Settings(x), At0a(x), [Lookup(0)], At1(x))
  {
    OneStep(Settings(x), At0a(x), Lookup(0), At1(x));
  }

  lemma FromAt1(x: Scene)
    requires x.q.tenant == 1
    ensures Runs(Settings(x), At1(x), [EnterFlight(0), LeaderCheck(0)], At1a(x))
  {
    var c, s := Settings(x), At1(x);
    var s1 := Next(c, s, EnterFlight(0));
    assert s1.group == map[1 := 0];
    TwoSteps(c, s, EnterFlight(0), s1, LeaderCheck(0), At1a(x));
  }

  lemma FromAt1a(x: Scene)
    requires x.q.tenant == 1
    ensures Runs(Settings(x), At1a(x), [LeaderSend(0)], At2(x))
  {
    OneStep(Settings(x), At1a(x), LeaderSend(0), At2(x));
  }

  lemma FromAt2(x: Scene)
    requires x.q.tenant == 1
    ensures Runs(Settings(x), At2(x), [WorkerTake(0), WorkerRead(0)], At3(x))
  {
    var c, s := Settings(x), At2(x);
    var s1 := Next(c, s, WorkerTake(0));
    TwoSteps(c, s, WorkerTake(0), s1, WorkerRead(0), At3(x));
  }

  lemma FromAt3(x: Scene)
    requires x.q.tenant == 1
    ensures Runs(Settings(x), At3(x), [ReloadBegin(1), ReloadRead(0)], At3a(x))
  {
    var c, s := Settings(x), At3(x);
    var s1 := Next(c, s, ReloadBegin(1));
    TwoSteps(c, s, ReloadBegin(1), s1, ReloadRead(0), At3a(x));
  }

  lemma FromAt3a(x: Scene)
    requires x.q.tenant == 1
    ensures Runs(Settings(x), At3a(x), [ReloadLookup(0)], At3b(x))
  {
    OneStep(Settings(x), At3a(x), ReloadLookup(0), At3b(x));
  }

  lemma FromAt3b(x: Scene)
    requires x.q.tenant == 1
    ensures Runs(Settings(x), At3b(x), [ReloadInsert(0)], At4(x))
  {
    OneStep(Settings(x), At3b(x), ReloadInsert(0), At4(x));
  }

  lemma FromAt4(x: Scene)
    requires x.q.tenant == 1
    ensures Runs(Settings(x), At4(x), [Publish(1, Holds(x.v2)), ReloadBegin(1)], At4a(x))
  {
    var c, s := Settings(x), At4(x);
    var s1 := Next(c, s, Publish(1, Holds(x.v2)));
    assert [Holds(x.v1)] + [Holds(x.v2)] == [Holds(x.v1), Holds(x.v2)];
    assert s1.hist == map[1 := [Holds(x.v1), Holds(x.v2)]];
    TwoSteps(c, s, Publish(1, Holds(x.v2)), s1, ReloadBegin(1), At4a(x));
  }

  lemma FromAt4a(x: Scene)
    requires x.q.tenant == 1
    ensures Runs(Settings(x), At4a(x), [ReloadRead(1), ReloadLookup(1)], At5(x))
  {
    var c, s := Settings(x), At4a(x);
    var s1 := Next(c, s, ReloadRead(1));
    TwoSteps(c, s, ReloadRead(1), s1, ReloadLookup(1), At5(x));
  }

  lemma FromAt5(x: Scene)
    requires x.q.tenant == 1
    ensures Runs(Settings(x), At5(x), [Publish(2, Holds(x.w)), ReloadBegin(2)], At5a(x))
  {
    var c, s := Settings(x), At5(x);
    var s1 := Next(c, s, Publish(2, Holds(x.w)));
    assert [] + [Holds(x.w)] == [Holds(x.w)];
    assert s1.hist == map[1 := [Holds(x.v1), Holds(x.v2)], 2 := [Holds(x.w)]];
    TwoSteps(c, s, Publish(2, Holds(x.w)), s1, ReloadBegin(2), At5a(x));
  }

  lemma FromAt5a(x: Scene)
    requires x.q.tenant == 1
    ensures Runs(Settings(x), At5a(x), [ReloadRead(2), ReloadLookup(2)], At5b(x))
  {
    var c, s := Settings(x), At5a(x);
    var s1 := Next(c, s, ReloadRead(2));
    TwoSteps(c, s, ReloadRead(2), s1, ReloadLookup(2), At5b(x));
  }

  lemma FromAt5b(x: Scene)
    requires x.q.tenant == 1
    ensures Runs(Settings(x), At5b(x), [ReloadInsert(2)], At6(x))
  {
    OneStep(Settings(x), At5b(x), ReloadInsert(2), At6(x));
  }

  lemma FromAt6(x: Scene)
    requires x.q.tenant == 1
    ensures Runs(Settings(x), At6(x), [WorkerInsert(0)], At6a(x))
  {
    OneStep(Settings(x), At6(x), WorkerInsert(0), At6a(x));
  }

  lemma FromAt6a(x: Scene)
    requires x.q.tenant == 1
    ensures Runs(Settings(x), At6a(x), [WorkerAnswer(0)], At7(x))
  {
    var none: seq<Res> := [];
    assert none + [Hit(2)] == [Hit(2)];
    OneStep(Settings(x), At6a(x), WorkerAnswer(0), At7(x));
  }

  lemma FromAt7(x: Scene)
    requires x.q.tenant == 1
    ensures Runs(Settings(x), At7(x), [LeaderReceive(0)], At7a(x))
  {
    assert [Hit(2)][1..] == [];
    OneStep(Settings(x), At7(x), LeaderReceive(0), At7a(x));
  }

  lemma FromAt7a(x: Scene)
    requires x.q.tenant == 1
    ensures Runs(Settings(x), At7a(x), [LeaderLeave(0)], At8(x))
  {
    assert map[1 := 0] - {1} == map[];
    OneStep(Settings(x), At7a(x), LeaderLeave(0), At8(x));
  }

  lemma FromAt8(x: Scene)
    requires x.q.tenant == 1
    ensures Runs(Settings(x), At8(x), [ReloadAim(1), ReloadLock(1)], At9(x))
  {
    var c, s := Settings(x), At8(x);
    var s1 := Next(c, s, ReloadAim(1));
    TwoSteps(c, s, ReloadAim(1), s1, ReloadLock(1), At9(x));
  }

  lemma FromAt9(x: Scene)
    requires x.q.tenant == 1
    ensures Runs(Settings(x), At9(x), [ReloadWrite(1), ReloadWrite(1)], At9a(x))
  {
    var c, s := Settings(x), At9(x);
    var s1 := Next(c, s, ReloadWrite(1));
    TwoSteps(c, s, ReloadWrite(1), s1, ReloadWrite(1), At9a(x));
  }

  lemma FromAt9a(x: Scene)
    requires x.q.tenant == 1
    ensures Runs(Settings(x), At9a(x), [ReloadWrite(1), ReloadWrite(1)], At10(x))
  {
    var c, s := Settings(x), At9a(x);
    var s1 := Next(c, s, ReloadWrite(1));
    TwoSteps(c, s, ReloadWrite(1), s1, ReloadWrite(1), At10(x));
  }

  ghost predicate Reachable(x: Scene, s: State) {
    exists steps :: Runs(Settings(x), Init(Settings(x)), steps, s)
  }

  lemma Onward(x: Scene, s: State, steps: seq<Step>, s': State)
    requires Reachable(x, s) && Runs(Settings(x), s, steps, s')
    ensures Reachable(x, s')
  {
    var before :| Runs(Settings(x), Init(Settings(x)), before, s);
    RunsConcat(Settings(x), Init(Settings(x)), before, s, steps, s');
  }

  lemma FirstQuarter(x: Scene)
    requires x.q.tenant == 1
    ensures Reachable(x, At3(x))
  {
    assert Init(Settings(x)).workers == [Idle];
    assert Runs(Settings(x), Init(Settings(x)), [], At0(x));
    FromAt0(x);
    Onward(x, At0(x), [Publish(1, Holds(x.v1)), Begin(x.q)], At0a(x));
    FromAt0a(x);
    Onward(x, At0a(x), [Lookup(0)], At1(x));
    FromAt1(x);
    Onward(x, At1(x), [EnterFlight(0), LeaderCheck(0)], At1a(x));
    FromAt1a(x);
    Onward(x, At1a(x), [LeaderSend(0)], At2(x));
    FromAt2(x);
    Onward(x, At2(x), [WorkerTake(0), WorkerRead(0)], At3(x));
  }

  lemma SecondQuarter(x: Scene)
    requires x.q.tenant == 1 && Reachable(x, At3(x))
    ensures Reachable(x, At5(x))
  {
    FromAt3(x);
    Onward(x, At3(x), [ReloadBegin(1), ReloadRead(0)], At3a(x));
    FromAt3a(x);
    Onward(x, At3a(x), [ReloadLookup(0)], At3b(x));
    FromAt3b(x);
    Onward(x, At3b(x), [ReloadInsert(0)], At4(x));
    FromAt4(x);
    Onward(x, At4(x), [Publish(1, Holds(x.v2)), ReloadBegin(1)], At4a(x));
    FromAt4a(x);
    Onward(x, At4a(x), [ReloadRead(1), ReloadLookup(1)], At5(x));
  }

  lemma ThirdQuarter(x: Scene)
    requires x.q.tenant == 1 && Reachable(x, At5(x))
    ensures Reachable(x, At7(x))
  {
    FromAt5(x);
    Onward(x, At5(x), [Publish(2, Holds(x.w)), ReloadBegin(2)], At5a(x));
    FromAt5a(x);
    Onward(x, At5a(x), [ReloadRead(2), ReloadLookup(2)], At5b(x));
    FromAt5b(x);
    Onward(x, At5b(x), [ReloadInsert(2)], At6(x));
    FromAt6(x);
    Onward(x, At6(x), [WorkerInsert(0)], At6a(x));
    FromAt6a(x);
    Onward(x, At6a(x), [WorkerAnswer(0)], At7(x));
  }

  lemma LastQuarter(x: Scene)
    requires x.q.tenant == 1 && Reachable(x, At7(x))
    ensures Reachable(x, At10(x))
  {
    FromAt7(x);
    Onward(x, At7(x), [LeaderReceive(0)], At7a(x));
    FromAt7a(x);
    Onward(x, At7a(x), [LeaderLeave(0)], At8(x));
    FromAt8(x);
    Onward(x, At8(x), [ReloadAim(1), ReloadLock(1)], At9(x));
    FromAt9(x);
    Onward(x, At9(x), [ReloadWrite(1), ReloadWrite(1)], At9a(x));
    FromAt9a(x);
    Onward(x, At9a(x), [ReloadWrite(1), ReloadWrite(1)], At10(x));
  }

  /**
   * Whatever two versions differ on some request, there is a run after which the file holds the second, a reload that
   * has read it and written it is about to return, nothing in flight has read anything else, and yet later requests
   * are answered by the first: a load that read the first version inserted it while the reload was writing into the
   * object of an entry that had left the cache.
   */
  lemma ReloadCanMissTheCache(x: Scene) returns (before: seq<Step>, s: State)
    requires x.q.tenant == 1 && !Alike(Settings(x), x.v1, x.v2)
    ensures var c := Settings(x);
      && Runs(c, Init(c), before, s) && Enabled(c, s, ReloadUnlock(1))
      && s.reloads[1].tenant == 1 && s.reloads[1].next == x.v2 && Current(s, 1) == Holds(x.v2)
      && InFlightFresh(c, s, 1, x.v2)
      && !AnswersLike(c, Next(c, s, ReloadUnlock(1)), 1, x.v2)
  {
    var c := Settings(x);
    FirstQuarter(x);
    SecondQuarter(x);
    ThirdQuarter(x);
    LastQuarter(x);
    s := At10(x);
    before :| Runs(c, Init(c), before, s);
    MissesAtTheEnd(x);
    ReloadSwapSettles(c, before, s, 1);
  }

  lemma MissesAtTheEnd(x: Scene)
    requires x.q.tenant == 1 && !Alike(Settings(x), x.v1, x.v2)
    ensures var c, s := Settings(x), At10(x);
      && Enabled(c, s, ReloadUnlock(1)) && Current(s, 1) == Holds(x.v2) && InFlightFresh(c, s, 1, x.v2)
      && !SwapReaches(c, s, 1)
  {
    var c, s := Settings(x), At10(x);
    assert Find(s.lru, 1) == 0;
    assert CachedPol(s, 1) == 2;
    assert !PolFresh(c, s, 1, x.v2, 2);
  }
}
