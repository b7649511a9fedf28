/**
 * Where cache and disk can part: ReloadTenant swaps the object of the entry it found, though that entry may have left
 * the cache in the meantime (policy/registry.go:215-220).
 */
module RegistryStale {
  import opened Text
  import opened Policy
  import opened TenantDecide
  import opened LruSpec
  import opened Registry
  import opened RegistrySafety
  import opened RegistryJobs
  import opened RegistryCalls
  import opened RegistryFresh
  import RegistryBound
  import RegistryCache

  lemma {:induction false} RunsConcat(c: Config, a: State, xs: seq<Step>, b: State, ys: seq<Step>, d: State)
    requires Runs(c, a, xs, b) && Runs(c, b, ys, d)
    ensures Runs(c, a, xs + ys, d)
    decreases xs
  {
    if xs == [] {
      assert xs + ys == ys;
    } else {
      RunsConcat(c, Next(c, a, xs[0]), xs[1..], b, ys, d);
      assert (xs + ys)[1..] == xs[1..] + ys;
    }
  }

  lemma RunsOne(c: Config, a: State, x: Step)
    requires Enabled(c, a, x)
    ensures Runs(c, a, [x], Next(c, a, x))
  {
    assert [x][1..] == [];
  }

  lemma OneStep(c: Config, s: State, x: Step, s': State)
    requires Enabled(c, s, x) && s' == Next(c, s, x)
    ensures Runs(c, s, [x], s')
  {
    RunsOne(c, s, x);
  }

  lemma TwoSteps(c: Config, s: State, x: Step, s1: State, y: Step, s': State)
    requires Enabled(c, s, x) && s1 == Next(c, s, x) && Enabled(c, s1, y) && s' == Next(c, s1, y)
    ensures Runs(c, s, [x, y], s')
  {
    RunsOne(c, s, x);
    RunsOne(c, s1, y);
    RunsConcat(c, s, [x], s1, [y], s');
    assert [x] + [y] == [x, y];
  }

  // ---------- a hit ----------

  /** A request that takes a policy object nobody writes reads it to the end and answers from it. */
  lemma ReadAnswers(c: Config, s: State, r: nat, q: Query, p: nat) returns (steps: seq<Step>, s': State)
    requires r < |s.reqs| && s.reqs[r] == Got(q, p) && p < |s.pols| && s.pols[p].writer.None?
    ensures Runs(c, s, steps, s') && |s'.reqs| == |s.reqs| && (forall i :: 0 <= i < |steps| ==> !steps[i].Publish?)
    ensures s'.reqs[r] == Answered(q, Decide(c.rx, s.pols[p].fields, q.domain, q.verb))
  {
    var first, s2 := ReadFirst(c, s, r, q, p);
    var rest;
    rest, s' := ReadRest(c, s2, r, q, p);
    RunsConcat(c, s, first, s2, rest, s');
    steps := first + rest;
  }

  lemma ReadFirst(c: Config, s: State, r: nat, q: Query, p: nat) returns (steps: seq<Step>, s': State)
    requires r < |s.reqs| && s.reqs[r] == Got(q, p) && p < |s.pols| && s.pols[p].writer.None?
    ensures Runs(c, s, steps, s') && |s'.reqs| == |s.reqs| && (forall i :: 0 <= i < |steps| ==> !steps[i].Publish?)
    ensures |s'.pols| == |s.pols| && s'.pols[p].fields == s.pols[p].fields
    ensures s'.reqs[r] == Reading(q, p, 1, s.pols[p].fields.ast, [])
  {
    var s1 := Next(c, s, ReadLock(r));
    s' := Next(c, s1, ReadAst(r));
    TwoSteps(c, s, ReadLock(r), s1, ReadAst(r), s');
    steps := [ReadLock(r), ReadAst(r)];
  }

  lemma ReadRest(c: Config, s: State, r: nat, q: Query, p: nat) returns (steps: seq<Step>, s': State)
    requires r < |s.reqs| && p < |s.pols| && s.reqs[r] == Reading(q, p, 1, s.pols[p].fields.ast, [])
    ensures Runs(c, s, steps, s') && |s'.reqs| == |s.reqs| && (forall i :: 0 <= i < |steps| ==> !steps[i].Publish?)
    ensures s'.reqs[r] == Answered(q, Decide(c.rx, s.pols[p].fields, q.domain, q.verb))
  {
    var s1 := Next(c, s, ReadOrder(r));
    s' := Next(c, s1, ReadDefault(r));
    TwoSteps(c, s, ReadOrder(r), s1, ReadDefault(r), s');
    steps := [ReadOrder(r), ReadDefault(r)];
  }

  /** A cached tenant can be answered at once, from the object the cache holds. */
  lemma HitAnswers(c: Config, s: State, q: Query) returns (steps: seq<Step>, s': State)
    requires q.tenant > 0 && Has(s.lru, q.tenant)
    requires CachedPol(s, q.tenant) < |s.pols| && s.pols[CachedPol(s, q.tenant)].writer.None?
    ensures Runs(c, s, steps, s') && |s'.reqs| == |s.reqs| + 1 && FileStays(steps, q.tenant)
    ensures s'.reqs[|s.reqs|] == Answered(q, Decide(c.rx, s.pols[CachedPol(s, q.tenant)].fields, q.domain, q.verb))
  {
    var r := |s.reqs|;
    var s1 := Next(c, s, Begin(q));
    assert s1.reqs[r] == Start(q) && s1.lru == s.lru && s1.entries == s.entries && s1.pols == s.pols;
    var s2 := Next(c, s1, Lookup(r));
    assert s2.reqs[r] == Got(q, CachedPol(s, q.tenant)) && s2.pols == s.pols;
    TwoSteps(c, s, Begin(q), s1, Lookup(r), s2);
    var rest;
    rest, s' := ReadAnswers(c, s2, r, q, CachedPol(s, q.tenant));
    RunsConcat(c, s, [Begin(q), Lookup(r)], s2, rest, s');
    steps := [Begin(q), Lookup(r)] + rest;
  }

  // ---------- what a finished swap settles ----------

  /** The cache answers t from the object this reload has written, or from one that agrees with the file anyway. */
  ghost predicate SwapReaches(c: Config, s: State, l: nat)
    requires l < |s.reloads| && s.reloads[l].RWriting?
  {
    var t, v := s.reloads[l].tenant, s.reloads[l].next;
    Has(s.lru, t) ==> CachedPol(s, t) == s.reloads[l].pol || PolFresh(c, s, t, v, CachedPol(s, t))
  }

  lemma UnlockKeeps(c: Config, s: State, l: nat)
    requires Inv(c, s) && Enabled(c, s, ReloadUnlock(l))
    ensures Keeps(c, s, DoReloadUnlock(s, l), s.reloads[l].tenant, s.reloads[l].next)
    ensures PolFresh(c, DoReloadUnlock(s, l), s.reloads[l].tenant, s.reloads[l].next, s.reloads[l].pol)
  {
    var x := s.reloads[l];
    assert ReloadOk(s, l) && PolOk(s, x.pol);
    SwapKeeps(c, s, l, RDone(x.tenant, true), s.pols[x.pol].(writer := None), x.tenant, x.next);
  }

  lemma UnlockInFlight(c: Config, s: State, l: nat)
    requires Inv(c, s) && Enabled(c, s, ReloadUnlock(l)) && InFlightFresh(c, s, s.reloads[l].tenant, s.reloads[l].next)
    ensures InFlightFresh(c, DoReloadUnlock(s, l), s.reloads[l].tenant, s.reloads[l].next)
  {
    var x := s.reloads[l];
    UnlockKeeps(c, s, l);
    KeptInFlight(c, s, DoReloadUnlock(s, l), x.tenant, x.next, |s.reqs|,
      NOTHING.(reload := Some(l), pol := Some(x.pol)));
  }

  lemma UnlockCache(c: Config, s: State, l: nat)
    requires Inv(c, s) && Distinct(s.lru) && Enabled(c, s, ReloadUnlock(l)) && SwapReaches(c, s, l)
    ensures CacheFresh(c, DoReloadUnlock(s, l), s.reloads[l].tenant, s.reloads[l].next)
  {
    var s' := DoReloadUnlock(s, l);
    var t, v := s.reloads[l].tenant, s.reloads[l].next;
    UnlockKeeps(c, s, l);
    forall x | x in s'.lru && x.tenant == t ensures PolFresh(c, s', t, v, EntryAt(s', x.val).pol) {
      OnlySlot(s, x);
    }
  }

  lemma WrittenAgrees(c: Config, s: State, t: int, v: TenantPolicy, p: nat)
    requires Inv(c, s) && InFlightFresh(c, s, t, v) && PolOf(s, t, p) && s.pols[p].writer.Some?
    ensures PolFresh(c, s, t, v, p)
  {
    assert PolOk(s, p);
    assert ReloadOk(s, s.pols[p].writer.value) && ReloadFresh(c, s, t, v, s.pols[p].writer.value);
  }

  /** A cached object that does not agree is one nobody is writing, and differs on some request. */
  lemma StaleObject(c: Config, s: State, t: int, v: TenantPolicy) returns (domain: string, verb: string)
    requires Inv(c, s) && InFlightFresh(c, s, t, v) && Has(s.lru, t) && !PolFresh(c, s, t, v, CachedPol(s, t))
    ensures CachedPol(s, t) < |s.pols| && s.pols[CachedPol(s, t)].writer.None?
    ensures Decide(c.rx, s.pols[CachedPol(s, t)].fields, domain, verb) != Decide(c.rx, v, domain, verb)
  {
    var p := CachedPol(s, t);
    CachedIsOwn(s, t);
    if s.pols[p].writer.Some? { WrittenAgrees(c, s, t, v, p); }
    domain, verb :| Decide(c.rx, s.pols[p].fields, domain, verb) != Decide(c.rx, v, domain, verb);
  }

  lemma SwapThatMisses(c: Config, s: State, l: nat)
    requires Inv(c, s) && Enabled(c, s, ReloadUnlock(l)) && s.reloads[l].tenant > 0
    requires InFlightFresh(c, s, s.reloads[l].tenant, s.reloads[l].next) && !SwapReaches(c, s, l)
    ensures !AnswersLike(c, DoReloadUnlock(s, l), s.reloads[l].tenant, s.reloads[l].next)
  {
    var t, v, s1 := s.reloads[l].tenant, s.reloads[l].next, DoReloadUnlock(s, l);
    var p := CachedPol(s, t);
    var domain, verb := StaleObject(c, s, t, v);
    assert CachedPol(s1, t) == p && s1.pols[p] == s.pols[p];
    var steps, s2 := HitAnswers(c, s1, Query(t, domain, verb));
    assert !AnswerLike(c, s2, t, v, |s1.reqs|, |s1.reqs|);
  }

  /**
   * A reload that swaps a found policy is back. The file has not changed since it read it, and nothing in flight has
   * read another version. Every later request is answered as the file would have it if and only if the tenant is not
   * cached, is answered from the very object the reload swapped, or from one that already agreed with the file.
   */
  lemma ReloadSwapSettles(c: Config, before: seq<Step>, s: State, l: nat)
    requires c.cap > 0 && Runs(c, Init(c), before, s) && Enabled(c, s, ReloadUnlock(l))
    requires s.reloads[l].tenant > 0 && Current(s, s.reloads[l].tenant) == Holds(s.reloads[l].next)
    requires InFlightFresh(c, s, s.reloads[l].tenant, s.reloads[l].next)
    ensures AnswersLike(c, Next(c, s, ReloadUnlock(l)), s.reloads[l].tenant, s.reloads[l].next) <==>
      SwapReaches(c, s, l)
  {
    var t, v, s' := s.reloads[l].tenant, s.reloads[l].next, DoReloadUnlock(s, l);
    RunSafe(c, Init(c), before, s);
    if SwapReaches(c, s, l) {
      RegistryBound.Reached(c, before, s);
      RegistryCache.CacheIsLru(c, before, s);
      UnlockInFlight(c, s, l);
      UnlockCache(c, s, l);
      UnlockRest(c, s, l);
      AllAnswersFresh(c, s', t, v);
    } else {
      SwapThatMisses(c, s, l);
    }
  }

  lemma UnlockRest(c: Config, s: State, l: nat)
    requires Inv(c, s) && CallsOk(s) && JobsOk(s) && Enabled(c, s, ReloadUnlock(l))
    ensures var s' := DoReloadUnlock(s, l);
      Inv(c, s') && CallsOk(s') && JobsOk(s') && s'.hist == s.hist && s'.reqs == s.reqs
  {
    StepSafe(c, s, ReloadUnlock(l));
    StepCalls(c, s, ReloadUnlock(l));
    StepJobs(c, s, ReloadUnlock(l));
  }
}
