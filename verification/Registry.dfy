/**
 * The tenant policy registry as a step relation (policy/registry.go, Swap and Decide of policy/tenant_decide.go).
 * Every step is one critical section, one channel operation or one field access; requests, the leaders of
 * singleflight calls, loader workers and reloads interleave freely, and the files on disk may change at any moment.
 */
module Registry {
  import opened Text
  import opened Policy
  import opened TenantDecide
  import opened LruSpec

  /** What a load of one version of a tenant's policy.db yields. */
  datatype File = Missing | Broken | Holds(policy: TenantPolicy)

  /** A *TenantPolicy object: the fields behind its RWMutex, and who holds the lock. */
  datatype Pol = Pol(tenant: int, fields: TenantPolicy, readers: set<nat>, writer: Option<nat>)

  /** A cacheEntry. */
  datatype Entry = Entry(tenant: int, pol: nat)

  datatype Res = Hit(pol: nat) | Error

  /** A singleflight call: its function runs on the leader; when it has ended, joiners share the result. */
  datatype Phase =
    | Entered
    | Creating
    | Waiting(job: nat)
    | Ended(res: Res)
    | Left(res: Res)

  datatype Flight = Flight(tenant: int, leader: nat, phase: Phase)

  /**
   * A loadJob and the contents of its result channel of capacity one. For the proofs it also records the call
   * that made it, whether a worker has finished loading it, and how many results were sent.
   */
  datatype Job = Job(tenant: int, flight: nat, chan: seq<Res>, loaded: bool, answers: nat)

  datatype Loaded = Value(policy: TenantPolicy) | Fail

  datatype Worker =
    | Idle
    | Taken(job: nat)
    | HasRead(job: nat, got: Loaded)
    | HasInserted(job: nat, res: Res)

  datatype Reload =
    | RStart(tenant: int)
    | RRead(tenant: int, next: TenantPolicy)
    | RFound(tenant: int, next: TenantPolicy, entry: nat)
    | RAimed(tenant: int, next: TenantPolicy, pol: nat)
    | RAbsent(tenant: int, next: TenantPolicy)
    | RWriting(tenant: int, next: TenantPolicy, pol: nat, stage: nat)
    | RDone(tenant: int, ok: bool)

  datatype Query = Query(tenant: int, domain: string, verb: string)

  datatype Req =
    | Start(q: Query)
    | Missed(q: Query)
    | Leading(q: Query, flight: nat)
    | Joined(q: Query, flight: nat)
    | Got(q: Query, pol: nat)
    | Reading(q: Query, pol: nat, stage: nat, ast: Option<AstMap>, order: seq<string>)
    | Answered(q: Query, outcome: Outcome)
    | Refused(q: Query)

  /** The settings: the regex engine, CacheSize (also the capacity of the job queue) and LoadWorkers. */
  datatype Config = Config(rx: Regex, cap: nat, workers: nat)

  /** withDefaults: sizes that are not positive are replaced. */
  function WithDefaults(rx: Regex, cacheSize: int, loadWorkers: int): (c: Config)
    ensures c.cap > 0 && (cacheSize > 0 ==> c.cap == cacheSize) && (cacheSize <= 0 ==> c.cap == 500)
    ensures c.workers > 0 && (loadWorkers > 0 ==> c.workers == loadWorkers) && (loadWorkers <= 0 ==> c.workers == 4)
  {
    Config(rx, if cacheSize <= 0 then 500 else cacheSize, if loadWorkers <= 0 then 4 else loadWorkers)
  }

  datatype State = State(
    hist: map<int, seq<File>>,
    pols: seq<Pol>,
    entries: seq<Entry>,
    lru: seq<Slot<nat>>,
    cacheOps: seq<Op<nat>>,
    reqs: seq<Req>,
    flights: seq<Flight>,
    group: map<int, nat>,
    jobs: seq<Job>,
    senders: set<nat>,
    queue: seq<nat>,
    workers: seq<Worker>,
    reloads: seq<Reload>,
    created: multiset<int>,
    evicted: multiset<int>,
    failed: multiset<int>,
    timedOut: multiset<int>)

  ghost function Init(c: Config): State {
    State(map[], [], [], [], [], [], [], map[], [], {}, [], seq(c.workers, _ => Idle), [],
      multiset{}, multiset{}, multiset{}, multiset{})
  }

  // ---------- reading the state ----------

  function History(s: State, t: int): seq<File> {
    if t in s.hist then s.hist[t] else []
  }

  /** The file of a tenant as it is now. */
  function Current(s: State, t: int): File {
    var h := History(s, t);
    if h == [] then Missing else h[|h| - 1]
  }

  /** loadFromDisk: nothing for a non-positive id or a missing or broken file. */
  function LoadNow(s: State, t: int): Loaded {
    if t > 0 && Current(s, t).Holds? then Value(Current(s, t).policy) else Fail
  }

  function EntryAt(s: State, e: nat): Entry {
    if e < |s.entries| then s.entries[e] else Entry(0, 0)
  }

  function PolAt(s: State, p: nat): Pol {
    if p < |s.pols| then s.pols[p] else Pol(0, TenantPolicy("", [], [], None), {}, None)
  }

  function CachedEntry(s: State, t: int): nat
    requires Has(s.lru, t)
  {
    s.lru[Find(s.lru, t)].val
  }

  function CachedPol(s: State, t: int): nat
    requires Has(s.lru, t)
  {
    EntryAt(s, CachedEntry(s, t)).pol
  }

  function SetReq(s: State, r: nat, q: Req): State
    requires r < |s.reqs|
  {
    s.(reqs := s.reqs[r := q])
  }

  function SetPhase(s: State, f: nat, p: Phase): State
    requires f < |s.flights|
  {
    s.(flights := s.flights[f := s.flights[f].(phase := p)])
  }

  function SetJob(s: State, j: nat, x: Job): State
    requires j < |s.jobs|
  {
    s.(jobs := s.jobs[j := x])
  }

  function SetReload(s: State, l: nat, x: Reload): State
    requires l < |s.reloads|
  {
    s.(reloads := s.reloads[l := x])
  }

  function SetPol(s: State, p: nat, x: Pol): State
    requires p < |s.pols|
  {
    s.(pols := s.pols[p := x])
  }

  /** A hit of getCached under r.mu. */
  function TouchCache(s: State, t: int): State {
    s.(lru := Touch(s.lru, t), cacheOps := s.cacheOps + [Get(t)])
  }

  /** insert under r.mu: overwrite the entry of a cached tenant, or push a new one and evict from the back. */
  function InsertEntry(s: State, t: int, p: nat, cap: nat): State {
    var ops := s.cacheOps + [Op.Insert(t, p)];
    if Has(s.lru, t) then
      var e := CachedEntry(s, t);
      s.(entries := if e < |s.entries| then s.entries[e := Entry(t, p)] else s.entries,
         lru := Touch(s.lru, t),
         cacheOps := ops)
    else
      var full := [Slot(t, |s.entries|)] + s.lru;
      s.(entries := s.entries + [Entry(t, p)],
         lru := Truncate(full, cap),
         cacheOps := ops,
         evicted := s.evicted + multiset(Tenants(full[|Truncate(full, cap)|..])))
  }

  /** A freshly loaded policy object, inserted. */
  function InsertNew(s: State, t: int, v: TenantPolicy, cap: nat): (s': State)
    ensures s'.jobs == s.jobs && s'.workers == s.workers && s'.flights == s.flights && s'.reqs == s.reqs
    ensures s'.reloads == s.reloads && s'.hist == s.hist && s'.failed == s.failed && s'.timedOut == s.timedOut
  {
    InsertEntry(s.(pols := s.pols + [Pol(t, v, {}, None)]), t, |s.pols|, cap)
  }

  /** Swap copies four fields one after the other under the write lock. */
  function WriteField(was: TenantPolicy, next: TenantPolicy, stage: nat): TenantPolicy {
    if stage == 0 then was.(defaultAction := next.defaultAction)
    else if stage == 1 then was.(evaluationOrder := next.evaluationOrder)
    else if stage == 2 then was.(rules := next.rules)
    else was.(ast := next.ast)
  }

  // ---------- steps ----------

  datatype Step =
    | Publish(tenant: int, file: File)
    | Begin(q: Query)
    | Lookup(r: nat)
    | EnterFlight(r: nat)
    | LeaderCheck(f: nat)
    | LeaderSend(f: nat)
    | HelperSend(j: nat)
    | WorkerTake(w: nat)
    | WorkerRead(w: nat)
    | WorkerInsert(w: nat)
    | WorkerAnswer(w: nat)
    | LeaderReceive(f: nat)
    | LeaderTimeout(f: nat)
    | LeaderLeave(f: nat)
    | JoinerReturn(r: nat)
    | ReadLock(r: nat)
    | ReadAst(r: nat)
    | ReadOrder(r: nat)
    | ReadDefault(r: nat)
    | ReloadBegin(tenant: int)
    | ReloadRead(l: nat)
    | ReloadLookup(l: nat)
    | ReloadInsert(l: nat)
    | ReloadAim(l: nat)
    | ReloadLock(l: nat)
    | ReloadWrite(l: nat)
    | ReloadUnlock(l: nat)

  /** When a step can happen. */
  predicate Enabled(c: Config, s: State, step: Step) {
    match step
    case Publish(_, _) => true
    case Begin(_) => true
    case Lookup(r) => r < |s.reqs| && s.reqs[r].Start?
    case EnterFlight(r) => r < |s.reqs| && s.reqs[r].Missed?
    case LeaderCheck(f) => f < |s.flights| && s.flights[f].phase.Entered?
    case LeaderSend(f) => f < |s.flights| && s.flights[f].phase.Creating?
    case HelperSend(j) => j in s.senders && |s.queue| < c.cap
    case WorkerTake(w) => w < |s.workers| && s.workers[w].Idle? && s.queue != []
    case WorkerRead(w) => w < |s.workers| && s.workers[w].Taken? && s.workers[w].job < |s.jobs|
    case WorkerInsert(w) => w < |s.workers| && s.workers[w].HasRead? && s.workers[w].job < |s.jobs|
    // sending on the result channel blocks while its single slot is taken
    case WorkerAnswer(w) =>
      && w < |s.workers| && s.workers[w].HasInserted? && s.workers[w].job < |s.jobs|
      && |s.jobs[s.workers[w].job].chan| < 1
    case LeaderReceive(f) =>
      && f < |s.flights| && s.flights[f].phase.Waiting? && s.flights[f].phase.job < |s.jobs|
      && s.jobs[s.flights[f].phase.job].chan != []
    case LeaderTimeout(f) => f < |s.flights| && s.flights[f].phase.Waiting?
    case LeaderLeave(f) =>
      && f < |s.flights| && s.flights[f].phase.Ended?
      && s.flights[f].leader < |s.reqs| && s.reqs[s.flights[f].leader].Leading?
    case JoinerReturn(r) =>
      && r < |s.reqs| && s.reqs[r].Joined?
      && s.reqs[r].flight < |s.flights| && s.flights[s.reqs[r].flight].phase.Left?
    // RLock waits for a writer, Lock for a writer and for all readers
    case ReadLock(r) => r < |s.reqs| && s.reqs[r].Got? && s.reqs[r].pol < |s.pols| && s.pols[s.reqs[r].pol].writer.None?
    case ReadAst(r) => r < |s.reqs| && s.reqs[r].Reading? && s.reqs[r].stage == 0
    case ReadOrder(r) => r < |s.reqs| && s.reqs[r].Reading? && s.reqs[r].stage == 1
    case ReadDefault(r) => r < |s.reqs| && s.reqs[r].Reading? && s.reqs[r].stage == 2 && s.reqs[r].pol < |s.pols|
    case ReloadBegin(_) => true
    case ReloadRead(l) => l < |s.reloads| && s.reloads[l].RStart?
    case ReloadLookup(l) => l < |s.reloads| && s.reloads[l].RRead?
    case ReloadInsert(l) => l < |s.reloads| && s.reloads[l].RAbsent?
    case ReloadAim(l) => l < |s.reloads| && s.reloads[l].RFound?
    case ReloadLock(l) => l < |s.reloads| && s.reloads[l].RAimed? && Lockable(s, s.reloads[l].pol)
    case ReloadWrite(l) =>
      l < |s.reloads| && s.reloads[l].RWriting? && s.reloads[l].stage < 4 && s.reloads[l].pol < |s.pols|
    case ReloadUnlock(l) =>
      l < |s.reloads| && s.reloads[l].RWriting? && s.reloads[l].stage == 4 && s.reloads[l].pol < |s.pols|
  }

  predicate Lockable(s: State, p: nat) {
    p < |s.pols| && s.pols[p].writer.None? && s.pols[p].readers == {}
  }

  // ---------- what each step does ----------

  /** getCached in TenantPolicyFor. */
  function DoLookup(s: State, r: nat): State
    requires r < |s.reqs| && s.reqs[r].Start?
  {
    var q := s.reqs[r].q;
    if Has(s.lru, q.tenant) then SetReq(TouchCache(s, q.tenant), r, Got(q, CachedPol(s, q.tenant)))
    else SetReq(s, r, Missed(q))
  }

  /** group.Do: join the call in progress for the tenant, or start one and lead it. */
  function DoEnterFlight(s: State, r: nat): State
    requires r < |s.reqs| && s.reqs[r].Missed?
  {
    var q := s.reqs[r].q;
    if q.tenant in s.group then SetReq(s, r, Joined(q, s.group[q.tenant]))
    else
      var f := |s.flights|;
      SetReq(s, r, Leading(q, f)).
        (flights := s.flights + [Flight(q.tenant, r, Entered)], group := s.group[q.tenant := f])
  }

  /** The leader looks again. */
  function DoLeaderCheck(s: State, f: nat): State
    requires f < |s.flights|
  {
    var t := s.flights[f].tenant;
    if Has(s.lru, t) then SetPhase(TouchCache(s, t), f, Ended(Hit(CachedPol(s, t))))
    else SetPhase(s, f, Creating)
  }

  /** The job goes into the queue, or to a helper goroutine when the queue is full. */
  function DoLeaderSend(s: State, f: nat, cap: nat): State
    requires f < |s.flights|
  {
    var t, j := s.flights[f].tenant, |s.jobs|;
    var s1 := SetPhase(s, f, Waiting(j)).
      (jobs := s.jobs + [Job(t, f, [], false, 0)], created := s.created + multiset{t});
    if |s.queue| < cap then s1.(queue := s.queue + [j]) else s1.(senders := s.senders + {j})
  }

  function DoWorkerRead(s: State, w: nat): State
    requires w < |s.workers| && s.workers[w].Taken? && s.workers[w].job < |s.jobs|
  {
    var j := s.workers[w].job;
    s.(workers := s.workers[w := HasRead(j, LoadNow(s, s.jobs[j].tenant))])
  }

  /** The worker inserts what it loaded before it answers. */
  function DoWorkerInsert(s: State, w: nat, cap: nat): State
    requires w < |s.workers| && s.workers[w].HasRead? && s.workers[w].job < |s.jobs|
  {
    var j := s.workers[w].job;
    var t := s.jobs[j].tenant;
    var res := if s.workers[w].got.Value? then Hit(|s.pols|) else Error;
    var s1 := if s.workers[w].got.Value? then InsertNew(s, t, s.workers[w].got.policy, cap)
      else s.(failed := s.failed + multiset{t});
    SetJob(s1, j, s.jobs[j].(loaded := true)).(workers := s.workers[w := HasInserted(j, res)])
  }

  function DoWorkerAnswer(s: State, w: nat): State
    requires w < |s.workers| && s.workers[w].HasInserted? && s.workers[w].job < |s.jobs|
  {
    var j := s.workers[w].job;
    var x := s.jobs[j];
    SetJob(s, j, x.(chan := x.chan + [s.workers[w].res], answers := x.answers + 1)).(workers := s.workers[w := Idle])
  }

  function DoLeaderReceive(s: State, f: nat): State
    requires f < |s.flights| && s.flights[f].phase.Waiting? && s.flights[f].phase.job < |s.jobs|
    requires s.jobs[s.flights[f].phase.job].chan != []
  {
    var j := s.flights[f].phase.job;
    SetJob(SetPhase(s, f, Ended(s.jobs[j].chan[0])), j, s.jobs[j].(chan := s.jobs[j].chan[1..]))
  }

  function DoLeaderTimeout(s: State, f: nat): State
    requires f < |s.flights|
  {
    SetPhase(s, f, Ended(Error)).(timedOut := s.timedOut + multiset{s.flights[f].tenant})
  }

  /** The call is over: it leaves the group, and its leader has the result. */
  function DoLeaderLeave(s: State, f: nat): State
    requires f < |s.flights| && s.flights[f].phase.Ended? && s.flights[f].leader < |s.reqs|
  {
    var x := s.flights[f];
    SetReq(SetPhase(s, f, Left(x.phase.res)), x.leader, Returned(s.reqs[x.leader].q, x.phase.res)).
      (group := s.group - {x.tenant})
  }

  function DoJoinerReturn(s: State, r: nat): State
    requires r < |s.reqs| && s.reqs[r].Joined? && s.reqs[r].flight < |s.flights|
    requires s.flights[s.reqs[r].flight].phase.Left?
  {
    SetReq(s, r, Returned(s.reqs[r].q, s.flights[s.reqs[r].flight].phase.res))
  }

  function DoReadLock(s: State, r: nat): State
    requires r < |s.reqs| && s.reqs[r].Got? && s.reqs[r].pol < |s.pols|
  {
    var x := s.reqs[r];
    SetReq(SetPol(s, x.pol, s.pols[x.pol].(readers := s.pols[x.pol].readers + {r})), r,
      Reading(x.q, x.pol, 0, None, []))
  }

  /** The last read of Decide, its answer and the release of the lock. */
  function DoReadDefault(c: Config, s: State, r: nat): State
    requires r < |s.reqs| && s.reqs[r].Reading? && s.reqs[r].pol < |s.pols|
  {
    var x := s.reqs[r];
    SetReq(SetPol(s, x.pol, s.pols[x.pol].(readers := s.pols[x.pol].readers - {r})), r,
      Answered(x.q, DecideFields(c.rx, x.ast, x.order, s.pols[x.pol].fields.defaultAction, x.q.domain, x.q.verb)))
  }

  function DoReloadRead(s: State, l: nat): State
    requires l < |s.reloads|
  {
    var t := s.reloads[l].tenant;
    match LoadNow(s, t)
    case Value(v) => SetReload(s, l, RRead(t, v))
    case Fail => SetReload(s, l, RDone(t, false))
  }

  function DoReloadLookup(s: State, l: nat): State
    requires l < |s.reloads| && s.reloads[l].RRead?
  {
    var x := s.reloads[l];
    if Has(s.lru, x.tenant) then SetReload(s, l, RFound(x.tenant, x.next, CachedEntry(s, x.tenant)))
    else SetReload(s, l, RAbsent(x.tenant, x.next))
  }

  function DoReloadInsert(s: State, l: nat, cap: nat): State
    requires l < |s.reloads| && s.reloads[l].RAbsent?
  {
    var x := s.reloads[l];
    SetReload(InsertNew(s, x.tenant, x.next, cap), l, RDone(x.tenant, true))
  }

  /** The policy to swap is the one the found entry points at when the entry is read, outside r.mu. */
  function DoReloadAim(s: State, l: nat): State
    requires l < |s.reloads| && s.reloads[l].RFound?
  {
    var x := s.reloads[l];
    SetReload(s, l, RAimed(x.tenant, x.next, EntryAt(s, x.entry).pol))
  }

  /** Swap takes the write lock of that policy. */
  function DoReloadLock(s: State, l: nat): State
    requires l < |s.reloads| && s.reloads[l].RAimed? && s.reloads[l].pol < |s.pols|
  {
    var x := s.reloads[l];
    SetReload(SetPol(s, x.pol, s.pols[x.pol].(writer := Some(l))), l, RWriting(x.tenant, x.next, x.pol, 0))
  }

  function DoReloadWrite(s: State, l: nat): State
    requires l < |s.reloads| && s.reloads[l].RWriting? && s.reloads[l].pol < |s.pols|
  {
    var x := s.reloads[l];
    var y := s.pols[x.pol];
    SetReload(SetPol(s, x.pol, y.(fields := WriteField(y.fields, x.next, x.stage))), l, x.(stage := x.stage + 1))
  }

  function DoReloadUnlock(s: State, l: nat): State
    requires l < |s.reloads| && s.reloads[l].RWriting? && s.reloads[l].pol < |s.pols|
  {
    var x := s.reloads[l];
    SetReload(SetPol(s, x.pol, s.pols[x.pol].(writer := None)), l, RDone(x.tenant, true))
  }

  function Next(c: Config, s: State, step: Step): State
    requires Enabled(c, s, step)
  {
    match step
    case Publish(t, file) => s.(hist := s.hist[t := History(s, t) + [file]])
    case Begin(q) => s.(reqs := s.reqs + [if q.tenant <= 0 then Refused(q) else Start(q)])
    case Lookup(r) => DoLookup(s, r)
    case EnterFlight(r) => DoEnterFlight(s, r)
    case LeaderCheck(f) => DoLeaderCheck(s, f)
    case LeaderSend(f) => DoLeaderSend(s, f, c.cap)
    case HelperSend(j) => s.(senders := s.senders - {j}, queue := s.queue + [j])
    case WorkerTake(w) => s.(queue := s.queue[1..], workers := s.workers[w := Taken(s.queue[0])])
    case WorkerRead(w) => DoWorkerRead(s, w)
    case WorkerInsert(w) => DoWorkerInsert(s, w, c.cap)
    case WorkerAnswer(w) => DoWorkerAnswer(s, w)
    case LeaderReceive(f) => DoLeaderReceive(s, f)
    case LeaderTimeout(f) => DoLeaderTimeout(s, f)
    case LeaderLeave(f) => DoLeaderLeave(s, f)
    case JoinerReturn(r) => DoJoinerReturn(s, r)
    case ReadLock(r) => DoReadLock(s, r)
    case ReadAst(r) => SetReq(s, r, s.reqs[r].(stage := 1, ast := PolAt(s, s.reqs[r].pol).fields.ast))
    case ReadOrder(r) => SetReq(s, r, s.reqs[r].(stage := 2, order := PolAt(s, s.reqs[r].pol).fields.evaluationOrder))
    case ReadDefault(r) => DoReadDefault(c, s, r)
    case ReloadBegin(t) => s.(reloads := s.reloads + [RStart(t)])
    case ReloadRead(l) => DoReloadRead(s, l)
    case ReloadLookup(l) => DoReloadLookup(s, l)
    case ReloadInsert(l) => DoReloadInsert(s, l, c.cap)
    case ReloadAim(l) => DoReloadAim(s, l)
    case ReloadLock(l) => DoReloadLock(s, l)
    case ReloadWrite(l) => DoReloadWrite(s, l)
    case ReloadUnlock(l) => DoReloadUnlock(s, l)
  }

  /** What a request does with the result of its flight: Decide refuses on an error. */
  function Returned(q: Query, res: Res): Req {
    match res
    case Hit(p) => Got(q, p)
    case Error => Refused(q)
  }

  // ---------- runs ----------

  ghost predicate Runs(c: Config, s: State, steps: seq<Step>, s': State)
    decreases steps
  {
    if steps == [] then s' == s
    else Enabled(c, s, steps[0]) && Runs(c, Next(c, s, steps[0]), steps[1..], s')
  }
}
