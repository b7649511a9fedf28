/**
 * The way of a request with the tenant registry as the policy engine behind evaluate (Decide of policy/registry.go,
 * evaluate and handleHTTP of proxy/server.go): what is forwarded was permitted by a policy file of its own tenant.
 */
module RegistryForwarding {
  import opened Text
  import opened Wire
  import opened Policy
  import opened TenantDecide
  import opened Registry
  import opened RegistrySafety
  import R = Readers
  import Inspector
  import F = Forwarding

  /** What TenantPolicyRegistry.Decide returns for a request that is over, under DefaultDenyOnLoadFail or not. */
  function VerdictOf(x: Req, deny: bool): F.Verdict
    requires Over(x)
  {
    match x
    case Answered(_, o) => F.Verdict(o.action, o.message, false)
    case Refused(_) => F.Verdict(if deny then BLOCK else ALLOW, "", true)
  }

  predicate Over(x: Req) {
    x.Answered? || x.Refused?
  }

  /** A request that is not refused has a positive tenant. */
  ghost predicate Positive(reqs: seq<Req>) {
    forall r :: 0 <= r < |reqs| ==> reqs[r].Refused? || reqs[r].q.tenant > 0
  }

  predicate ReadStep(step: Step) {
    step.ReadLock? || step.ReadAst? || step.ReadOrder? || step.ReadDefault?
  }

  predicate LookupStep(step: Step) {
    step.Begin? || step.Lookup? || step.EnterFlight? || step.LeaderLeave? || step.JoinerReturn?
  }

  lemma OtherSteps(c: Config, s: State, step: Step)
    requires Enabled(c, s, step) && !ReadStep(step) && !LookupStep(step)
    ensures Next(c, s, step).reqs == s.reqs
  {}

  lemma ReadPositive(c: Config, s: State, step: Step)
    requires Positive(s.reqs) && Enabled(c, s, step) && ReadStep(step)
    ensures Positive(Next(c, s, step).reqs)
  {
    SetPositive(s.reqs, step.r, Next(c, s, step).reqs[step.r]);
  }

  lemma LookupPositive(c: Config, s: State, step: Step)
    requires Positive(s.reqs) && Enabled(c, s, step) && LookupStep(step)
    ensures Positive(Next(c, s, step).reqs)
  {
    match step
    case Begin(q) =>
    case Lookup(r) => SetPositive(s.reqs, r, DoLookup(s, r).reqs[r]);
    case EnterFlight(r) => SetPositive(s.reqs, r, DoEnterFlight(s, r).reqs[r]);
    case LeaderLeave(f) => SetPositive(s.reqs, s.flights[f].leader, DoLeaderLeave(s, f).reqs[s.flights[f].leader]);
    case JoinerReturn(r) => SetPositive(s.reqs, r, DoJoinerReturn(s, r).reqs[r]);
  }

  /** A request keeps its query, unless it is refused. */
  lemma StepPositive(c: Config, s: State, step: Step)
    requires Positive(s.reqs) && Enabled(c, s, step)
    ensures Positive(Next(c, s, step).reqs)
  {
    if ReadStep(step) {
      ReadPositive(c, s, step);
    } else if LookupStep(step) {
      LookupPositive(c, s, step);
    } else {
      OtherSteps(c, s, step);
    }
  }

  lemma SetPositive(reqs: seq<Req>, r: nat, x: Req)
    requires Positive(reqs) && r < |reqs| && (x.Refused? || (!reqs[r].Refused? && x.q == reqs[r].q))
    ensures Positive(reqs[r := x])
  {}

  lemma {:induction false} RunPositive(c: Config, s: State, steps: seq<Step>, s': State)
    requires Positive(s.reqs) && Runs(c, s, steps, s')
    ensures Positive(s'.reqs)
    decreases steps
  {
    if steps != [] {
      StepPositive(c, s, steps[0]);
      RunPositive(c, Next(c, s, steps[0]), steps[1..], s');
    }
  }

  /** One whole version of a tenant's own policy file gave the request its answer. */
  ghost predicate AnsweredByOneVersion(c: Config, s: State, r: nat)
    requires r < |s.reqs| && s.reqs[r].Answered?
  {
    var q, o := s.reqs[r].q, s.reqs[r].outcome;
    q.tenant > 0 && exists v :: Version(s, q.tenant, v) && o == Decide(c.rx, v, q.domain, q.verb)
  }

  /** A known tenant got an answer, and it is not BLOCK. */
  predicate Permitted(id: F.Identity, x: Req) {
    id.Known? && x.Answered? && x.outcome.action != BLOCK
  }

  /**
   * The gate behind the registry, in every run: it opens exactly for a known, positive tenant that got an answer other
   * than BLOCK, and that answer is the one of a whole version of the tenant's own file. Missing and unknown tenants,
   * other identity failures, and every load that failed or timed out end at the gate, whatever the setting says.
   */
  lemma GateMeans(c: Config, steps: seq<Step>, s: State, r: nat, id: F.Identity, deny: bool)
    requires Runs(c, Init(c), steps, s) && r < |s.reqs| && Over(s.reqs[r]) && s.reqs[r].q.tenant == F.TenantOf(id)
    ensures var x := s.reqs[r];
      && (F.Gate(id, Some(VerdictOf(x, deny))) <==> Permitted(id, x))
      && (x.Answered? ==> AnsweredByOneVersion(c, s, r))
  {
    if s.reqs[r].Answered? {
      RunPositive(c, Init(c), steps, s);
      AnswersComeFromOneVersion(c, steps, s, r);
    }
  }

  /**
   * handleHTTP behind the registry, at any moment of any run: a request that is forwarded has a positive tenant and was
   * permitted by one whole version of that tenant's own policy file, and a body that can be read is inspected and sent
   * on octet for octet.
   */
  method HandleLive(m: Inspector.Message, hasHeader: bool, parse: seq<byte> -> F.Envelope, g: F.Settings,
                    id: F.Identity, x: Req, deny: bool,
                    ghost c: Config, ghost steps: seq<Step>, ghost s: State, ghost r: nat)
    returns (reply: F.Reply)
    requires m.Valid()
    requires Runs(c, Init(c), steps, s) && r < |s.reqs| && s.reqs[r] == x && Over(x) && x.q.tenant == F.TenantOf(id)
    modifies m, if m.body == null then {} else m.body.Repr
    ensures m.Valid()
    ensures reply.Forwarded? ==> Permitted(id, x) && AnsweredByOneVersion(c, s, r)
    ensures R.Clean(old(m.Stream())) ==>
      var body := if old(m.body) == null then None else Some(Inspector.Bytes(old(m.Stream())));
      var malformed := hasHeader && !F.IsCall(body, parse);
      && (reply.Forwarded? <==>
          !malformed && Permitted(id, x) && (old(m.body) == null || F.NothingFound(g, old(m.Stream()))))
      && (reply.Forwarded? ==> m.Stream() == old(m.Stream()))
    ensures !R.Clean(old(m.Stream())) ==>
      && (reply.Forwarded? <==> Permitted(id, x) && F.NothingFound(g, R.After(old(m.Stream()))))
      && (reply.Forwarded? ==> m.Stream() == R.After(old(m.Stream())))
  {
    GateMeans(c, steps, s, r, id, deny);
    F.GateMeans(id, Some(VerdictOf(x, deny)));
    reply := F.HandleHttp(m, hasHeader, parse, g, id, Some(VerdictOf(x, deny)));
  }
}
