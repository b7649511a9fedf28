/** The files a run of the registry sees are those the run published, and no step rewrites them. */
module RegistryHistory {
  import opened Registry
  import opened RegistryJobs

  lemma LoaderKeepsHistory(c: Config, s: State, step: Step)
    requires Enabled(c, s, step) && LoaderStep(step)
    ensures Next(c, s, step).hist == s.hist
  {}

  lemma SwapsKeepHistory(c: Config, s: State, step: Step)
    requires Enabled(c, s, step) && (step.ReloadLock? || step.ReloadWrite? || step.ReloadUnlock?)
    ensures Next(c, s, step).hist == s.hist
  {}

  lemma ReloadsKeepHistory(c: Config, s: State, step: Step)
    requires Enabled(c, s, step) && ReloadStep(step)
    ensures Next(c, s, step).hist == s.hist
  {
    if step.ReloadLock? || step.ReloadWrite? || step.ReloadUnlock? { SwapsKeepHistory(c, s, step); }
  }

  lemma ReadsKeepHistory(c: Config, s: State, step: Step)
    requires Enabled(c, s, step) && (step.ReadLock? || step.ReadAst? || step.ReadOrder? || step.ReadDefault?)
    ensures Next(c, s, step).hist == s.hist
  {}

  lemma RequestsKeepHistory(c: Config, s: State, step: Step)
    requires Enabled(c, s, step) && !LoaderStep(step) && !ReloadStep(step) && !step.Publish?
    ensures Next(c, s, step).hist == s.hist
  {
    if step.ReadLock? || step.ReadAst? || step.ReadOrder? || step.ReadDefault? { ReadsKeepHistory(c, s, step); }
  }

  /** A change of a file is its newest version from then on, and changes no other file. */
  lemma PublishAppends(c: Config, s: State, t: int, file: File)
    ensures var s' := Next(c, s, Publish(t, file));
      && History(s', t) == History(s, t) + [file] && Current(s', t) == file
      && forall u :: u != t ==> History(s', u) == History(s, u)
  {}

  lemma OthersKeepHistory(c: Config, s: State, step: Step)
    requires Enabled(c, s, step) && !step.Publish?
    ensures Next(c, s, step).hist == s.hist
  {
    if LoaderStep(step) {
      LoaderKeepsHistory(c, s, step);
    } else if ReloadStep(step) {
      ReloadsKeepHistory(c, s, step);
    } else {
      RequestsKeepHistory(c, s, step);
    }
  }

  /** The history of a tenant's file is what the run published. */
  lemma {:induction false} HistoryIsPublished(c: Config, s: State, steps: seq<Step>, s': State, t: int, file: File)
    requires Runs(c, s, steps, s') && file in History(s', t)
    ensures file in History(s, t) || exists k :: 0 <= k < |steps| && steps[k] == Publish(t, file)
    decreases steps
  {
    if steps != [] {
      var next := Next(c, s, steps[0]);
      HistoryIsPublished(c, next, steps[1..], s', t, file);
      if k :| 0 <= k < |steps[1..]| && steps[1..][k] == Publish(t, file) {
        assert steps[k + 1] == Publish(t, file);
      } else if !steps[0].Publish? {
        OthersKeepHistory(c, s, steps[0]);
      }
    }
  }
}
