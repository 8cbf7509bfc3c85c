/** What one rank does while it executes a call: a sequence of its own steps. */
module Moves {
  import opened Tree
  import opened Protocol

  function RankOf(step: Step): nat {
    match step
    case OnWork(x, _) => x
    case OnAbort(x, _) => x
    case OnReduce(x, _) => x
    case OnTerm(x, _) => x
    case OnBarrier(x, _) => x
  }

  ghost predicate ByRank(steps: seq<Step>, x: nat) {
    forall i | 0 <= i < |steps| :: RankOf(steps[i]) == x
  }

  /** Rank `x` alone can lead the system from `s` to `s'`. */
  ghost predicate Leads(cfg: Config, s: State, x: nat, s': State) {
    exists run: seq<State>, steps: seq<Step> ::
      Run(cfg, run, steps) && ByRank(steps, x) && run[0] == s && run[|steps|] == s'
  }

  lemma LeadsToSelf(cfg: Config, s: State, x: nat)
    ensures Leads(cfg, s, x, s)
  {
    var run: seq<State>, steps: seq<Step> := [s], [];
    assert Run(cfg, run, steps) && ByRank(steps, x);
  }

  lemma LongerRun(cfg: Config, run: seq<State>, steps: seq<Step>, step: Step, s': State)
    requires Run(cfg, run, steps) && Takes(cfg, run[|steps|], step, s')
    ensures Run(cfg, run + [s'], steps + [step])
  {
    var run', steps' := run + [s'], steps + [step];
    forall i: nat | i < |steps'| ensures StepAt(cfg, run', steps', i) {
      if i < |steps| {
        assert StepAt(cfg, run, steps, i);
        assert run'[i] == run[i] && run'[i + 1] == run[i + 1] && steps'[i] == steps[i];
      }
    }
  }

  lemma LeadsFurther(cfg: Config, s: State, x: nat, mid: State, step: Step, s': State)
    requires Leads(cfg, s, x, mid) && Takes(cfg, mid, step, s') && RankOf(step) == x
    ensures Leads(cfg, s, x, s')
  {
    var run: seq<State>, steps: seq<Step> :|
      Run(cfg, run, steps) && ByRank(steps, x) && run[0] == s && run[|steps|] == mid;
    LongerRun(cfg, run, steps, step, s');
    var run', steps' := run + [s'], steps + [step];
    assert Run(cfg, run', steps') && ByRank(steps', x) && run'[0] == s && run'[|steps'|] == s';
  }

  lemma ReachesFurther(cfg: Config, s: State, step: Step, s': State)
    requires Reachable(cfg, s) && Takes(cfg, s, step, s')
    ensures Reachable(cfg, s')
  {
    var run: seq<State>, steps: seq<Step> :| Run(cfg, run, steps) && Initial(cfg, run[0]) && run[|steps|] == s;
    LongerRun(cfg, run, steps, step, s');
    var run', steps' := run + [s'], steps + [step];
    assert Run(cfg, run', steps') && Initial(cfg, run'[0]) && run'[|steps'|] == s';
  }

  /** A rank that has come from `s` to `mid` takes one more step. */
  lemma OneStep(cfg: Config, s: State, x: nat, mid: State, step: Step)
    requires Shape(cfg, mid) && Reachable(cfg, mid) && Leads(cfg, s, x, mid)
    requires Enabled(cfg, mid, step) && RankOf(step) == x
    ensures Reachable(cfg, Apply(cfg, mid, step)) && Leads(cfg, s, x, Apply(cfg, mid, step))
  {
    ReachesFurther(cfg, mid, step, Apply(cfg, mid, step));
    LeadsFurther(cfg, s, x, mid, step, Apply(cfg, mid, step));
  }

  // ----- steps of any rank -----

  /** Some run leads from `s` to `s'`. */
  ghost predicate LeadsTo(cfg: Config, s: State, s': State) {
    exists run: seq<State>, steps: seq<Step> :: Run(cfg, run, steps) && run[0] == s && run[|steps|] == s'
  }

  lemma LeadsToItself(cfg: Config, s: State)
    ensures LeadsTo(cfg, s, s)
  {
    var run: seq<State>, steps: seq<Step> := [s], [];
    assert Run(cfg, run, steps) && run[0] == s && run[|steps|] == s;
  }

  lemma {:induction false} RunsJoin(cfg: Config, run: seq<State>, steps: seq<Step>, run1: seq<State>, steps1: seq<Step>)
    requires Run(cfg, run, steps) && Run(cfg, run1, steps1) && run[|steps|] == run1[0]
    ensures Run(cfg, run[..|steps|] + run1, steps + steps1)
  {
    var run', steps' := run[..|steps|] + run1, steps + steps1;
    forall i: nat | i < |steps'| ensures StepAt(cfg, run', steps', i) {
      if i < |steps| {
        assert StepAt(cfg, run, steps, i);
        assert run'[i] == run[i] && run'[i + 1] == run[i + 1] && steps'[i] == steps[i];
      } else {
        var j := i - |steps|;
        assert StepAt(cfg, run1, steps1, j);
        assert run'[i] == run1[j] && run'[i + 1] == run1[j + 1] && steps'[i] == steps1[j];
      }
    }
  }

  lemma LeadsOn(cfg: Config, s: State, mid: State, s': State)
    requires LeadsTo(cfg, s, mid) && LeadsTo(cfg, mid, s')
    ensures LeadsTo(cfg, s, s')
  {
    var run: seq<State>, steps: seq<Step> :| Run(cfg, run, steps) && run[0] == s && run[|steps|] == mid;
    var run1: seq<State>, steps1: seq<Step> :| Run(cfg, run1, steps1) && run1[0] == mid && run1[|steps1|] == s';
    RunsJoin(cfg, run, steps, run1, steps1);
    var run', steps' := run[..|steps|] + run1, steps + steps1;
    assert Run(cfg, run', steps') && run'[0] == s && run'[|steps'|] == s';
  }

  lemma OneStepLeads(cfg: Config, s: State, step: Step, s': State)
    requires Takes(cfg, s, step, s')
    ensures LeadsTo(cfg, s, s')
  {
    var run, steps := [s, s'], [step];
    assert StepAt(cfg, run, steps, 0);
    assert Run(cfg, run, steps) && run[0] == s && run[|steps|] == s';
  }

  /** A step, and what follows it. */
  lemma FirstStep(cfg: Config, s: State, step: Step, mid: State, s': State)
    requires Takes(cfg, s, step, mid) && LeadsTo(cfg, mid, s')
    ensures LeadsTo(cfg, s, s')
  {
    OneStepLeads(cfg, s, step, mid);
    LeadsOn(cfg, s, mid, s');
  }

  lemma LeadsToReachable(cfg: Config, s: State, s': State)
    requires Reachable(cfg, s) && LeadsTo(cfg, s, s') && Shape(cfg, s')
    ensures Reachable(cfg, s')
  {
    var run: seq<State>, steps: seq<Step> :| Run(cfg, run, steps) && Initial(cfg, run[0]) && run[|steps|] == s;
    var run1: seq<State>, steps1: seq<Step> :| Run(cfg, run1, steps1) && run1[0] == s && run1[|steps1|] == s';
    RunsJoin(cfg, run, steps, run1, steps1);
    var run', steps' := run[..|steps|] + run1, steps + steps1;
    assert Run(cfg, run', steps') && Initial(cfg, run'[0]) && run'[|steps'|] == s';
  }

  /** What every step keeps holds in every state of a run. */
  lemma {:induction false} KeptByRun(cfg: Config, run: seq<State>, steps: seq<Step>, inv: State -> bool, i: nat)
    requires Run(cfg, run, steps) && inv(run[0]) && i <= |steps|
    requires forall a: State, step: Step, b: State :: inv(a) && Takes(cfg, a, step, b) ==> inv(b)
    ensures inv(run[i])
  {
    if i > 0 {
      KeptByRun(cfg, run, steps, inv, i - 1);
      assert StepAt(cfg, run, steps, i - 1);
    }
  }

  /** What every step that `may` be taken keeps. */
  lemma {:induction false} KeptFrom(cfg: Config, run: seq<State>, steps: seq<Step>, may: Step -> bool,
                                    inv: State -> bool, k: nat, i: nat)
    requires Run(cfg, run, steps) && k <= i <= |steps| && inv(run[k])
    requires forall j | 0 <= j < |steps| :: may(steps[j])
    requires forall a: State, step: Step, b: State :: inv(a) && may(step) && Takes(cfg, a, step, b) ==> inv(b)
    ensures inv(run[i])
    decreases i
  {
    if k < i {
      KeptFrom(cfg, run, steps, may, inv, k, i - 1);
      assert StepAt(cfg, run, steps, i - 1);
    }
  }

  lemma KeptOnTheWay(cfg: Config, s: State, t: State, inv: State -> bool)
    requires LeadsTo(cfg, s, t) && inv(s)
    requires forall a: State, step: Step, b: State :: inv(a) && Takes(cfg, a, step, b) ==> inv(b)
    ensures inv(t)
  {
    var run: seq<State>, steps: seq<Step> :| Run(cfg, run, steps) && run[0] == s && run[|steps|] == t;
    KeptByRun(cfg, run, steps, inv, |steps|);
  }
}
