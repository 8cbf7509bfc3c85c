/** Runs that start, and runs that end. */
module Completion {
  import opened Tree
  import H = Handshake
  import W = WorkTransfer
  import A = AbortSignal
  import R = BackgroundReduce
  import opened Termination
  import opened Barrier
  import opened Protocol
  import opened Invariant
  import opened Moves
  import opened Liveness

  /** Whatever the create callbacks have put into the queues, the ranks can start. */
  lemma SomeInitialState(cfg: Config, queues: seq<seq<W.Item>>) returns (s: State)
    requires cfg.Valid() && |queues| == cfg.n
    ensures Initial(cfg, s) && Reachable(cfg, s)
    ensures forall x: nat | x < cfg.n :: s.work.desks[x].queue == queues[x] && !Aborted(cfg, s, x)
  {
    var n := cfg.n;
    var desks := seq(n, i requires 0 <= i < n => W.Desk(queues[i], false, 0, [], 0));
    var empty := W.Sys(desks, map[], map[], map[], multiset{}, multiset{});
    var work := empty.(created := W.Union(W.HeldBy(empty)));
    assert W.HeldBy(work) == W.HeldBy(empty);
    var nodes := seq(n, i => H.START);
    s := State(
      seq(n, i => Working), work,
      TermSys(nodes, seq(n, i => true), map[]),
      BarrierSys(nodes, seq(n, i => false), map[]),
      A.Sys(seq(n, i => A.Alarm(false, false, false, {})), map[], map[]),
      R.Sys(seq(n, i => R.Local(false, 0, false, 0, 0, 0)), seq(n, i => 0), map[]));
    InitialIsReachable(cfg, s);
  }

  lemma InitialIsReachable(cfg: Config, s: State)
    requires Initial(cfg, s)
    ensures Reachable(cfg, s)
  {
    var run: seq<State>, steps: seq<Step> := [s], [];
    assert Run(cfg, run, steps) && Initial(cfg, run[0]) && run[|steps|] == s;
  }

  ghost predicate AllreduceOnly(steps: seq<Step>) {
    forall i | 0 <= i < |steps| :: steps[i].OnTerm?
  }

  ghost predicate AllHaveLeft(cfg: Config, s: State)
    requires Shape(cfg, s)
  {
    forall x: nat | x < cfg.n :: s.phase[x] != Working
  }

  lemma {:induction false} AllAreTermSteps(steps: seq<Step>)
    requires AllreduceOnly(steps)
    ensures TermSteps(steps) == |steps|
  {
    if steps != [] {
      AllAreTermSteps(steps[..|steps| - 1]);
    }
  }

  /** A run of allreduce steps of a system without work left. */
  ghost predicate Winding(cfg: Config, run: seq<State>, steps: seq<Step>) {
    && Run(cfg, run, steps) && Reachable(cfg, run[0]) && Quiet(cfg, run[0]) && AllreduceOnly(steps)
  }

  lemma WindingIsShort(cfg: Config, run: seq<State>, steps: seq<Step>)
    requires Winding(cfg, run, steps)
    ensures |steps| <= MostTermSteps(cfg.n)
  {
    FewTermSteps(cfg, run, steps);
    AllAreTermSteps(steps);
  }

  /** If some rank is still in its main loop, the run can go on. */
  lemma CanGoOn(cfg: Config, run: seq<State>, steps: seq<Step>, x: nat)
    requires Winding(cfg, run, steps)
    ensures Shape(cfg, run[|steps|])
    ensures x < cfg.n && run[|steps|].phase[x] == Working ==> SomeTermStep(cfg, run[|steps|])
  {
    ReachableInv(cfg, run[0]);
    RunDrains(cfg, run, steps, |steps|);
    if x < cfg.n && run[|steps|].phase[x] == Working {
      SomeStepIsEnabled(cfg, run[|steps|], x);
    }
  }

  lemma OneMoreStep(cfg: Config, run: seq<State>, steps: seq<Step>)
    returns (run': seq<State>, steps': seq<Step>)
    requires Winding(cfg, run, steps) && Shape(cfg, run[|steps|]) && SomeTermStep(cfg, run[|steps|])
    ensures Winding(cfg, run', steps') && run'[0] == run[0] && |steps'| == |steps| + 1
  {
    var s := run[|steps|];
    var y: nat, step: TermStep :| TermEnabled(cfg, s, y, step);
    run', steps' := Extended(cfg, run, steps, OnTerm(y, step));
    StillWinding(cfg, run, steps, run', steps');
  }

  lemma StillWinding(cfg: Config, run: seq<State>, steps: seq<Step>, run': seq<State>, steps': seq<Step>)
    requires Winding(cfg, run, steps) && Run(cfg, run', steps') && run'[0] == run[0] && AllreduceOnly(steps')
    ensures Winding(cfg, run', steps')
  {
  }

  lemma Extended(cfg: Config, run: seq<State>, steps: seq<Step>, step: Step)
    returns (run': seq<State>, steps': seq<Step>)
    requires Run(cfg, run, steps) && Shape(cfg, run[|steps|]) && Enabled(cfg, run[|steps|], step)
    ensures Run(cfg, run', steps') && run'[0] == run[0] && steps' == steps + [step]
  {
    var s' := Apply(cfg, run[|steps|], step);
    LongerRun(cfg, run, steps, step, s');
    run', steps' := run + [s'], steps + [step];
  }

  ghost predicate Ended(cfg: Config, run: seq<State>, steps: seq<Step>) {
    |run| == |steps| + 1 && Shape(cfg, run[|steps|]) && AllHaveLeft(cfg, run[|steps|])
  }

  /** Such a run can be continued until every rank has left its main loop. */
  lemma {:induction false} RunsToTheEnd(cfg: Config, run: seq<State>, steps: seq<Step>)
    returns (run': seq<State>, steps': seq<Step>)
    requires Winding(cfg, run, steps)
    ensures Winding(cfg, run', steps') && run'[0] == run[0] && Ended(cfg, run', steps')
    decreases MostTermSteps(cfg.n) - |steps|
  {
    CanGoOn(cfg, run, steps, 0);
    if x: nat :| x < cfg.n && run[|steps|].phase[x] == Working {
      CanGoOn(cfg, run, steps, x);
      var run1, steps1 := OneMoreStep(cfg, run, steps);
      WindingIsShort(cfg, run1, steps1);
      run', steps' := RunsToTheEnd(cfg, run1, steps1);
    } else {
      run', steps' := run, steps;
    }
  }

  /** Once no work is left, the allreduce alone brings TERMINATE to every rank. */
  lemma AllreduceReachesEverybody(cfg: Config, s: State) returns (run: seq<State>, steps: seq<Step>)
    requires Reachable(cfg, s) && Quiet(cfg, s)
    ensures Run(cfg, run, steps) && run[0] == s && AllreduceOnly(steps)
    ensures Ended(cfg, run, steps) && |steps| <= MostTermSteps(cfg.n)
  {
    run, steps := [s], [];
    assert run[0] == s;
    NotYetWinding(cfg, run, steps);
    run, steps := RunsToTheEnd(cfg, run, steps);
    WindingIsShort(cfg, run, steps);
  }

  lemma NotYetWinding(cfg: Config, run: seq<State>, steps: seq<Step>)
    requires |run| == 1 && steps == [] && Reachable(cfg, run[0]) && Quiet(cfg, run[0])
    ensures Winding(cfg, run, steps)
  {
  }
}
