/** The cleanup phase comes to an end: once every rank has left the main loop, a bounded number of
    steps clears everything up, and none of them waits for another for ever. */
module CleanupProgress {
  import opened Channels
  import opened Tree
  import H = Handshake
  import W = WorkTransfer
  import A = AbortSignal
  import R = BackgroundReduce
  import opened Barrier
  import opened Protocol
  import opened Invariant
  import opened Safety
  import opened Moves
  import opened Completion
  import opened CleanupLoad

  ghost predicate Cleaning(cfg: Config, s: State) {
    Inv(cfg, s) && AllHaveLeft(cfg, s)
  }

  ghost predicate AllFinished(cfg: Config, s: State)
    requires Shape(cfg, s)
  {
    forall x: nat | x < cfg.n :: s.phase[x] == Finished
  }

  // ----- the steps that are left -----

  /** The step clears something up: it is not a mere change of abort flags, nor the repeated start of a
      barrier that has been started. */
  predicate Clears(s: State, step: Step) {
    match step
    case OnWork(_, a) => WorkClears(a)
    case OnAbort(_, a) => AbortClears(a)
    case OnReduce(_, a) => ReduceClears(a)
    case OnTerm(_, _) => false
    case OnBarrier(x, a) => a.BarrierStart? ==> x < |s.barrier.started| && !s.barrier.started[x]
  }

  lemma CleaningMeansQuiet(cfg: Config, s: State)
    requires Cleaning(cfg, s)
    ensures Quiet(cfg, s)
  {
    assert s.phase[0] != Working;
  }

  ghost function Cleared(s: State, step: Step): nat {
    if Clears(s, step) then 1 else 0
  }

  lemma OnlyWorkThatClears(cfg: Config, s: State, x: nat, step: W.WorkStep)
    requires Cleaning(cfg, s) && WorkEnabled(cfg, s, x, step)
    ensures WorkClears(step)
  {
    CleaningMeansQuiet(cfg, s);
    QuietMeansNoReceive(cfg, s, x);
  }

  // ----- the load of a rank -----

  ghost function Load(cfg: Config, s: State, z: nat): int
    requires Shape(cfg, s) && z < cfg.n
  {
    WorkLoad(s.work, z) + AbortLoad(cfg.n, s.abort, z) + ReduceLoad(cfg, s.reduce, z) + BarrierLoad(cfg, s.barrier, z)
  }

  ghost function Mover(s: State, step: Step): nat {
    match step
    case OnWork(x, a) => if x < |s.work.desks| then WorkMover(s.work, x, a) else x
    case OnAbort(x, a) => AbortMover(x, a)
    case OnReduce(x, a) => ReduceMover(x, a)
    case OnTerm(x, _) => x
    case OnBarrier(x, a) => BarrierMover(x, a)
  }

  ghost predicate Lowers(cfg: Config, s: State, s': State, z: nat, d: nat)
    requires Shape(cfg, s) && Shape(cfg, s') && z < cfg.n
  {
    Load(cfg, s', z) + d <= Load(cfg, s, z)
  }

  lemma WorkStepLowers(cfg: Config, s: State, x: nat, step: W.WorkStep, z: nat)
    requires Cleaning(cfg, s) && WorkEnabled(cfg, s, x, step) && z < cfg.n
    ensures Lowers(cfg, s, DoWork(cfg, s, x, step), z, if z == WorkMover(s.work, x, step) then 1 else 0)
    ensures WorkMover(s.work, x, step) < cfg.n
  {
    OnlyWorkThatClears(cfg, s, x, step);
    WorkLowers(cfg.n, s.work, x, step, Aborted(cfg, s, x), z);
    var s' := DoWork(cfg, s, x, step);
    assert AbortLoad(cfg.n, s'.abort, z) == AbortLoad(cfg.n, s.abort, z);
  }

  lemma AbortStepLowers(cfg: Config, s: State, x: nat, step: A.AbortStep, z: nat)
    requires Cleaning(cfg, s) && AbortEnabled(cfg, s, x, step) && z < cfg.n
    ensures Lowers(cfg, s, s.(abort := AbortAfter(cfg, s, x, step)), z,
                   if z == AbortMover(x, step) && AbortClears(step) then 1 else 0)
    ensures AbortMover(x, step) < cfg.n
  {
    assert s.phase[x] == Cleanup;
    AbortLowers(cfg, s.abort, x, step, z);
  }

  lemma ReduceStepLowers(cfg: Config, s: State, x: nat, step: R.ReduceStep, z: nat)
    requires Cleaning(cfg, s) && ReduceEnabled(cfg, s, x, step) && z < cfg.n
    ensures Lowers(cfg, s, s.(reduce := ReduceAfter(cfg, s, x, step)), z,
                   if z == ReduceMover(x, step) && ReduceClears(step) then 1 else 0)
    ensures ReduceMover(x, step) < cfg.n
  {
    ReduceLowers(cfg, s.reduce, x, step, z);
  }

  lemma BarrierStepLowers(cfg: Config, s: State, x: nat, step: BarrierStep, z: nat)
    requires Cleaning(cfg, s) && BarrierEnabled(cfg, s, x, step) && z < cfg.n
    ensures Lowers(cfg, s, DoBarrier(cfg, s, x, step), z,
                   if z == BarrierMover(x, step) && Clears(s, OnBarrier(x, step)) then 1 else 0)
    ensures BarrierMover(x, step) < cfg.n
  {
    assert BarrierOk(cfg, s, x);
    if step.BarrierStart? && s.barrier.started[x] {
      assert s.barrier.started[x := true] == s.barrier.started;
    } else {
      BarrierLowers(cfg, s.barrier, x, step, z);
    }
  }

  lemma StepLowers(cfg: Config, s: State, step: Step, z: nat)
    requires Cleaning(cfg, s) && Enabled(cfg, s, step) && z < cfg.n
    ensures Lowers(cfg, s, Apply(cfg, s, step), z, if z == Mover(s, step) && Clears(s, step) then 1 else 0)
    ensures Mover(s, step) < cfg.n
  {
    match step
    case OnWork(x, a) => WorkStepLowers(cfg, s, x, a, z);
    case OnAbort(x, a) => AbortStepLowers(cfg, s, x, a, z);
    case OnReduce(x, a) => ReduceStepLowers(cfg, s, x, a, z);
    case OnTerm(x, a) => assert false;
    case OnBarrier(x, a) => BarrierStepLowers(cfg, s, x, a, z);
  }

  // ----- few steps -----

  ghost function Loads(cfg: Config, s: State): seq<int>
    requires Shape(cfg, s)
  {
    seq(cfg.n, x requires 0 <= x < cfg.n => Load(cfg, s, x))
  }

  ghost function Burden(cfg: Config, s: State): int
    requires Shape(cfg, s)
  {
    Total(Loads(cfg, s))
  }

  /** Every step that clears something up lowers the total load, and no step raises it. */
  lemma CleaningKept(cfg: Config, s: State, step: Step)
    requires Cleaning(cfg, s) && Enabled(cfg, s, step)
    ensures Cleaning(cfg, Apply(cfg, s, step))
    ensures Burden(cfg, Apply(cfg, s, step)) + Cleared(s, step) <= Burden(cfg, s)
  {
    InvKept(cfg, s, step);
    LeftStays(cfg, s, step);
    TotalLowers(cfg, s, step, Apply(cfg, s, step));
  }

  lemma LeftStays(cfg: Config, s: State, step: Step)
    requires Shape(cfg, s) && AllHaveLeft(cfg, s) && Enabled(cfg, s, step)
    ensures AllHaveLeft(cfg, Apply(cfg, s, step))
  {
  }

  lemma TotalLowers(cfg: Config, s: State, step: Step, s': State)
    requires Cleaning(cfg, s) && Takes(cfg, s, step, s')
    ensures Shape(cfg, s')
    ensures Burden(cfg, s') + Cleared(s, step) <= Burden(cfg, s)
  {
    var before, after := Loads(cfg, s), Loads(cfg, s');
    forall z: nat | z < cfg.n
      ensures after[z] + (if z == Mover(s, step) && Clears(s, step) then 1 else 0) <= before[z]
      ensures Mover(s, step) < cfg.n
    {
      StepLowers(cfg, s, step, z);
      assert Lowers(cfg, s, s', z, if z == Mover(s, step) && Clears(s, step) then 1 else 0);
    }
    assert 0 < cfg.n;
    TotalGrows(after, before, Mover(s, step));
  }

  lemma TakesCleans(cfg: Config, s: State, step: Step, s': State)
    requires Cleaning(cfg, s) && Takes(cfg, s, step, s')
    ensures Cleaning(cfg, s')
    ensures Burden(cfg, s') + Cleared(s, step) <= Burden(cfg, s)
  {
    CleaningKept(cfg, s, step);
  }

  lemma RunStaysCleaning(cfg: Config, run: seq<State>, steps: seq<Step>, i: nat)
    requires Run(cfg, run, steps) && Cleaning(cfg, run[0]) && i <= |steps|
    ensures Cleaning(cfg, run[i])
  {
    var cleaning := (s: State) => Cleaning(cfg, s);
    forall a: State, step: Step, b: State | cleaning(a) && Takes(cfg, a, step, b) ensures cleaning(b) {
      TakesCleans(cfg, a, step, b);
    }
    KeptByRun(cfg, run, steps, cleaning, i);
  }

  /** How many of the first `i` steps clear something up. */
  ghost function ClearingSteps(run: seq<State>, steps: seq<Step>, i: nat): nat
    requires |run| == |steps| + 1 && i <= |steps|
  {
    if i == 0 then 0 else ClearingSteps(run, steps, i - 1) + Cleared(run[i - 1], steps[i - 1])
  }

  lemma StepLowersBurden(cfg: Config, run: seq<State>, steps: seq<Step>, i: nat)
    requires Run(cfg, run, steps) && Cleaning(cfg, run[0]) && i < |steps|
    ensures Shape(cfg, run[i]) && Shape(cfg, run[i + 1])
    ensures Burden(cfg, run[i + 1]) + Cleared(run[i], steps[i]) <= Burden(cfg, run[i])
  {
    RunStaysCleaning(cfg, run, steps, i);
    assert StepAt(cfg, run, steps, i);
    TakesCleans(cfg, run[i], steps[i], run[i + 1]);
  }

  lemma {:induction false} RunLowersBurden(cfg: Config, run: seq<State>, steps: seq<Step>, i: nat)
    requires Run(cfg, run, steps) && Cleaning(cfg, run[0]) && i <= |steps|
    ensures Shape(cfg, run[i])
    ensures Burden(cfg, run[i]) + ClearingSteps(run, steps, i) <= Burden(cfg, run[0])
  {
    if i == 0 {
      assert run[i] == run[0];
    } else {
      RunLowersBurden(cfg, run, steps, i - 1);
      StepLowersBurden(cfg, run, steps, i - 1);
    }
  }

  lemma LoadBound(cfg: Config, s: State, z: nat)
    requires Cleaning(cfg, s) && z < cfg.n
    ensures 0 <= Load(cfg, s, z) <= MaxLoad(cfg.n)
  {
    assert BarrierOk(cfg, s, z);
    AbortBound(cfg, s.abort, z);
    BarrierBound(cfg, s.barrier, z);
  }

  lemma LoadsBound(cfg: Config, s: State)
    requires Cleaning(cfg, s)
    ensures forall i | 0 <= i < |Loads(cfg, s)| :: 0 <= Loads(cfg, s)[i] <= MaxLoad(cfg.n)
  {
    forall z: nat | z < cfg.n ensures 0 <= Load(cfg, s, z) <= MaxLoad(cfg.n) {
      LoadBound(cfg, s, z);
    }
  }

  lemma TotalBound(cfg: Config, s: State)
    requires Cleaning(cfg, s)
    ensures 0 <= Burden(cfg, s) <= cfg.n * MaxLoad(cfg.n)
  {
    LoadsBound(cfg, s);
    TotalAtMost(Loads(cfg, s), MaxLoad(cfg.n));
    TotalIsPositive(Loads(cfg, s));
  }

  /** However the cleanup loops of all ranks interleave, a bounded number of their steps clears
      something up. */
  lemma FewCleanupSteps(cfg: Config, run: seq<State>, steps: seq<Step>)
    requires Run(cfg, run, steps) && Reachable(cfg, run[0]) && AllHaveLeft(cfg, run[0])
    ensures ClearingSteps(run, steps, |steps|) <= cfg.n * MaxLoad(cfg.n)
  {
    ReachableInv(cfg, run[0]);
    TotalBound(cfg, run[0]);
    RunLowersBurden(cfg, run, steps, |steps|);
    RunStaysCleaning(cfg, run, steps, |steps|);
    TotalBound(cfg, run[|steps|]);
  }

  // ----- no deadlock -----

  /** No request, reply or receipt that `x` has sent is in flight. */
  ghost predicate SendsReceived(cfg: Config, s: State, x: nat) {
    forall y: nat | y < cfg.n ::
      At(s.work.request, x, y) == [] && At(s.work.reply, x, y) == [] && At(s.work.receipt, x, y) == []
  }

  /** A rank also waits for its sends to complete before it starts the barrier. */
  ghost predicate Prompt(cfg: Config, s: State, step: Step) {
    step.OnBarrier? && step.barrier.BarrierStart? ==> SendsReceived(cfg, s, step.x)
  }

  ghost predicate CanClear(cfg: Config, s: State)
    requires Shape(cfg, s)
  {
    exists step: Step :: Enabled(cfg, s, step) && Clears(s, step) && Prompt(cfg, s, step)
  }

  /** No rank finishes while some rank waits for anything. */
  lemma NobodyFinishedYet(cfg: Config, s: State, p: nat, z: nat)
    requires Cleaning(cfg, s) && p < cfg.n && z < cfg.n && !NothingPending(cfg, s, p)
    ensures s.phase[z] == Cleanup
  {
    assert BarrierOk(cfg, s, p);
  }

  lemma RequestCanMove(cfg: Config, s: State, p: nat)
    requires Cleaning(cfg, s) && p < cfg.n && s.work.desks[p].requested
    ensures CanClear(cfg, s)
  {
    var src := s.work.desks[p].source;
    CleaningMeansQuiet(cfg, s);
    assert W.DeskOk(cfg.n, s.work, p);
    assert !Owing(cfg, s, src);
    if |At(s.work.reply, src, p)| >= 2 {
      InFlightIsOutstanding(cfg, s, src, p);
    }
    var y, step := WorkCanMove(cfg.n, s.work, p);
    NobodyFinishedYet(cfg, s, p, y);
    assert Enabled(cfg, s, OnWork(y, step)) && Clears(s, OnWork(y, step)) && Prompt(cfg, s, OnWork(y, step));
  }

  lemma ReductionCanMove(cfg: Config, s: State, p: nat)
    requires Cleaning(cfg, s) && p < cfg.n && s.reduce.ranks[p].outstanding
    ensures CanClear(cfg, s)
  {
    var y, step := ReduceCanMove(cfg, s.reduce, p);
    NobodyFinishedYet(cfg, s, p, y);
    assert Enabled(cfg, s, OnReduce(y, step)) && Clears(s, OnReduce(y, step)) && Prompt(cfg, s, OnReduce(y, step));
  }

  lemma AlarmCanMove(cfg: Config, s: State, p: nat)
    requires Cleaning(cfg, s) && p < cfg.n && s.abort.alarms[p].outstanding
    ensures CanClear(cfg, s)
  {
    var y, step := AbortCanMove(cfg, s.abort, p);
    NobodyFinishedYet(cfg, s, p, y);
    assert Enabled(cfg, s, OnAbort(y, step)) && Clears(s, OnAbort(y, step)) && Prompt(cfg, s, OnAbort(y, step));
  }

  /** The barrier step of rank `x` can be taken and clears something up. */
  lemma BarrierClears(cfg: Config, s: State, x: nat, step: BarrierStep)
    requires Shape(cfg, s) && BarrierEnabled(cfg, s, x, step)
    requires step.BarrierStart? ==> !s.barrier.started[x] && SendsReceived(cfg, s, x)
    ensures CanClear(cfg, s)
  {
    var any := OnBarrier(x, step);
    assert Enabled(cfg, s, any) && Clears(s, any) && Prompt(cfg, s, any);
  }

  /** Above a rank that has not finished, below a root that has, runs an edge that the answer has yet
      to cross. */
  lemma {:induction false} AnswerFrontier(cfg: Config, s: State, x: nat) returns (c: nat)
    requires Shape(cfg, s) && x < cfg.n && s.phase[x] != Finished && s.phase[0] == Finished
    ensures 1 <= c <= x && s.phase[c] != Finished && s.phase[Parent(cfg, c)] == Finished
  {
    if s.phase[Parent(cfg, x)] == Finished {
      c := x;
    } else {
      c := AnswerFrontier(cfg, s, Parent(cfg, x));
    }
  }

  lemma AnswerCanFall(cfg: Config, s: State, x: nat)
    requires Cleaning(cfg, s) && x < cfg.n && s.phase[x] != Finished && s.phase[0] == Finished
    ensures CanClear(cfg, s)
  {
    var c := AnswerFrontier(cfg, s, x);
    assert BarrierOk(cfg, s, c) && BarrierOk(cfg, s, Parent(cfg, c)) && HasStarted(cfg, s, c);
    assert H.EdgeOk(cfg, s.barrier.nodes, s.barrier.chan, c);
    BarrierClears(cfg, s, c, BarrierFall);
  }

  lemma {:induction false} AllCleanWithRoot(cfg: Config, s: State, x: nat)
    requires Cleaning(cfg, s) && x < cfg.n && s.phase[0] == Cleanup
    ensures s.phase[x] == Cleanup
  {
    if x != 0 {
      AllCleanWithRoot(cfg, s, Parent(cfg, x));
      assert BarrierOk(cfg, s, x) && BarrierOk(cfg, s, Parent(cfg, x));
      assert H.EdgeOk(cfg, s.barrier.nodes, s.barrier.chan, x);
    }
  }

  lemma BarrierCanRise(cfg: Config, s: State)
    requires Cleaning(cfg, s)
    requires forall z: nat | z < cfg.n :: s.phase[z] == Cleanup && s.barrier.started[z]
    ensures CanClear(cfg, s)
  {
    var nodes, ch := s.barrier.nodes, s.barrier.chan;
    if c: nat :| 1 <= c < cfg.n && H.Phase(cfg, nodes, ch, c) == H.Rising {
      H.RisingCanBeCounted(cfg, nodes, ch, c);
      BarrierClears(cfg, s, Parent(cfg, c), BarrierCount(c));
    } else {
      forall c: nat | 1 <= c < cfg.n ensures H.Phase(cfg, nodes, ch, c) != H.Falling {
        assert BarrierOk(cfg, s, c) && BarrierOk(cfg, s, Parent(cfg, c));
      }
      var y := H.LastNotUp(cfg, nodes, cfg.n - 1);
      H.LastNotUpIsReady(cfg, nodes, ch, y);
      BarrierClears(cfg, s, y, if y == 0 then BarrierRoot else BarrierRaise);
    }
  }

  lemma NothingSentIsInFlight(cfg: Config, s: State, z: nat)
    requires Cleaning(cfg, s) && z < cfg.n
    requires forall p: nat | p < cfg.n :: NothingPending(cfg, s, p)
    ensures SendsReceived(cfg, s, z)
  {
    NoMoreMessages(cfg, s);
    CleaningMeansQuiet(cfg, s);
    forall y: nat | y < cfg.n ensures At(s.work.receipt, z, y) == [] {
      assert !Owing(cfg, s, y);
      if At(s.work.receipt, z, y) != [] {
        InFlightIsOutstanding(cfg, s, y, z);
      }
    }
  }

  lemma NothingPendingCanMove(cfg: Config, s: State, x: nat)
    requires Cleaning(cfg, s) && x < cfg.n && s.phase[x] != Finished
    requires forall p: nat | p < cfg.n :: NothingPending(cfg, s, p)
    ensures CanClear(cfg, s)
  {
    if z: nat :| z < cfg.n && s.phase[z] == Cleanup && !s.barrier.started[z] {
      assert NothingPending(cfg, s, z);
      NothingSentIsInFlight(cfg, s, z);
      BarrierClears(cfg, s, z, BarrierStart);
    } else if s.phase[0] == Finished {
      AnswerCanFall(cfg, s, x);
    } else {
      forall z: nat | z < cfg.n ensures s.phase[z] == Cleanup {
        AllCleanWithRoot(cfg, s, z);
      }
      BarrierCanRise(cfg, s);
    }
  }

  lemma SomeClearingStep(cfg: Config, s: State, x: nat)
    requires Cleaning(cfg, s) && x < cfg.n && s.phase[x] != Finished
    ensures CanClear(cfg, s)
  {
    if p: nat :| p < cfg.n && !NothingPending(cfg, s, p) {
      if s.work.desks[p].requested {
        RequestCanMove(cfg, s, p);
      } else if s.reduce.ranks[p].outstanding {
        ReductionCanMove(cfg, s, p);
      } else {
        AlarmCanMove(cfg, s, p);
      }
    } else {
      NothingPendingCanMove(cfg, s, x);
    }
  }

  /** As long as some rank is in its cleanup loop, with none left in the main loop, some rank can
      clear something up: no ranks wait for each other, not even for sends to be received before a
      barrier is started. */
  lemma CleanupNeverStuck(cfg: Config, s: State, x: nat)
    requires Reachable(cfg, s) && AllHaveLeft(cfg, s) && x < cfg.n && s.phase[x] != Finished
    ensures CanClear(cfg, s)
  {
    ReachableInv(cfg, s);
    SomeClearingStep(cfg, s, x);
  }

  // ----- the end -----

  lemma OneClearingStep(cfg: Config, s: State, x: nat) returns (step: Step, s': State)
    requires Cleaning(cfg, s) && x < cfg.n && s.phase[x] != Finished
    ensures Takes(cfg, s, step, s') && Cleaning(cfg, s')
    ensures 0 <= Burden(cfg, s') < Burden(cfg, s)
  {
    SomeClearingStep(cfg, s, x);
    step :| Enabled(cfg, s, step) && Clears(s, step);
    s' := Apply(cfg, s, step);
    TakesCleans(cfg, s, step, s');
    TotalBound(cfg, s');
  }

  /** The ranks can clear up until all of them have finished. */
  lemma {:induction false} ClearsToTheEnd(cfg: Config, s: State) returns (s': State)
    requires Cleaning(cfg, s)
    ensures LeadsTo(cfg, s, s') && Cleaning(cfg, s') && AllFinished(cfg, s')
    decreases Burden(cfg, s)
  {
    if x: nat :| x < cfg.n && s.phase[x] != Finished {
      var step, mid := OneClearingStep(cfg, s, x);
      TotalBound(cfg, s);
      s' := ClearsToTheEnd(cfg, mid);
      FirstStep(cfg, s, step, mid, s');
    } else {
      s' := s;
      LeadsToItself(cfg, s);
    }
  }

  lemma CleanupReachesEverybody(cfg: Config, s: State) returns (s': State)
    requires Reachable(cfg, s) && AllHaveLeft(cfg, s)
    ensures LeadsTo(cfg, s, s') && Shape(cfg, s') && AllFinished(cfg, s')
  {
    ReachableInv(cfg, s);
    s' := ClearsToTheEnd(cfg, s);
  }
}
