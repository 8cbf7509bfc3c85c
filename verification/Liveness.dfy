/** Once there is no work left, termination is detected: within three rounds of the
    allreduce, and in a bounded number of its steps, none of which can be blocked. */
module Liveness {
  import opened Channels
  import opened Tree
  import H = Handshake
  import opened Termination
  import opened Protocol
  import opened Invariant

  // ----- bounded detection -----

  /** `term_flag` of `z`, if it is 0, will be contributed to round `r` or an earlier one, and so
      was the 0 of `z` that is in flight, if there is one. */
  ghost predicate ZeroOk(cfg: Config, t: TermSys, r: nat, z: nat)
    requires H.Shape(cfg, t.nodes) && |t.flags| == cfg.n && z < cfg.n
  {
    && (!t.flags[z] ==> t.nodes[z].round + (if t.nodes[z].up then 1 else 0) <= r)
    && (z >= 1 && H.Phase(cfg, t.nodes, t.chan, z) == H.Rising && At(t.chan, z, Parent(cfg, z)) == [false] ==>
          t.nodes[z].round <= r)
  }

  ghost predicate ZerosUpTo(cfg: Config, t: TermSys, r: nat)
    requires H.Shape(cfg, t.nodes) && |t.flags| == cfg.n
  {
    forall z: nat | z < cfg.n :: ZeroOk(cfg, t, r, z)
  }

  lemma ZerosNow(cfg: Config, s: State)
    requires Parts(cfg, s)
    ensures ZerosUpTo(cfg, s.term, s.term.nodes[0].round + 1)
  {
    var r := s.term.nodes[0].round + 1;
    forall x: nat | x < cfg.n ensures ZeroOk(cfg, s.term, r, x) {
      H.RoundsNearRoot(cfg, s.term.nodes, s.term.chan, x);
    }
  }

  /** The rounds of the root that are left to fail: `r` is the last of them. */
  ghost predicate Draining(cfg: Config, s: State, r: nat)
    requires Shape(cfg, s)
  {
    && Quiet(cfg, s)
    && ZerosUpTo(cfg, s.term, r)
    && s.term.nodes[0].round <= r + 2
    && (s.term.nodes[0].round == r + 2 ==> s.phase[0] != Working)
  }

  lemma CountZeros(cfg: Config, t: TermSys, x: nat, c: nat, r: nat, z: nat)
    requires TermShape(cfg, t) && H.Inv(cfg, t.nodes, t.chan)
    requires CanTerm(cfg, t, x, TermCount(c)) && z < cfg.n && c < cfg.n
    requires ZeroOk(cfg, t, r, z) && ZeroOk(cfg, t, r, c)
    ensures ZeroOk(cfg, TermNext(cfg, t, x, TermCount(c)), r, z)
  {
    H.CountsChild(cfg, t.nodes, t.chan, x, c);
  }

  lemma RaiseZeros(cfg: Config, t: TermSys, x: nat, r: nat, z: nat)
    requires TermShape(cfg, t) && H.Inv(cfg, t.nodes, t.chan)
    requires CanTerm(cfg, t, x, TermRaise) && z < cfg.n && ZeroOk(cfg, t, r, z)
    ensures ZeroOk(cfg, TermNext(cfg, t, x, TermRaise), r, z)
  {
    assert H.EdgeOk(cfg, t.nodes, t.chan, x);
    assert At(TermNext(cfg, t, x, TermRaise).chan, x, Parent(cfg, x))[0] == t.flags[x];
  }

  lemma RootZeros(cfg: Config, t: TermSys, r: nat, z: nat)
    requires TermShape(cfg, t) && H.Inv(cfg, t.nodes, t.chan)
    requires CanTerm(cfg, t, 0, TermRoot) && z < cfg.n && ZeroOk(cfg, t, r, z)
    ensures ZeroOk(cfg, TermNext(cfg, t, 0, TermRoot), r, z)
  {
    if z >= 1 {
      H.ScatterEdge(cfg, t.nodes, t.chan, 0, t.chan, t.flags[0], z);
    }
  }

  lemma FallZeros(cfg: Config, t: TermSys, x: nat, r: nat, z: nat)
    requires TermShape(cfg, t) && H.Inv(cfg, t.nodes, t.chan)
    requires CanTerm(cfg, t, x, TermFall) && z < cfg.n && ZeroOk(cfg, t, r, z)
    ensures ZeroOk(cfg, TermNext(cfg, t, x, TermFall), r, z)
  {
    var p := Parent(cfg, x);
    assert H.NodeOk(cfg, t.nodes, t.chan, x);
    if z >= 1 {
      assert H.EdgeOk(cfg, t.nodes, t.chan, z);
      H.ScatterEdge(cfg, t.nodes, t.chan, x, Take(t.chan, p, x), At(t.chan, p, x)[0], z);
    }
  }

  lemma TermZeros(cfg: Config, t: TermSys, x: nat, step: TermStep, r: nat, z: nat)
    requires TermShape(cfg, t) && H.Inv(cfg, t.nodes, t.chan) && CanTerm(cfg, t, x, step) && z < cfg.n
    requires forall y: nat | y < cfg.n :: ZeroOk(cfg, t, r, y)
    ensures ZeroOk(cfg, TermNext(cfg, t, x, step), r, z)
  {
    match step
    case TermCount(c) => CountZeros(cfg, t, x, c, r, z);
    case TermRaise => RaiseZeros(cfg, t, x, r, z);
    case TermRoot => RootZeros(cfg, t, r, z);
    case TermFall => FallZeros(cfg, t, x, r, z);
  }

  /** The root leaves the main loop in a round after those that the zeros count for. */
  lemma RootRoundsEnd(cfg: Config, s: State, step: Step, r: nat)
    requires Shape(cfg, s) && ZerosUpTo(cfg, s.term, r) && Enabled(cfg, s, step)
    requires !s.term.nodes[0].up
    requires s.term.nodes[0].round <= r + 2 && (s.term.nodes[0].round == r + 2 ==> s.phase[0] != Working)
    ensures var s' := Apply(cfg, s, step);
            s'.term.nodes[0].round <= r + 2 && (s'.term.nodes[0].round == r + 2 ==> s'.phase[0] != Working)
  {
    assert ZeroOk(cfg, s.term, r, 0);
  }

  lemma ZerosKept(cfg: Config, s: State, step: Step, r: nat)
    requires Parts(cfg, s) && Quiet(cfg, s) && ZerosUpTo(cfg, s.term, r) && Enabled(cfg, s, step)
    ensures ZerosUpTo(cfg, Apply(cfg, s, step).term, r)
  {
    if step.OnTerm? {
      forall z: nat | z < cfg.n ensures ZeroOk(cfg, TermAfter(cfg, s, step.x, step.term), r, z) {
        TermZeros(cfg, s.term, step.x, step.term, r, z);
      }
    } else {
      NoSettling(cfg, s, step);
    }
  }

  lemma DrainingKept(cfg: Config, s: State, step: Step, r: nat)
    requires Parts(cfg, s) && Draining(cfg, s, r) && Enabled(cfg, s, step)
    ensures Draining(cfg, Apply(cfg, s, step), r)
  {
    QuietKept(cfg, s, step);
    ZerosKept(cfg, s, step, r);
    RootRoundsEnd(cfg, s, step, r);
  }

  /** With every account settled no receipt is expected, so that no flag is cleared. */
  lemma NoSettling(cfg: Config, s: State, step: Step)
    requires Shape(cfg, s) && Quiet(cfg, s) && Enabled(cfg, s, step)
    ensures !(step.OnWork? && step.work.DoSettle?)
  {
    if step.OnWork? {
      assert !Owing(cfg, s, step.x);
    }
  }

  ghost predicate DrainsAt(cfg: Config, s: State, r: nat) {
    Inv(cfg, s) && Draining(cfg, s, r)
  }

  lemma TakesDrains(cfg: Config, s: State, step: Step, s': State, r: nat)
    requires DrainsAt(cfg, s, r) && Takes(cfg, s, step, s')
    ensures DrainsAt(cfg, s', r)
  {
    TakesKeepsInv(cfg, s, step, s');
    DrainingKept(cfg, s, step, r);
  }

  lemma {:induction false} RunKeepsDraining(cfg: Config, run: seq<State>, steps: seq<Step>, r: nat, i: nat)
    requires Run(cfg, run, steps) && DrainsAt(cfg, run[0], r) && i <= |steps|
    ensures DrainsAt(cfg, run[i], r)
  {
    if i > 0 {
      var before, step, after := run[i - 1], steps[i - 1], run[i];
      assert StepAt(cfg, run, steps, i - 1);
      RunKeepsDraining(cfg, run, steps, r, i - 1);
      TakesDrains(cfg, before, step, after, r);
    }
  }

  lemma RunDrains(cfg: Config, run: seq<State>, steps: seq<Step>, i: nat)
    requires Run(cfg, run, steps) && Inv(cfg, run[0]) && Quiet(cfg, run[0]) && i <= |steps|
    ensures DrainsAt(cfg, run[i], run[0].term.nodes[0].round + 1)
  {
    ZerosNow(cfg, run[0]);
    RunKeepsDraining(cfg, run, steps, run[0].term.nodes[0].round + 1, i);
  }

  /** Once all queues are empty (or their owners have aborted) and no transfer or receipt is in
      flight, at most two more rounds can fail: the third one that the root completes yields
      TERMINATE. */
  lemma DetectedInThirdRound(cfg: Config, run: seq<State>, steps: seq<Step>, i: nat)
    requires Run(cfg, run, steps) && Reachable(cfg, run[0]) && Quiet(cfg, run[0])
    requires i < |steps| && steps[i] == OnTerm(0, TermRoot) && StepAt(cfg, run, steps, i)
    requires run[i].term.nodes[0].round >= run[0].term.nodes[0].round + 2
    ensures run[i + 1].phase[0] == Cleanup
  {
    ReachableInv(cfg, run[0]);
    RunDrains(cfg, run, steps, i);
    assert ZeroOk(cfg, run[i].term, run[0].term.nodes[0].round + 1, 0);
  }

  // ----- progress -----

  ghost function Positions(cfg: Config, t: TermSys): seq<int>
    requires H.Shape(cfg, t.nodes)
  {
    seq(cfg.n, x requires 0 <= x < cfg.n => H.Position(cfg, t.nodes, t.chan, x))
  }

  ghost function Potential(cfg: Config, t: TermSys): int
    requires H.Shape(cfg, t.nodes)
  {
    Total(Positions(cfg, t))
  }

  /** The rank whose edge the step moves on. */
  function Mover(x: nat, step: TermStep): nat {
    if step.TermCount? then step.from else x
  }

  lemma StepAdvances(cfg: Config, t: TermSys, x: nat, step: TermStep, z: nat)
    requires TermShape(cfg, t) && H.Inv(cfg, t.nodes, t.chan) && CanTerm(cfg, t, x, step) && z < cfg.n
    ensures var t' := TermNext(cfg, t, x, step);
            H.Advances(cfg, t.nodes, t.chan, t'.nodes, t'.chan, z, if z == Mover(x, step) then 1 else 0)
  {
    match step
    case TermCount(c) => H.CountAdvances(cfg, t.nodes, t.chan, x, c, z);
    case TermRaise => H.RaiseAdvances(cfg, t.nodes, t.chan, x, t.flags[x], z);
    case TermRoot => H.ScatterAdvances(cfg, t.nodes, t.chan, 0, t.chan, t.flags[0], z);
    case TermFall =>
      assert H.NodeOk(cfg, t.nodes, t.chan, x);
      var p := Parent(cfg, x);
      H.ScatterAdvances(cfg, t.nodes, t.chan, x, Take(t.chan, p, x), At(t.chan, p, x)[0], z);
  }

  lemma TermRises(cfg: Config, t: TermSys, x: nat, step: TermStep)
    requires TermShape(cfg, t) && H.Inv(cfg, t.nodes, t.chan) && CanTerm(cfg, t, x, step)
    ensures Potential(cfg, t) + 1 <= Potential(cfg, TermNext(cfg, t, x, step))
  {
    var t' := TermNext(cfg, t, x, step);
    forall z: nat | z < cfg.n
      ensures H.Position(cfg, t.nodes, t.chan, z) + (if z == Mover(x, step) then 1 else 0)
              <= H.Position(cfg, t'.nodes, t'.chan, z)
    {
      StepAdvances(cfg, t, x, step, z);
    }
    TotalGrows(Positions(cfg, t), Positions(cfg, t'), Mover(x, step));
  }

  lemma SamePotential(cfg: Config, t: TermSys, t': TermSys)
    requires H.Shape(cfg, t.nodes) && t'.nodes == t.nodes && t'.chan == t.chan
    ensures Potential(cfg, t') == Potential(cfg, t)
  {
    assert forall z: nat | z < cfg.n :: H.Position(cfg, t'.nodes, t'.chan, z) == H.Position(cfg, t.nodes, t.chan, z);
    assert Positions(cfg, t') == Positions(cfg, t);
  }

  /** Every step of the allreduce raises the potential, and no other step changes it. */
  lemma PotentialRises(cfg: Config, s: State, step: Step)
    requires Parts(cfg, s) && Enabled(cfg, s, step)
    ensures Potential(cfg, s.term) + (if step.OnTerm? then 1 else 0) <= Potential(cfg, Apply(cfg, s, step).term)
  {
    if step.OnTerm? {
      TermRises(cfg, s.term, step.x, step.term);
    } else {
      SamePotential(cfg, s.term, Apply(cfg, s, step).term);
    }
  }

  function TermSteps(steps: seq<Step>): nat {
    if steps == [] then 0
    else TermSteps(steps[..|steps| - 1]) + if steps[|steps| - 1].OnTerm? then 1 else 0
  }

  lemma TakesRaises(cfg: Config, s: State, step: Step, s': State)
    requires Inv(cfg, s) && Takes(cfg, s, step, s')
    ensures Shape(cfg, s')
    ensures Potential(cfg, s.term) + (if step.OnTerm? then 1 else 0) <= Potential(cfg, s'.term)
  {
    PotentialRises(cfg, s, step);
  }

  lemma {:induction false} RunRaisesPotential(cfg: Config, run: seq<State>, steps: seq<Step>, i: nat)
    requires Run(cfg, run, steps) && Inv(cfg, run[0]) && i <= |steps|
    ensures Shape(cfg, run[i])
    ensures Potential(cfg, run[0].term) + TermSteps(steps[..i]) <= Potential(cfg, run[i].term)
  {
    if i > 0 {
      RunRaisesPotential(cfg, run, steps, i - 1);
      assert && Shape(cfg, run[i])
             && Potential(cfg, run[i - 1].term) + (if steps[i - 1].OnTerm? then 1 else 0)
                <= Potential(cfg, run[i].term) by {
        RunKeepsInv(cfg, run, steps, i - 1);
        assert StepAt(cfg, run, steps, i - 1);
        TakesRaises(cfg, run[i - 1], steps[i - 1], run[i]);
      }
      assert steps[..i][..i - 1] == steps[..i - 1];
    }
  }

  lemma PotentialBound(cfg: Config, t: TermSys, b: nat)
    requires H.Inv(cfg, t.nodes, t.chan) && t.nodes[0].round <= b
    ensures Potential(cfg, t) <= cfg.n * (4 * b + 3)
  {
    forall x: nat | x < cfg.n ensures H.Position(cfg, t.nodes, t.chan, x) <= 4 * b + 3 {
      H.RoundsNearRoot(cfg, t.nodes, t.chan, x);
    }
    TotalAtMost(Positions(cfg, t), 4 * b + 3);
  }

  /** No rank is more than a round behind. */
  lemma PotentialFloor(cfg: Config, t: TermSys)
    requires H.Inv(cfg, t.nodes, t.chan)
    ensures Potential(cfg, t) >= cfg.n * (4 * (t.nodes[0].round - 1))
  {
    var b := 4 * (t.nodes[0].round - 1);
    forall x: nat | x < cfg.n ensures H.Position(cfg, t.nodes, t.chan, x) >= b {
      H.RoundsNearRoot(cfg, t.nodes, t.chan, x);
    }
    TotalAtLeast(Positions(cfg, t), b);
  }

  /** How many steps of the allreduce there can be once no work is left. */
  function MostTermSteps(n: nat): nat {
    19 * n
  }

  lemma LastRound(cfg: Config, run: seq<State>, steps: seq<Step>)
    requires Run(cfg, run, steps) && Reachable(cfg, run[0]) && Quiet(cfg, run[0])
    ensures Shape(cfg, run[|steps|]) && H.Inv(cfg, run[|steps|].term.nodes, run[|steps|].term.chan)
    ensures run[|steps|].term.nodes[0].round <= run[0].term.nodes[0].round + 3
  {
    ReachableInv(cfg, run[0]);
    RunDrains(cfg, run, steps, |steps|);
  }

  lemma ThreeRoundsMore(cfg: Config, t: TermSys, t': TermSys)
    requires H.Inv(cfg, t.nodes, t.chan) && H.Inv(cfg, t'.nodes, t'.chan)
    requires t'.nodes[0].round <= t.nodes[0].round + 3
    ensures Potential(cfg, t') <= Potential(cfg, t) + MostTermSteps(cfg.n)
  {
    var n: int, r: int := cfg.n, t.nodes[0].round;
    PotentialFloor(cfg, t);
    PotentialBound(cfg, t', r + 3);
    assert n * (4 * (r + 3) + 3) == n * (4 * (r - 1)) + 19 * n;
  }

  /** Without work left the potential cannot rise much more: there are at most three rounds to come. */
  lemma LastPotential(cfg: Config, run: seq<State>, steps: seq<Step>)
    requires Run(cfg, run, steps) && Reachable(cfg, run[0]) && Quiet(cfg, run[0])
    ensures Shape(cfg, run[|steps|])
    ensures Potential(cfg, run[|steps|].term) <= Potential(cfg, run[0].term) + MostTermSteps(cfg.n)
  {
    LastRound(cfg, run, steps);
    ReachableInv(cfg, run[0]);
    ThreeRoundsMore(cfg, run[0].term, run[|steps|].term);
  }

  lemma TermStepsRaise(cfg: Config, run: seq<State>, steps: seq<Step>)
    requires Run(cfg, run, steps) && Reachable(cfg, run[0])
    ensures Shape(cfg, run[|steps|])
    ensures Potential(cfg, run[0].term) + TermSteps(steps) <= Potential(cfg, run[|steps|].term)
  {
    ReachableInv(cfg, run[0]);
    RunRaisesPotential(cfg, run, steps, |steps|);
    assert steps[..|steps|] == steps;
  }

  /** However the steps of all ranks interleave, a system without work left takes a bounded
      number of allreduce steps, and the bound depends on the number of ranks alone. */
  lemma FewTermSteps(cfg: Config, run: seq<State>, steps: seq<Step>)
    requires Run(cfg, run, steps) && Reachable(cfg, run[0]) && Quiet(cfg, run[0])
    ensures TermSteps(steps) <= MostTermSteps(cfg.n)
  {
    LastPotential(cfg, run, steps);
    TermStepsRaise(cfg, run, steps);
  }

  // ----- no deadlock -----

  /** Above a rank in the main loop, below a root that has left it, runs an edge that the verdict has yet to cross. */
  lemma {:induction false} VerdictFrontier(cfg: Config, s: State, x: nat) returns (c: nat)
    requires Shape(cfg, s) && x < cfg.n && s.phase[x] == Working && s.phase[0] != Working
    ensures 1 <= c <= x && s.phase[c] == Working && s.phase[Parent(cfg, c)] != Working
  {
    if s.phase[Parent(cfg, x)] != Working {
      c := x;
    } else {
      c := VerdictFrontier(cfg, s, Parent(cfg, x));
    }
  }

  lemma {:induction false} AllWorkWithRoot(cfg: Config, s: State, x: nat)
    requires Shape(cfg, s) && Verdicts(cfg, s) && x < cfg.n && s.phase[0] == Working
    ensures s.phase[x] == Working
  {
    if x != 0 {
      AllWorkWithRoot(cfg, s, Parent(cfg, x));
      assert VerdictOk(cfg, s, x);
    }
  }

  ghost predicate SomeTermStep(cfg: Config, s: State)
    requires Shape(cfg, s)
  {
    exists x: nat, step: TermStep :: TermEnabled(cfg, s, x, step)
  }

  lemma QuietMayConclude(cfg: Config, s: State, x: nat)
    requires Shape(cfg, s) && Quiet(cfg, s) && x < cfg.n && s.phase[x] == Working
    ensures MayConclude(cfg, s, x)
  {
    assert !Owing(cfg, s, x);
  }

  lemma RisingCanBeCounted(cfg: Config, s: State, c: nat)
    requires Parts(cfg, s) && Quiet(cfg, s) && 1 <= c < cfg.n && s.phase[Parent(cfg, c)] == Working
    requires H.Phase(cfg, s.term.nodes, s.term.chan, c) == H.Rising
    ensures TermEnabled(cfg, s, Parent(cfg, c), TermCount(c))
  {
    QuietMayConclude(cfg, s, Parent(cfg, c));
    H.RisingCanBeCounted(cfg, s.term.nodes, s.term.chan, c);
  }

  lemma FallingCanBeReceived(cfg: Config, s: State, c: nat)
    requires Parts(cfg, s) && Quiet(cfg, s) && 1 <= c < cfg.n && s.phase[c] == Working
    requires H.Phase(cfg, s.term.nodes, s.term.chan, c) == H.Falling
    ensures TermEnabled(cfg, s, c, TermFall)
  {
    QuietMayConclude(cfg, s, c);
    assert H.EdgeOk(cfg, s.term.nodes, s.term.chan, c);
  }

  /** As long as some rank is in the main loop of a system without work left, some rank's check
      for termination can take a step. */
  lemma NeverStuck(cfg: Config, s: State, x: nat)
    requires Reachable(cfg, s) && Quiet(cfg, s) && x < cfg.n && s.phase[x] == Working
    ensures SomeTermStep(cfg, s)
  {
    ReachableInv(cfg, s);
    SomeStepIsEnabled(cfg, s, x);
  }

  lemma SomeStepIsEnabled(cfg: Config, s: State, x: nat)
    requires Parts(cfg, s) && Verdicts(cfg, s) && Quiet(cfg, s) && x < cfg.n && s.phase[x] == Working
    ensures SomeTermStep(cfg, s)
  {
    if s.phase[0] != Working {
      var c := VerdictFrontier(cfg, s, x);
      assert VerdictOk(cfg, s, c);
      FallingCanBeReceived(cfg, s, c);
    } else {
      RootStillWorks(cfg, s);
    }
  }

  lemma RootStillWorks(cfg: Config, s: State)
    requires Parts(cfg, s) && Verdicts(cfg, s) && Quiet(cfg, s) && s.phase[0] == Working
    ensures SomeTermStep(cfg, s)
  {
    forall z: nat | z < cfg.n ensures s.phase[z] == Working {
      AllWorkWithRoot(cfg, s, z);
    }
    var t := s.term;
    if c: nat :| 1 <= c < cfg.n && H.Phase(cfg, t.nodes, t.chan, c) == H.Falling {
      FallingCanBeReceived(cfg, s, c);
    } else if c: nat :| 1 <= c < cfg.n && H.Phase(cfg, t.nodes, t.chan, c) == H.Rising {
      RisingCanBeCounted(cfg, s, c);
    } else {
      var y := H.LastNotUp(cfg, t.nodes, cfg.n - 1);
      H.LastNotUpIsReady(cfg, t.nodes, t.chan, y);
      QuietMayConclude(cfg, s, y);
      assert TermEnabled(cfg, s, y, if y == 0 then TermRoot else TermRaise);
    }
  }
}
