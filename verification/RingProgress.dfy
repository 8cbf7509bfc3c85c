/** The end of ring mode: once every rank is idle the token moves a bounded number of times, and if it cannot
    move every rank has stopped. */
module RingProgress {
  import opened Ring

  /** The steps that move the token. */
  predicate MovesToken(step: Step) {
    step.DoSend? || step.DoReceive?
  }

  /** How far the token has come: two stages a rank, and one more while it flies. */
  function Way(n: nat, s: State): nat {
    s.laps * (2 * n) + match s.place case Held(at) => 2 * at case Flying(from) => 2 * from + 1
  }

  ghost predicate AllStopped(n: nat, s: State)
    requires Shape(n, s)
  {
    forall r: nat | r < n :: s.ranks[r].proc == Terminate
  }

  // ----- one step -----

  lemma SendAdvances(n: nat, s: State, r: nat)
    requires Inv(n, s) && CanSend(n, s, r)
    ensures Way(n, Send(n, s, r)) == Way(n, s) + 1
  {
    assert HolderOk(n, s, r);
  }

  lemma ReceiveAdvances(n: nat, s: State, r: nat)
    requires Inv(n, s) && CanReceive(n, s, r)
    ensures Way(n, Receive(n, s, r)) >= Way(n, s) + 1
  {
    ReceivesToken(n, s, r);
    if r == 0 {
      assert (s.laps + 1) * (2 * n) == s.laps * (2 * n) + 2 * n;
    }
  }

  lemma TokenAdvances(n: nat, s: State, step: Step)
    requires Inv(n, s) && Enabled(n, s, step)
    ensures Way(n, s) + (if MovesToken(step) then 1 else 0) <= Way(n, Apply(n, s, step))
  {
    match step
    case DoSend(r) => SendAdvances(n, s, r);
    case DoReceive(r) => ReceiveAdvances(n, s, r);
    case _ =>
  }

  /** Every rank has been idle since lap `l`, and rank 0 does not see the token more than three times
      again. */
  ghost predicate Ending(n: nat, s: State, l: nat) {
    Inv(n, s) && Cleaning(n, s, l) && s.laps <= l + 3
  }

  lemma EndingKept(n: nat, s: State, step: Step, l: nat)
    requires Ending(n, s, l) && Enabled(n, s, step)
    ensures Ending(n, Apply(n, s, step), l)
  {
    CleaningKept(n, s, step, l);
    if step == DoReceive(0) {
      ReceivesToken(n, s, 0);
    }
  }

  lemma {:induction false} ThreeLaps(n: nat, laps: nat, laps': nat)
    requires laps' <= laps + 3
    ensures laps' * (2 * n) <= laps * (2 * n) + 6 * n
    decreases laps + 3 - laps'
  {
    if laps' == laps + 3 {
      assert laps' * (2 * n) == laps * (2 * n) + 3 * (2 * n);
    } else {
      ThreeLaps(n, laps, laps' + 1);
      assert (laps' + 1) * (2 * n) == laps' * (2 * n) + 2 * n;
    }
  }

  /** The token cannot get further. */
  lemma WayIsBounded(n: nat, s: State, s': State)
    requires Ending(n, s', s.laps) && Shape(n, s)
    ensures Way(n, s') < Way(n, s) + MostTokenSteps(n)
  {
    ThreeLaps(n, s.laps, s'.laps);
  }

  /** How often the token may move when every rank is idle. */
  function MostTokenSteps(n: nat): nat {
    8 * n
  }

  // ----- a run -----

  function TokenSteps(steps: seq<Step>): nat {
    if steps == [] then 0
    else TokenSteps(steps[..|steps| - 1]) + if MovesToken(steps[|steps| - 1]) then 1 else 0
  }

  lemma {:induction false} RunAdvances(n: nat, run: seq<State>, steps: seq<Step>, i: nat)
    requires Run(n, run, steps) && Reachable(n, run[0]) && AllIdle(n, run[0]) && i <= |steps|
    ensures Ending(n, run[i], run[0].laps)
    ensures Way(n, run[0]) + TokenSteps(steps[..i]) <= Way(n, run[i])
  {
    if i == 0 {
      ReachableInv(n, run[0]);
    } else {
      RunAdvances(n, run, steps, i - 1);
      TokenAdvances(n, run[i - 1], steps[i - 1]);
      EndingKept(n, run[i - 1], steps[i - 1], run[0].laps);
      assert steps[..i][..i - 1] == steps[..i - 1];
    }
  }

  /** Once every rank is idle, the token moves fewer than 8n times, however the steps of the ranks
      interleave. */
  lemma FewTokenSteps(n: nat, run: seq<State>, steps: seq<Step>)
    requires Run(n, run, steps) && Reachable(n, run[0]) && AllIdle(n, run[0])
    ensures TokenSteps(steps) < MostTokenSteps(n)
  {
    RunAdvances(n, run, steps, |steps|);
    WayIsBounded(n, run[0], run[|steps|]);
    assert steps[..|steps|] == steps;
  }

  /** Then, and only then, it cannot move any more, when every rank has stopped. */
  lemma StuckMeansStopped(n: nat, s: State)
    requires Reachable(n, s) && AllIdle(n, s)
    ensures (exists step: Step :: MovesToken(step) && Enabled(n, s, step)) <==> !AllStopped(n, s)
  {
    ReachableInv(n, s);
    if q: nat :| q < n && s.ranks[q].proc != Terminate {
      TokenMoves(n, s, q);
      match s.place
      case Held(at) => assert Enabled(n, s, DoSend(at));
      case Flying(from) => assert Enabled(n, s, DoReceive(Next(n, from)));
    } else {
      forall step: Step | MovesToken(step) ensures !Enabled(n, s, step) {
        if step.DoReceive? && CanReceive(n, s, step.r) {
          ReceivesToken(n, s, step.r);
        }
      }
    }
  }

  /** From any reachable state in which every rank is idle, the token, moving on, stops every rank within
      8n steps. */
  lemma TokenStopsEverybody(n: nat, s: State) returns (run: seq<State>, steps: seq<Step>)
    requires Reachable(n, s) && AllIdle(n, s)
    ensures Run(n, run, steps) && run[0] == s && |steps| == TokenSteps(steps) < MostTokenSteps(n)
    ensures Shape(n, run[|steps|]) && AllStopped(n, run[|steps|])
  {
    run, steps := [s], [];
    run, steps := MoveOn(n, run, steps);
    FewTokenSteps(n, run, steps);
  }

  lemma RunReaches(n: nat, run: seq<State>, steps: seq<Step>, i: nat)
    requires Run(n, run, steps) && Reachable(n, run[0]) && i <= |steps|
    ensures Shape(n, run[i]) && Reachable(n, run[i])
  {
    if i > 0 {
      RunReaches(n, run, steps, i - 1);
      ReachesFurther(n, run[i - 1], steps[i - 1], run[i]);
    }
  }

  lemma {:induction false} MoveOn(n: nat, run: seq<State>, steps: seq<Step>)
    returns (run': seq<State>, steps': seq<Step>)
    requires Run(n, run, steps) && Reachable(n, run[0]) && AllIdle(n, run[0]) && |steps| == TokenSteps(steps)
    ensures Run(n, run', steps') && run'[0] == run[0] && |steps'| == TokenSteps(steps')
    ensures Shape(n, run'[|steps'|]) && AllStopped(n, run'[|steps'|])
    decreases MostTokenSteps(n) - |steps|
  {
    var last := run[|steps|];
    RunReaches(n, run, steps, |steps|);
    RunAdvances(n, run, steps, |steps|);
    StuckMeansStopped(n, last);
    if AllStopped(n, last) {
      run', steps' := run, steps;
    } else {
      var step: Step :| MovesToken(step) && Enabled(n, last, step);
      var run1, steps1 := run + [Apply(n, last, step)], steps + [step];
      forall i: nat | i < |steps1| ensures Takes(n, run1[i], steps1[i], run1[i + 1]) {
        if i < |steps| {
          assert steps1[i] == steps[i];
        }
      }
      assert steps1[..|steps|] == steps;
      FewTokenSteps(n, run1, steps1);
      run', steps' := MoveOn(n, run1, steps1);
    }
  }
}
