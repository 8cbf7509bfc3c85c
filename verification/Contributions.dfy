/** What a background reduction adds up: the counts that the ranks have passed in when they finished their
    parts of it. */
module Contributions {
  import opened Tree
  import R = BackgroundReduce
  import opened Protocol
  import opened Invariant

  /** Step `i` of the run is rank `y` finishing its part of reduction `e`. */
  ghost predicate Gives(cfg: Config, run: seq<State>, steps: seq<Step>, y: nat, e: nat, i: nat) {
    && i < |steps| && i < |run| && y < |run[i].reduce.ranks|
    && steps[i].OnReduce? && steps[i].x == y && steps[i].reduce.ReduceFinish?
    && run[i].reduce.ranks[y].epoch == e
  }

  /** What `gave` and `gaveEpoch` say of rank `y` after `i` steps: which of them was its last contribution, and
      of how much. */
  ghost predicate GaveOk(cfg: Config, run: seq<State>, steps: seq<Step>, y: nat, i: nat)
    requires i < |run|
  {
    && y < |run[i].reduce.ranks| && y < |run[i].reduce.gave|
    && var e := run[i].reduce.ranks[y].gaveEpoch;
       && (e > 0 ==> exists k: nat :: k < i && Gives(cfg, run, steps, y, e, k)
                                      && steps[k].reduce.count == run[i].reduce.gave[y])
       && forall k: nat, d: nat | k < i && Gives(cfg, run, steps, y, d, k) :: d <= e
  }

  /** A step of another kind, or of another rank, leaves `y` with what it gave. */
  lemma OthersGiveNothing(cfg: Config, s: State, step: Step, t: State, y: nat)
    requires Takes(cfg, s, step, t) && y < cfg.n
    requires !(step.OnReduce? && step.x == y && step.reduce.ReduceFinish?)
    ensures t.reduce.ranks[y].gaveEpoch == s.reduce.ranks[y].gaveEpoch && t.reduce.gave[y] == s.reduce.gave[y]
  {
  }

  /** A contribution is to a later reduction than the last one was, and of the count passed in. */
  lemma FinishGives(cfg: Config, s: State, y: nat, count: int, bytes: nat, t: State)
    requires R.Inv(cfg, s.reduce) && Takes(cfg, s, OnReduce(y, R.ReduceFinish(count, bytes)), t)
    ensures y < cfg.n && s.reduce.ranks[y].gaveEpoch < s.reduce.ranks[y].epoch == t.reduce.ranks[y].gaveEpoch
    ensures t.reduce.gave[y] == count
    ensures t.reduce.ranks[y].sum == s.reduce.ranks[y].sum + count
  {
    assert R.RankOk(cfg, s.reduce, y);
  }

  lemma ReduceInvAt(cfg: Config, run: seq<State>, steps: seq<Step>, i: nat)
    requires Run(cfg, run, steps) && Initial(cfg, run[0]) && i <= |steps|
    ensures R.Inv(cfg, run[i].reduce)
  {
    InitialInv(cfg, run[0]);
    RunKeepsInv(cfg, run, steps, i);
  }

  lemma {:induction false} GaveAlong(cfg: Config, run: seq<State>, steps: seq<Step>, y: nat, i: nat)
    requires Run(cfg, run, steps) && Initial(cfg, run[0]) && y < cfg.n && i <= |steps|
    ensures GaveOk(cfg, run, steps, y, i)
  {
    if i > 0 {
      GaveAlong(cfg, run, steps, y, i - 1);
      ReduceInvAt(cfg, run, steps, i - 1);
      assert StepAt(cfg, run, steps, i - 1);
      GaveNext(cfg, run, steps, y, i - 1);
    }
  }

  lemma GaveNext(cfg: Config, run: seq<State>, steps: seq<Step>, y: nat, i: nat)
    requires |run| == |steps| + 1 && i < |steps| && y < cfg.n
    ensures StepAt(cfg, run, steps, i) && R.Inv(cfg, run[i].reduce) && GaveOk(cfg, run, steps, y, i) ==>
              GaveOk(cfg, run, steps, y, i + 1)
  {
    if StepAt(cfg, run, steps, i) && R.Inv(cfg, run[i].reduce) && GaveOk(cfg, run, steps, y, i) {
      if Gives(cfg, run, steps, y, run[i].reduce.ranks[y].epoch, i) {
        JustGave(cfg, run, steps, y, i);
      } else {
        DidNotGive(cfg, run, steps, y, i);
      }
    }
  }

  lemma JustGave(cfg: Config, run: seq<State>, steps: seq<Step>, y: nat, i: nat)
    requires |run| == |steps| + 1 && i < |steps| && StepAt(cfg, run, steps, i) && R.Inv(cfg, run[i].reduce)
    requires y < cfg.n && GaveOk(cfg, run, steps, y, i)
    requires Gives(cfg, run, steps, y, run[i].reduce.ranks[y].epoch, i)
    ensures GaveOk(cfg, run, steps, y, i + 1)
  {
    var step := steps[i].reduce;
    FinishGives(cfg, run[i], y, step.count, step.bytes, run[i + 1]);
  }

  lemma DidNotGive(cfg: Config, run: seq<State>, steps: seq<Step>, y: nat, i: nat)
    requires |run| == |steps| + 1 && i < |steps| && StepAt(cfg, run, steps, i)
    requires y < cfg.n && GaveOk(cfg, run, steps, y, i)
    requires !Gives(cfg, run, steps, y, run[i].reduce.ranks[y].epoch, i)
    ensures GaveOk(cfg, run, steps, y, i + 1)
  {
    OthersGiveNothing(cfg, run[i], steps[i], run[i + 1], y);
  }

  /** A rank contributes to a reduction at most once. */
  lemma GivesOnce(cfg: Config, run: seq<State>, steps: seq<Step>, y: nat, e: nat, i: nat, j: nat)
    requires Run(cfg, run, steps) && Initial(cfg, run[0])
    requires i <= j && Gives(cfg, run, steps, y, e, i) && Gives(cfg, run, steps, y, e, j)
    ensures i == j
  {
    ReduceInvAt(cfg, run, steps, j);
    assert StepAt(cfg, run, steps, j);
    GaveAlong(cfg, run, steps, y, j);
    var step := steps[j].reduce;
    FinishGives(cfg, run[j], y, step.count, step.bytes, run[j + 1]);
  }

  /** A valid total of reduction `e` that the root delivers is the sum of the counts that all ranks have passed
      in when they finished their parts of it, each rank in exactly one step of the run. */
  lemma DeliveredIsSumOfCounts(cfg: Config, run: seq<State>, steps: seq<Step>, j: nat)
    returns (at: seq<nat>, counts: seq<int>)
    requires Run(cfg, run, steps) && Initial(cfg, run[0]) && j < |steps|
    requires steps[j].OnReduce? && steps[j].x == 0 && steps[j].reduce.ReduceFinish?
    requires StepAt(cfg, run, steps, j) && run[j].reduce.ranks[0].valid
    ensures |at| == |counts| == cfg.n
    ensures forall y: nat | y < cfg.n ::
              && at[y] <= j && Gives(cfg, run, steps, y, run[j].reduce.ranks[0].epoch, at[y])
              && counts[y] == steps[at[y]].reduce.count
    ensures forall y: nat, k: nat | y < cfg.n && Gives(cfg, run, steps, y, run[j].reduce.ranks[0].epoch, k) ::
              k == at[y]
    ensures run[j + 1].reduce.ranks[0].sum == Total(counts)
  {
    var e := run[j].reduce.ranks[0].epoch;
    var step := steps[j].reduce;
    ReduceInvAt(cfg, run, steps, j);
    R.DeliveredTotal(cfg, run[j].reduce, step.count, step.bytes);
    FinishGives(cfg, run[j], 0, step.count, step.bytes, run[j + 1]);
    counts := run[j + 1].reduce.gave;
    forall y: nat | y < cfg.n ensures exists k: nat :: GivesCount(cfg, run, steps, y, e, j, counts[y], k) {
      GaveAlong(cfg, run, steps, y, j + 1);
      var k: nat :| k < j + 1 && Gives(cfg, run, steps, y, e, k) && steps[k].reduce.count == counts[y];
      assert GivesCount(cfg, run, steps, y, e, j, counts[y], k);
    }
    at := seq(cfg.n, y requires 0 <= y < cfg.n =>
      var k: nat :| GivesCount(cfg, run, steps, y, e, j, counts[y], k); k);
    forall y: nat, k: nat | y < cfg.n && Gives(cfg, run, steps, y, e, k) ensures k == at[y] {
      if k < at[y] {
        GivesOnce(cfg, run, steps, y, e, k, at[y]);
      } else if at[y] < k {
        GivesOnce(cfg, run, steps, y, e, at[y], k);
      }
    }
  }

  ghost predicate GivesCount(cfg: Config, run: seq<State>, steps: seq<Step>, y: nat, e: nat, j: nat, count: int, k: nat)
  {
    k <= j && Gives(cfg, run, steps, y, e, k) && steps[k].reduce.count == count
  }
}
