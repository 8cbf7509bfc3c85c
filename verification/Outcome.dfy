/** How the runs of the code end: with every rank out of its cleanup loop, after a bounded number of
    rounds, unless a rank waits for another one that does not take part in background reductions. */
module Outcome {
  import opened Tree
  import R = BackgroundReduce
  import opened Protocol
  import opened Invariant
  import opened Moves
  import opened Liveness
  import opened Completion
  import opened CleanupProgress
  import opened CodeSafety
  import opened Rounds
  import C = CleanupDiligence
  import D = WorkDiligence

  // ----- the rounds of a run -----

  /** The run holds one round after the other: round `j` reaches from state `cuts[j]` to the state
      `cuts[j + 1]`. */
  ghost predicate InRounds(cfg: Config, how: seq<Manner>, run: seq<State>, steps: seq<Step>, cuts: seq<nat>) {
    && Run(cfg, run, steps) && cuts != [] && |how| == cfg.n
    && (forall j | 0 <= j < |cuts| :: cuts[j] <= |steps|)
    && forall j: nat | j < |cuts| - 1 :: RoundBetween(cfg, how, run, cuts, j)
  }

  ghost predicate RoundBetween(cfg: Config, how: seq<Manner>, run: seq<State>, cuts: seq<nat>, j: nat)
    requires j + 1 < |cuts|
  {
    cuts[j + 1] < |run| && IsRound(cfg, how, run, cuts[j], cuts[j + 1])
  }

  ghost function Ends(run: seq<State>, cuts: seq<nat>): (ends: seq<State>)
    requires forall j | 0 <= j < |cuts| :: cuts[j] < |run|
    ensures |ends| == |cuts| && forall j | 0 <= j < |cuts| :: ends[j] == run[cuts[j]]
  {
    seq(|cuts|, j requires 0 <= j < |cuts| => run[cuts[j]])
  }

  lemma EndsAreRounds(cfg: Config, how: seq<Manner>, run: seq<State>, steps: seq<Step>, cuts: seq<nat>)
    requires InRounds(cfg, how, run, steps, cuts)
    ensures RoundByRound(cfg, how, Ends(run, cuts))
  {
    var ends := Ends(run, cuts);
    forall j: nat | j < |ends| - 1 ensures RoundAt(cfg, how, ends, j) {
      assert RoundBetween(cfg, how, run, cuts, j);
      RoundOfRun(cfg, how, run, steps, cuts[j], cuts[j + 1]);
    }
  }

  // ----- a rank that does not call for reductions -----

  /** Ranks that do not call for reductions take no step of them. */
  ghost predicate KeepsManner(how: seq<Manner>, steps: seq<Step>) {
    forall i | 0 <= i < |steps| && steps[i].OnReduce? && steps[i].x < |how| :: how[steps[i].x].reduces
  }

  /** What a rank has to do for a reduction, no other rank does for it. */
  lemma AskedStays(cfg: Config, r: R.Sys, y: nat, step: R.ReduceStep, x: nat)
    requires R.Inv(cfg, r) && R.CanReduce(cfg, r, y, step) && !step.ReduceStart? && y != x
    requires 1 <= x < cfg.n && R.Phase(cfg, r, x) == R.Asked
    ensures R.Phase(cfg, R.ReduceNext(cfg, r, y, step), x) == R.Asked
  {
    match step
    case ReduceDecline(bytes) => R.DeclineEdge(cfg, r, y, bytes, x);
    case ReduceCount(from) => R.CountEdge(cfg, r, y, from, x);
    case ReduceFinish(count, bytes) =>
      R.CoverComplete(cfg, r, y);
      R.FinishEdge(cfg, r, y, count, bytes, x);
      assert x in R.DoneKids(cfg, r, y) || x !in Kids(cfg, y);
  }

  lemma StillBusy(cfg: Config, r: R.Sys, y: nat, step: R.ReduceStep, x: nat)
    requires R.Shape(cfg, r) && R.CanReduce(cfg, r, y, step) && y != x && x < cfg.n && r.ranks[x].outstanding
    ensures R.ReduceNext(cfg, r, y, step).ranks[x].outstanding
  {
  }

  lemma ReduceStepInvolves(cfg: Config, s: State, y: nat, step: R.ReduceStep, x: nat)
    requires Cleaning(cfg, s) && ReduceEnabled(cfg, s, y, step) && y != x && x < cfg.n && C.Involved(cfg, s, x)
    ensures C.Involved(cfg, s.(reduce := ReduceAfter(cfg, s, y, step)), x)
  {
    if s.reduce.ranks[x].outstanding {
      StillBusy(cfg, s.reduce, y, step, x);
    } else {
      assert R.EdgeOk(cfg, s.reduce, x);
      AskedStays(cfg, s.reduce, y, step, x);
    }
  }

  lemma InvolvedStays(cfg: Config, s: State, step: Step, t: State, x: nat)
    requires Cleaning(cfg, s) && Takes(cfg, s, step, t) && x < cfg.n && C.Involved(cfg, s, x)
    requires !(step.OnReduce? && step.x == x)
    ensures Cleaning(cfg, t) && C.Involved(cfg, t, x)
  {
    TakesCleans(cfg, s, step, t);
    if step.OnReduce? {
      ReduceStepInvolves(cfg, s, step.x, step.reduce, x);
    }
  }

  /** As long as a rank has something to do for a reduction, no rank finishes. */
  lemma InvolvedBlocks(cfg: Config, s: State, x: nat, z: nat)
    requires Cleaning(cfg, s) && x < cfg.n && z < cfg.n && C.Involved(cfg, s, x)
    ensures s.phase[z] == Cleanup
  {
    if s.reduce.ranks[x].outstanding {
      NobodyFinishedYet(cfg, s, x, z);
    } else {
      assert R.EdgeOk(cfg, s.reduce, x);
      NobodyFinishedYet(cfg, s, Parent(cfg, x), z);
    }
  }

  /** If it never does it, it keeps every rank in its cleanup loop for ever. */
  lemma DeafRankBlocks(cfg: Config, how: seq<Manner>, run: seq<State>, steps: seq<Step>, x: nat, k: nat, i: nat)
    requires Run(cfg, run, steps) && KeepsManner(how, steps) && k <= i <= |steps| && |how| == cfg.n
    requires Cleaning(cfg, run[k]) && x < cfg.n && !how[x].reduces && C.Involved(cfg, run[k], x)
    ensures Shape(cfg, run[i]) && forall z: nat | z < cfg.n :: run[i].phase[z] == Cleanup
  {
    var blocked := (u: State) => Cleaning(cfg, u) && C.Involved(cfg, u, x);
    var others := (step: Step) => !(step.OnReduce? && step.x == x);
    forall a: State, step: Step, b: State | blocked(a) && others(step) && Takes(cfg, a, step, b) ensures blocked(b) {
      InvolvedStays(cfg, a, step, b, x);
    }
    KeptFrom(cfg, run, steps, others, blocked, k, i);
    forall z: nat | z < cfg.n ensures run[i].phase[z] == Cleanup {
      InvolvedBlocks(cfg, run[i], x, z);
    }
  }

  // ----- the end -----

  /** When all ranks have left their main loops, all cleanup loops end, within n(2n + 13) rounds, if and only
      if every rank that has something to do for a reduction calls for reductions. */
  lemma CleanupEndsExactlyIf(cfg: Config, how: seq<Manner>, run: seq<State>, steps: seq<Step>, cuts: seq<nat>,
                             k: nat, j: nat)
    requires InRounds(cfg, how, run, steps, cuts) && KeepsManner(how, steps)
    requires k < |cuts| && Reachable(cfg, run[cuts[k]]) && AllHaveLeft(cfg, run[cuts[k]])
    requires k + MostCleanupRounds(cfg.n) <= j < |cuts|
    ensures Shape(cfg, run[cuts[j]])
    ensures AllFinished(cfg, run[cuts[j]]) <==> NobodyDeaf(cfg, how, run[cuts[k]])
  {
    var s, t := run[cuts[k]], run[cuts[j]];
    EndsAreRounds(cfg, how, run, steps, cuts);
    ReachableInv(cfg, s);
    CutsAscend(cfg, how, run, steps, cuts, k, j);
    RunLeads(cfg, run, steps, cuts[k], cuts[j]);
    C.Eases(cfg, s, t);
    if NobodyDeaf(cfg, how, s) {
      FewCleanupRounds(cfg, how, Ends(run, cuts), k, j);
    } else {
      var x: nat :| x < cfg.n && !C.Unneeded(cfg, x, how[x].reduces, s);
      DeafRankBlocks(cfg, how, run, steps, x, cuts[k], cuts[j]);
      assert t.phase[x] == Cleanup;
    }
  }

  lemma {:induction false} CutsAscend(cfg: Config, how: seq<Manner>, run: seq<State>, steps: seq<Step>,
                                      cuts: seq<nat>, k: nat, j: nat)
    requires InRounds(cfg, how, run, steps, cuts) && k <= j < |cuts|
    ensures cuts[k] <= cuts[j]
    decreases j
  {
    if k < j {
      CutsAscend(cfg, how, run, steps, cuts, k, j - 1);
      assert RoundBetween(cfg, how, run, cuts, j - 1);
    }
  }

  /** Once no work is left, every rank leaves its main loop within 19n rounds, and gets to the end of its
      cleanup loop within n(2n + 13) more: the code of the ranks neither deadlocks nor runs for ever. */
  lemma EverybodyFinishes(cfg: Config, how: seq<Manner>, run: seq<State>, steps: seq<Step>, cuts: seq<nat>,
                          w: nat, k: nat, j: nat)
    requires InRounds(cfg, how, run, steps, cuts)
    requires w < |cuts| && Reachable(cfg, run[cuts[w]]) && Quiet(cfg, run[cuts[w]])
    requires w + MostTermSteps(cfg.n) <= k < |cuts| && NobodyDeaf(cfg, how, run[cuts[k]])
    requires k + MostCleanupRounds(cfg.n) <= j < |cuts|
    ensures Shape(cfg, run[cuts[j]]) && AllFinished(cfg, run[cuts[j]])
  {
    EndsAreRounds(cfg, how, run, steps, cuts);
    FewRounds(cfg, how, Ends(run, cuts), w, k, j);
  }

  /** From whatever state a run has reached, if the callbacks dequeue an item when they are called and
      create none any more, every rank gets to the end of its cleanup loop; `D.LeftBound` says how many
      rounds may pass before no work is left. */
  lemma EveryRunEnds(cfg: Config, how: seq<Manner>, run: seq<State>, steps: seq<Step>, cuts: seq<nat>,
                     w: nat, k: nat, j: nat)
    requires InRounds(cfg, how, run, steps, cuts) && Reachable(cfg, run[cuts[0]]) && AllDequeue(how)
    requires D.Left(cfg, run[cuts[0]]) <= w < |cuts| && run[cuts[w]].work.created == run[cuts[0]].work.created
    requires w + MostTermSteps(cfg.n) <= k < |cuts| && NobodyDeaf(cfg, how, run[cuts[k]])
    requires k + MostCleanupRounds(cfg.n) <= j < |cuts|
    ensures Shape(cfg, run[cuts[j]]) && AllFinished(cfg, run[cuts[j]])
  {
    EndsAreRounds(cfg, how, run, steps, cuts);
    FewWorkRounds(cfg, how, Ends(run, cuts), w);
    EverybodyFinishes(cfg, how, run, steps, cuts, w, k, j);
  }

  // ----- the default configuration -----

  /** In a run whose ranks do not call for reductions, as they do not by default, none takes part in any. */
  lemma {:induction false} NobodyReduces(cfg: Config, run: seq<State>, steps: seq<Step>, i: nat)
    requires Run(cfg, run, steps) && Initial(cfg, run[0]) && i <= |steps|
    requires forall j | 0 <= j < |steps| :: !steps[j].OnReduce?
    ensures run[i].reduce == run[0].reduce && Shape(cfg, run[i])
  {
    if i > 0 {
      NobodyReduces(cfg, run, steps, i - 1);
      assert StepAt(cfg, run, steps, i - 1);
    }
  }

  lemma RunReaches(cfg: Config, run: seq<State>, steps: seq<Step>, i: nat)
    requires Run(cfg, run, steps) && Initial(cfg, run[0]) && i <= |steps|
    ensures Shape(cfg, run[i]) ==> Reachable(cfg, run[i])
  {
    InitialIsReachable(cfg, run[0]);
    RunLeads(cfg, run, steps, 0, i);
    if Shape(cfg, run[i]) {
      LeadsToReachable(cfg, run[0], run[i]);
    }
  }

  /** So every such run, from the start, whatever is in the queues: once the callbacks create no more items,
      a bounded number of rounds takes every rank to the end of its cleanup loop. */
  lemma EveryDefaultRunEnds(cfg: Config, how: seq<Manner>, run: seq<State>, steps: seq<Step>, cuts: seq<nat>,
                            w: nat, k: nat, j: nat)
    requires InRounds(cfg, how, run, steps, cuts) && Initial(cfg, run[0]) && AllDequeue(how)
    requires forall i | 0 <= i < |steps| :: !steps[i].OnReduce?
    requires Shape(cfg, run[cuts[0]]) && D.Left(cfg, run[cuts[0]]) <= w < |cuts|
    requires run[cuts[w]].work.created == run[cuts[0]].work.created
    requires w + MostTermSteps(cfg.n) <= k < |cuts| && k + MostCleanupRounds(cfg.n) <= j < |cuts|
    ensures Shape(cfg, run[cuts[j]]) && AllFinished(cfg, run[cuts[j]])
  {
    RunReaches(cfg, run, steps, cuts[0]);
    NobodyReduces(cfg, run, steps, cuts[k]);
    forall x: nat | x < cfg.n ensures !C.Involved(cfg, run[cuts[k]], x) {
      assert !run[0].reduce.ranks[x].outstanding;
    }
    EveryRunEnds(cfg, how, run, steps, cuts, w, k, j);
  }
}
