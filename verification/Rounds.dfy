/** Progress of the code: if every rank goes on passing through its loop and no message stays unnoticed,
    the work is done, termination is detected and the cleanup barrier completes, after a bounded number
    of rounds. */
module Rounds {
  import opened Tree
  import opened Protocol
  import opened Invariant
  import opened Moves
  import opened Liveness
  import opened Completion
  import opened CleanupLoad
  import opened CleanupProgress
  import opened WorkWeight
  import opened CodeSafety
  import T = TermDiligence
  import C = CleanupDiligence
  import D = WorkDiligence
  import A = AbortDiligence

  // ----- one round -----

  /** Between states `i` and `j` of a run rank `x` makes a whole pass.  A rank that has finished makes no
      pass, which is to say one that does nothing. */
  ghost predicate HasPass(cfg: Config, how: seq<Manner>, run: seq<State>, i: nat, j: nat, x: nat)
    requires j < |run| && x < |how|
  {
    exists a: nat, b: nat :: i <= a <= b <= j && Diligent(cfg, x, how[x], run[a], run[b])
  }

  /** A round: a stretch of a run that holds a whole pass of every rank, in whatever order the passes begin
      and end, and however they overlap.  `how[x]` is the manner of rank `x`. */
  ghost predicate IsRound(cfg: Config, how: seq<Manner>, run: seq<State>, i: nat, j: nat)
    requires j < |run|
  {
    i <= j && |how| == cfg.n && forall x: nat | x < cfg.n :: HasPass(cfg, how, run, i, j, x)
  }

  /** Doing nothing is diligent for a rank that has finished. */
  lemma FinishedRankRests(cfg: Config, x: nat, how: Manner, s: State)
    requires Shape(cfg, s) && x < cfg.n && s.phase[x] == Finished
    ensures Diligent(cfg, x, how, s, s)
  {
    LeadsToItself(cfg, s);
    D.DiligentElsewhere(cfg, x, s, s);
    A.DiligentElsewhere(cfg, x, s, s);
  }

  lemma {:induction false} RunLeads(cfg: Config, run: seq<State>, steps: seq<Step>, i: nat, j: nat)
    requires Run(cfg, run, steps) && i <= j <= |steps|
    ensures LeadsTo(cfg, run[i], run[j])
    decreases j
  {
    if i == j {
      LeadsToItself(cfg, run[i]);
    } else {
      RunLeads(cfg, run, steps, i, j - 1);
      assert StepAt(cfg, run, steps, j - 1);
      OneStepLeads(cfg, run[j - 1], steps[j - 1], run[j]);
      LeadsOn(cfg, run[i], run[j - 1], run[j]);
    }
  }

  /** What a round leads from and to: it makes the progress that any rank could make at its beginning. */
  ghost predicate Round(cfg: Config, how: seq<Manner>, s: State, t: State) {
    LeadsTo(cfg, s, t) && |how| == cfg.n && forall x: nat | x < cfg.n :: Diligent(cfg, x, how[x], s, t)
  }

  lemma RoundOfRun(cfg: Config, how: seq<Manner>, run: seq<State>, steps: seq<Step>, i: nat, j: nat)
    requires Run(cfg, run, steps) && j <= |steps| && IsRound(cfg, how, run, i, j)
    ensures Round(cfg, how, run[i], run[j])
  {
    RunLeads(cfg, run, steps, i, j);
    forall x: nat | x < cfg.n ensures Diligent(cfg, x, how[x], run[i], run[j]) {
      assert HasPass(cfg, how, run, i, j, x);
      var a: nat, b: nat :| i <= a <= b <= j && Diligent(cfg, x, how[x], run[a], run[b]);
      RunLeads(cfg, run, steps, i, a);
      RunLeads(cfg, run, steps, b, j);
      Wider(cfg, x, how[x], run[i], run[a], run[b], run[j]);
    }
  }

  // ----- cleanup -----

  lemma SomebodyCanHelp(cfg: Config, s: State) returns (x: nat)
    requires Cleaning(cfg, s) && !AllFinished(cfg, s)
    ensures x < cfg.n && C.CanHelp(cfg, s, x)
  {
    var z: nat :| z < cfg.n && s.phase[z] != Finished;
    SomeClearingStep(cfg, s, z);
    var step: Step :| Enabled(cfg, s, step) && Clears(s, step) && Prompt(cfg, s, step);
    x := RankOf(step);
  }

  /** Every rank that takes part in a reduction calls for reductions in its passes. */
  ghost predicate NobodyDeaf(cfg: Config, how: seq<Manner>, s: State) {
    && Shape(cfg, s) && |how| == cfg.n
    && forall x: nat | x < cfg.n :: C.Unneeded(cfg, x, how[x].reduces, s)
  }

  lemma NobodyGetsDeaf(cfg: Config, how: seq<Manner>, s: State, t: State)
    requires Cleaning(cfg, s) && NobodyDeaf(cfg, how, s) && LeadsTo(cfg, s, t)
    ensures Cleaning(cfg, t) && NobodyDeaf(cfg, how, t)
  {
    C.Eases(cfg, s, t);
    forall x: nat | x < cfg.n ensures C.Unneeded(cfg, x, how[x].reduces, t) {
      C.UnneededForGood(cfg, x, how[x].reduces, s, t);
    }
  }

  /** Until all ranks have finished, every round sheds some of the burden. */
  lemma CleanupRound(cfg: Config, how: seq<Manner>, s: State, t: State)
    requires Cleaning(cfg, s) && NobodyDeaf(cfg, how, s) && Round(cfg, how, s, t)
    ensures Cleaning(cfg, t) && NobodyDeaf(cfg, how, t)
    ensures !AllFinished(cfg, s) ==> Burden(cfg, t) < Burden(cfg, s)
  {
    NobodyGetsDeaf(cfg, how, s, t);
    C.Eases(cfg, s, t);
    if !AllFinished(cfg, s) {
      var x := SomebodyCanHelp(cfg, s);
      assert Diligent(cfg, x, how[x], s, t);
    }
  }

  // ----- the allreduce -----

  lemma SomebodyCanGoOn(cfg: Config, s: State) returns (x: nat)
    requires T.Calm(cfg, s) && !AllHaveLeft(cfg, s)
    ensures x < cfg.n && T.CanGoOn(cfg, s, x)
  {
    var z: nat :| z < cfg.n && s.phase[z] == Working;
    SomeStepIsEnabled(cfg, s, z);
    var y: nat, step :| TermEnabled(cfg, s, y, step);
    x := y;
  }

  /** As long as a rank is in its main loop, with no work left, every round takes the allreduce further. */
  lemma TermRound(cfg: Config, how: seq<Manner>, s: State, t: State)
    requires T.Calm(cfg, s) && Round(cfg, how, s, t)
    ensures T.Calm(cfg, t)
    ensures !AllHaveLeft(cfg, s) ==> Potential(cfg, t.term) > Potential(cfg, s.term)
  {
    T.Rises(cfg, s, t);
    if !AllHaveLeft(cfg, s) {
      var x := SomebodyCanGoOn(cfg, s);
      assert Diligent(cfg, x, how[x], s, t);
    }
  }

  // ----- the work -----

  /** The callbacks dequeue when they are called. */
  predicate AllDequeue(how: seq<Manner>) {
    forall x | 0 <= x < |how| :: how[x].dequeues
  }

  /** As long as work is left, every round in which no callback creates any does some of it. */
  lemma WorkRound(cfg: Config, how: seq<Manner>, s: State, t: State)
    requires Inv(cfg, s) && !Quiet(cfg, s) && Round(cfg, how, s, t)
    requires AllDequeue(how) && t.work.created == s.work.created
    ensures Inv(cfg, t) && D.Left(cfg, t) < D.Left(cfg, s)
  {
    var x := D.SomebodyCanDo(cfg, s);
    assert Diligent(cfg, x, how[x], s, t);
  }

  // ----- many rounds -----

  /** Round after round. */
  ghost predicate RoundByRound(cfg: Config, how: seq<Manner>, ends: seq<State>) {
    ends != [] && forall j: nat | j < |ends| - 1 :: RoundAt(cfg, how, ends, j)
  }

  ghost predicate RoundAt(cfg: Config, how: seq<Manner>, ends: seq<State>, j: nat)
    requires j + 1 < |ends|
  {
    Round(cfg, how, ends[j], ends[j + 1])
  }

  lemma {:induction false} RoundsLead(cfg: Config, how: seq<Manner>, ends: seq<State>, k: nat, j: nat)
    requires RoundByRound(cfg, how, ends) && k <= j < |ends|
    ensures LeadsTo(cfg, ends[k], ends[j])
    decreases j
  {
    if k == j {
      LeadsToItself(cfg, ends[k]);
    } else {
      RoundsLead(cfg, how, ends, k, j - 1);
      assert RoundAt(cfg, how, ends, j - 1);
      LeadsOn(cfg, ends[k], ends[j - 1], ends[j]);
    }
  }

  /** What each round takes further, many rounds take further one by one. */
  lemma {:induction false} KeptByRounds(cfg: Config, how: seq<Manner>, ends: seq<State>, inv: (State, nat) -> bool,
                                        k: nat, j: nat)
    requires RoundByRound(cfg, how, ends) && k <= j < |ends| && inv(ends[k], 0)
    requires forall a: State, d: nat, b: State :: inv(a, d) && Round(cfg, how, a, b) ==> inv(b, d + 1)
    ensures inv(ends[j], j - k)
    decreases j
  {
    if k < j {
      KeptByRounds(cfg, how, ends, inv, k, j - 1);
      assert RoundAt(cfg, how, ends, j - 1);
    }
  }

  lemma LeftForGood(cfg: Config, s: State, t: State)
    requires LeadsTo(cfg, s, t) && Shape(cfg, s) && AllHaveLeft(cfg, s)
    ensures Shape(cfg, t) && AllHaveLeft(cfg, t)
  {
    var left := (u: State) => Shape(cfg, u) && AllHaveLeft(cfg, u);
    forall a: State, step: Step, b: State | left(a) && Takes(cfg, a, step, b) ensures left(b) {
      LeftStays(cfg, a, step);
    }
    KeptOnTheWay(cfg, s, t, left);
  }

  /** A rank that has finished takes no step. */
  lemma FinishedForGood(cfg: Config, s: State, t: State)
    requires LeadsTo(cfg, s, t) && Shape(cfg, s) && AllFinished(cfg, s)
    ensures t == s
  {
    var same := (u: State) => u == s;
    KeptOnTheWay(cfg, s, t, same);
  }

  /** All ranks have finished, or the burden has become less than `most` by `d`. */
  ghost predicate Within(cfg: Config, how: seq<Manner>, s: State, most: int, d: nat) {
    && Cleaning(cfg, s) && NobodyDeaf(cfg, how, s)
    && (AllFinished(cfg, s) || Burden(cfg, s) + d <= most)
  }

  lemma RoundSheds(cfg: Config, how: seq<Manner>, s: State, t: State, most: int, d: nat)
    requires Within(cfg, how, s, most, d) && Round(cfg, how, s, t)
    ensures Within(cfg, how, t, most, d + 1)
  {
    CleanupRound(cfg, how, s, t);
    if AllFinished(cfg, s) {
      FinishedForGood(cfg, s, t);
    }
  }

  lemma CleanupRounds(cfg: Config, how: seq<Manner>, ends: seq<State>, most: int, k: nat, j: nat)
    requires RoundByRound(cfg, how, ends) && k <= j < |ends| && Within(cfg, how, ends[k], most, 0)
    ensures Within(cfg, how, ends[j], most, j - k)
  {
    var within := (s: State, d: nat) => Within(cfg, how, s, most, d);
    forall a: State, d: nat, b: State | within(a, d) && Round(cfg, how, a, b) ensures within(b, d + 1) {
      RoundSheds(cfg, how, a, b, most, d);
    }
    KeptByRounds(cfg, how, ends, within, k, j);
  }

  lemma UnfinishedMeansBurden(cfg: Config, s: State)
    requires Cleaning(cfg, s) && !AllFinished(cfg, s)
    ensures Burden(cfg, s) > 0
  {
    var x: nat :| x < cfg.n && s.phase[x] != Finished;
    var step, t := OneClearingStep(cfg, s, x);
  }

  /** How many rounds the cleanup loops may take. */
  function MostCleanupRounds(n: nat): nat {
    n * MaxLoad(n)
  }

  /** Once every rank has left its main loop, all cleanup loops end within n(2n + 13) rounds, unless
      a rank that takes part in a reduction does not call for reductions. */
  lemma FewCleanupRounds(cfg: Config, how: seq<Manner>, ends: seq<State>, k: nat, j: nat)
    requires RoundByRound(cfg, how, ends) && k < |ends| && Reachable(cfg, ends[k]) && AllHaveLeft(cfg, ends[k])
    requires NobodyDeaf(cfg, how, ends[k])
    requires k + MostCleanupRounds(cfg.n) <= j < |ends|
    ensures Shape(cfg, ends[j]) && AllFinished(cfg, ends[j])
  {
    ReachableInv(cfg, ends[k]);
    TotalBound(cfg, ends[k]);
    CleanupRounds(cfg, how, ends, MostCleanupRounds(cfg.n), k, j);
    if !AllFinished(cfg, ends[j]) {
      UnfinishedMeansBurden(cfg, ends[j]);
    }
  }

  /** Nothing is left to process, and every rank has left its main loop or the allreduce has come further
      than `least` by `d`. */
  ghost predicate Beyond(cfg: Config, s: State, least: int, d: nat) {
    T.Calm(cfg, s) && (AllHaveLeft(cfg, s) || Potential(cfg, s.term) >= least + d)
  }

  lemma RoundRises(cfg: Config, how: seq<Manner>, s: State, t: State, least: int, d: nat)
    requires Beyond(cfg, s, least, d) && Round(cfg, how, s, t)
    ensures Beyond(cfg, t, least, d + 1)
  {
    TermRound(cfg, how, s, t);
    if AllHaveLeft(cfg, s) {
      LeftForGood(cfg, s, t);
    }
  }

  lemma TermRounds(cfg: Config, how: seq<Manner>, ends: seq<State>, least: int, k: nat, j: nat)
    requires RoundByRound(cfg, how, ends) && k <= j < |ends| && Beyond(cfg, ends[k], least, 0)
    ensures Beyond(cfg, ends[j], least, j - k)
  {
    var beyond := (s: State, d: nat) => Beyond(cfg, s, least, d);
    forall a: State, d: nat, b: State | beyond(a, d) && Round(cfg, how, a, b) ensures beyond(b, d + 1) {
      RoundRises(cfg, how, a, b, least, d);
    }
    KeptByRounds(cfg, how, ends, beyond, k, j);
  }

  lemma PotentialOnTheWay(cfg: Config, s: State, t: State)
    requires Reachable(cfg, s) && Quiet(cfg, s) && LeadsTo(cfg, s, t)
    ensures Shape(cfg, t) && Potential(cfg, t.term) <= Potential(cfg, s.term) + MostTermSteps(cfg.n)
  {
    var run: seq<State>, steps: seq<Step> :| Run(cfg, run, steps) && run[0] == s && run[|steps|] == t;
    LastPotential(cfg, run, steps);
  }

  /** While a rank is still in its main loop, there is room for another step. */
  lemma RoomForAnother(cfg: Config, s: State, t: State)
    requires Reachable(cfg, s) && Quiet(cfg, s) && LeadsTo(cfg, s, t) && T.Calm(cfg, t) && !AllHaveLeft(cfg, t)
    ensures Potential(cfg, t.term) < Potential(cfg, s.term) + MostTermSteps(cfg.n)
  {
    var z: nat :| z < cfg.n && t.phase[z] == Working;
    SomeStepIsEnabled(cfg, t, z);
    var y: nat, step :| TermEnabled(cfg, t, y, step);
    var any := OnTerm(y, step);
    PotentialRises(cfg, t, any);
    OneStepLeads(cfg, t, any, Apply(cfg, t, any));
    LeadsOn(cfg, s, t, Apply(cfg, t, any));
    PotentialOnTheWay(cfg, s, Apply(cfg, t, any));
  }

  /** Once no work is left, every rank leaves its main loop within 19n rounds. */
  lemma FewTermRounds(cfg: Config, how: seq<Manner>, ends: seq<State>, k: nat, j: nat)
    requires RoundByRound(cfg, how, ends) && k < |ends| && Reachable(cfg, ends[k]) && Quiet(cfg, ends[k])
    requires k + MostTermSteps(cfg.n) <= j < |ends|
    ensures Shape(cfg, ends[j]) && Reachable(cfg, ends[j]) && AllHaveLeft(cfg, ends[j])
  {
    ReachableInv(cfg, ends[k]);
    TermRounds(cfg, how, ends, Potential(cfg, ends[k].term), k, j);
    RoundsLead(cfg, how, ends, k, j);
    LeadsToReachable(cfg, ends[k], ends[j]);
    if !AllHaveLeft(cfg, ends[j]) {
      RoomForAnother(cfg, ends[k], ends[j]);
    }
  }

  /** Items have been created since, or no work is left, or less than `most` of it by `d`. */
  ghost predicate AtMostLeft(cfg: Config, s: State, t: State, most: int, d: nat) {
    && Inv(cfg, t) && s.work.created <= t.work.created
    && (t.work.created == s.work.created ==> Quiet(cfg, t) || D.Left(cfg, t) + d <= most)
  }

  lemma RoundDoes(cfg: Config, how: seq<Manner>, s0: State, s: State, t: State, most: int, d: nat)
    requires AtMostLeft(cfg, s0, s, most, d) && Round(cfg, how, s, t) && AllDequeue(how)
    ensures AtMostLeft(cfg, s0, t, most, d + 1)
  {
    D.Does(cfg, s, t);
    if t.work.created == s0.work.created {
      assert s.work.created == s0.work.created;
      if Quiet(cfg, s) {
        T.Rises(cfg, s, t);
      } else {
        WorkRound(cfg, how, s, t);
      }
    }
  }

  lemma WorkRounds(cfg: Config, how: seq<Manner>, ends: seq<State>, s0: State, most: int, j: nat)
    requires RoundByRound(cfg, how, ends) && j < |ends| && AllDequeue(how) && AtMostLeft(cfg, s0, ends[0], most, 0)
    ensures AtMostLeft(cfg, s0, ends[j], most, j)
  {
    var atMost := (s: State, d: nat) => AtMostLeft(cfg, s0, s, most, d);
    forall a: State, d: nat, b: State | atMost(a, d) && Round(cfg, how, a, b) ensures atMost(b, d + 1) {
      RoundDoes(cfg, how, s0, a, b, most, d);
    }
    KeptByRounds(cfg, how, ends, atMost, 0, j);
  }

  lemma WorkMeansSomethingLeft(cfg: Config, s: State)
    requires Inv(cfg, s) && !Quiet(cfg, s)
    ensures D.Left(cfg, s) > 0
  {
    var x: nat :| x < cfg.n && Owing(cfg, s, x);
    TotalGrows(seq(cfg.n, z => 0), Weights(s.work), x);
    TotalIsPositive(seq(cfg.n, z => 0));
  }

  /** From whatever state a run has reached: if the callbacks create no more items, then no work is left
      after as many rounds as `D.LeftBound` gives. */
  lemma FewWorkRounds(cfg: Config, how: seq<Manner>, ends: seq<State>, j: nat)
    requires RoundByRound(cfg, how, ends) && Reachable(cfg, ends[0]) && AllDequeue(how)
    requires D.Left(cfg, ends[0]) <= j < |ends| && ends[j].work.created == ends[0].work.created
    ensures Shape(cfg, ends[j]) && Reachable(cfg, ends[j]) && Quiet(cfg, ends[j])
  {
    ReachableInv(cfg, ends[0]);
    WorkRounds(cfg, how, ends, ends[0], D.Left(cfg, ends[0]), j);
    RoundsLead(cfg, how, ends, 0, j);
    LeadsToReachable(cfg, ends[0], ends[j]);
    if !Quiet(cfg, ends[j]) {
      WorkMeansSomethingLeft(cfg, ends[j]);
    }
  }

  /** Once no work is left, all cleanup loops have ended after the rounds of both loops. */
  lemma FewRounds(cfg: Config, how: seq<Manner>, ends: seq<State>, w: nat, k: nat, j: nat)
    requires RoundByRound(cfg, how, ends) && w < |ends| && Reachable(cfg, ends[w]) && Quiet(cfg, ends[w])
    requires w + MostTermSteps(cfg.n) <= k < |ends| && NobodyDeaf(cfg, how, ends[k])
    requires k + MostCleanupRounds(cfg.n) <= j < |ends|
    ensures Shape(cfg, ends[j]) && AllFinished(cfg, ends[j])
  {
    FewTermRounds(cfg, how, ends, w, k);
    FewCleanupRounds(cfg, how, ends, k, j);
  }
}
