/** An abort reaches every rank: each rank that enters the abort state in its main loop tells its tree
    neighbours, and they enter it when they hear. */
module AbortSpread {
  import opened Channels
  import opened Tree
  import W = WorkTransfer
  import A = AbortSignal
  import opened Protocol
  import opened Invariant
  import opened Moves

  /** Rank `y` is in the abort state too, or the request of `x` is on its way to it. */
  ghost predicate Told(a: A.Sys, x: nat, y: nat) {
    && y < |a.alarms|
    && (a.alarms[y].state || At(a.request, x, y) != [])
  }

  ghost predicate TellsNeighbours(cfg: Config, s: State, x: nat)
    requires Shape(cfg, s) && x < cfg.n
  {
    s.phase[x] == Working && s.abort.alarms[x].state ==> forall y | y in Neighbours(cfg, x) :: Told(s.abort, x, y)
  }

  ghost predicate Spread(cfg: Config, s: State) {
    Shape(cfg, s) && forall x: nat | x < cfg.n :: TellsNeighbours(cfg, s, x)
  }

  lemma StartTells(cfg: Config, a: A.Sys, p: nat, cleanup: bool, x: nat, y: nat)
    requires A.Shape(cfg, a) && p < cfg.n && x < cfg.n && y in Neighbours(cfg, x) && (x == p ==> !cleanup)
    requires a.alarms[x].state ==> Told(a, x, y)
    ensures var a' := A.Start(cfg, a, p, cleanup); a'.alarms[x].state ==> Told(a', x, y)
  {
    NeighboursAreRanks(cfg, x, y);
  }

  lemma NeighboursAreRanks(cfg: Config, x: nat, y: nat)
    requires cfg.Valid() && x < cfg.n && y in Neighbours(cfg, x)
    ensures y < cfg.n
  {
  }

  lemma AbortStepTells(cfg: Config, a: A.Sys, p: nat, step: A.AbortStep, cleanup: bool, x: nat, y: nat)
    requires A.Shape(cfg, a) && A.CanAbort(cfg, a, p, step) && x < cfg.n && y in Neighbours(cfg, x)
    requires x == p ==> !cleanup
    requires a.alarms[x].state ==> Told(a, x, y)
    ensures var a' := A.AbortNext(cfg, a, p, step, cleanup); a'.alarms[x].state ==> Told(a', x, y)
  {
    match step
    case AbortStart => StartTells(cfg, a, p, cleanup, x, y);
    case AbortHear(from) => HearTells(cfg, a, p, from, cleanup, x, y);
    case _ =>
  }

  lemma HearTells(cfg: Config, a: A.Sys, p: nat, from: nat, cleanup: bool, x: nat, y: nat)
    requires A.Shape(cfg, a) && A.CanHear(cfg, a, p, from) && x < cfg.n && y in Neighbours(cfg, x)
    requires x == p ==> !cleanup
    requires a.alarms[x].state ==> Told(a, x, y)
    ensures var a' := A.Hear(cfg, a, p, from, cleanup); a'.alarms[x].state ==> Told(a', x, y)
  {
    NeighboursAreRanks(cfg, x, y);
    if y != p {
      var mid := a.(request := Take(a.request, from, p), reply := Post(a.reply, p, from, ()));
      assert At(mid.request, x, y) == At(a.request, x, y);
      StartTells(cfg, mid, p, cleanup, x, y);
    }
  }

  lemma StepSpreads(cfg: Config, s: State, step: Step)
    requires Spread(cfg, s) && Enabled(cfg, s, step)
    ensures Spread(cfg, Apply(cfg, s, step))
  {
    var s' := Apply(cfg, s, step);
    forall x: nat | x < cfg.n ensures TellsNeighbours(cfg, s', x) {
      assert TellsNeighbours(cfg, s, x);
      if s'.phase[x] == Working && s'.abort.alarms[x].state {
        forall y | y in Neighbours(cfg, x) ensures Told(s'.abort, x, y) {
          StepTells(cfg, s, step, x, y);
        }
      }
    }
  }

  lemma StepTells(cfg: Config, s: State, step: Step, x: nat, y: nat)
    requires Shape(cfg, s) && Enabled(cfg, s, step) && x < cfg.n && y in Neighbours(cfg, x)
    requires TellsNeighbours(cfg, s, x)
    ensures var s' := Apply(cfg, s, step);
            s'.phase[x] == Working && s'.abort.alarms[x].state ==> s.phase[x] == Working && Told(s'.abort, x, y)
  {
    if step.OnAbort? && s.phase[x] == Working {
      AbortStepTells(cfg, s.abort, step.x, step.abort, s.phase[step.x] == Cleanup, x, y);
    }
  }

  lemma {:induction false} RunSpreads(cfg: Config, run: seq<State>, steps: seq<Step>, i: nat)
    requires Run(cfg, run, steps) && Spread(cfg, run[0]) && i <= |steps|
    ensures Spread(cfg, run[i])
  {
    if i > 0 {
      var before, step, after := run[i - 1], steps[i - 1], run[i];
      RunSpreads(cfg, run, steps, i - 1);
      assert StepAt(cfg, run, steps, i - 1);
      StepSpreads(cfg, before, step);
    }
  }

  lemma ReachableSpread(cfg: Config, s: State)
    requires Reachable(cfg, s)
    ensures Spread(cfg, s)
  {
    var run: seq<State>, steps: seq<Step> :| Run(cfg, run, steps) && Initial(cfg, run[0]) && run[|steps|] == s;
    RunSpreads(cfg, run, steps, |steps|);
  }

  /** When a rank is in the abort state in its main loop, each of its tree neighbours is in the abort state too,
      or the request is on its way to it. */
  lemma AbortIsSent(cfg: Config, s: State, x: nat, y: nat)
    requires Reachable(cfg, s) && x < cfg.n && y in Neighbours(cfg, x)
    requires s.phase[x] == Working && s.abort.alarms[x].state
    ensures y < cfg.n && (s.abort.alarms[y].state || At(s.abort.request, x, y) != [])
  {
    ReachableSpread(cfg, s);
    assert TellsNeighbours(cfg, s, x);
    NeighboursAreRanks(cfg, x, y);
  }

  // ----- over the tree -----

  /** What spreads to tree neighbours spreads from `x` up to the root, ... */
  lemma {:induction false} SpreadsUp(cfg: Config, known: nat -> bool, x: nat)
    requires cfg.Valid() && x < cfg.n && known(x)
    requires forall x: nat, y: nat | x < cfg.n && known(x) && y in Neighbours(cfg, x) :: known(y)
    ensures known(0)
  {
    if x > 0 {
      assert Parent(cfg, x) in Neighbours(cfg, x);
      SpreadsUp(cfg, known, Parent(cfg, x));
    }
  }

  /** ... and from the root down to `z`. */
  lemma {:induction false} SpreadsDown(cfg: Config, known: nat -> bool, z: nat)
    requires cfg.Valid() && z < cfg.n && known(0)
    requires forall x: nat, y: nat | x < cfg.n && known(x) && y in Neighbours(cfg, x) :: known(y)
    ensures known(z)
  {
    if z > 0 {
      SpreadsDown(cfg, known, Parent(cfg, z));
      assert z in Neighbours(cfg, Parent(cfg, z));
    }
  }

  /** With all ranks in the main loop, one of them in the abort state, and no request in flight, every rank has
      its abort flag set. */
  lemma AbortReachesAll(cfg: Config, s: State, x: nat, z: nat)
    requires Reachable(cfg, s) && x < cfg.n && z < cfg.n && s.abort.alarms[x].state
    requires forall y: nat | y < cfg.n :: s.phase[y] == Working
    requires Silent(cfg.n, s.abort.request)
    ensures s.abort.alarms[z].state && Aborted(cfg, s, z)
  {
    var known := (y: nat) => y < cfg.n && s.abort.alarms[y].state;
    forall y: nat, y': nat | y < cfg.n && known(y) && y' in Neighbours(cfg, y) ensures known(y') {
      AbortIsSent(cfg, s, y, y');
    }
    SpreadsUp(cfg, known, x);
    SpreadsDown(cfg, known, z);
    ReachableInv(cfg, s);
    assert A.AlarmOk(s.abort.alarms[z]);
  }

  // ----- the abort payload of a work reply -----

  /** A refusal tells whether the rank that answers has aborted, ... */
  lemma RefusalTells(cfg: Config, s: State, x: nat)
    requires Inv(cfg, s) && WorkEnabled(cfg, s, x, W.DoRefuse)
    ensures var y := s.work.desks[x].requestors[0];
            At(DoWork(cfg, s, x, W.DoRefuse).work.reply, x, y) == [W.NoWork(Aborted(cfg, s, x))]
  {
    W.FirstRequestorWaits(cfg.n, s.work, x);
  }

  /** ... and a rank that hears that it has, aborts as well. */
  lemma HearingAborts(cfg: Config, s: State, y: nat)
    requires Shape(cfg, s) && WorkEnabled(cfg, s, y, W.DoHearNo)
    requires At(s.work.reply, s.work.desks[y].source, y)[0] == W.NoWork(true)
    ensures Aborted(cfg, DoWork(cfg, s, y, W.DoHearNo), y)
  {
  }

  // ----- no false alarm -----

  /** No refusal in flight says that its sender has aborted. */
  ghost predicate NoPayload(n: nat, w: W.Sys) {
    forall x: nat, y: nat | x < n && y < n :: W.NoWork(true) !in At(w.reply, x, y)
  }

  /** No rank has aborted. */
  ghost predicate NoFlag(cfg: Config, a: A.Sys)
    requires A.Shape(cfg, a)
  {
    forall x: nat | x < cfg.n :: !a.alarms[x].flag
  }

  ghost predicate NoAlarm(cfg: Config, s: State) {
    Inv(cfg, s) && NoFlag(cfg, s.abort) && NoPayload(cfg.n, s.work)
  }

  lemma NoRequests(cfg: Config, a: A.Sys)
    requires A.Inv(cfg, a) && NoFlag(cfg, a)
    ensures Silent(cfg.n, a.request)
  {
    forall x: nat | x < cfg.n ensures !a.alarms[x].outstanding {
      assert A.AlarmOk(a.alarms[x]);
    }
    A.NobodyWaiting(cfg, a);
  }

  lemma NobodyStirs(cfg: Config, a: A.Sys, p: nat, step: A.AbortStep)
    requires A.Inv(cfg, a) && NoFlag(cfg, a) && !step.UserAbort?
    ensures !A.CanAbort(cfg, a, p, step)
  {
    NoRequests(cfg, a);
    if p < cfg.n {
      assert A.AlarmOk(a.alarms[p]);
    }
  }

  lemma RepliesStayQuiet(n: nat, w: W.Sys, p: nat, step: W.WorkStep, x: nat, y: nat)
    requires |w.desks| == n && NoPayload(n, w) && W.CanWork(n, w, p, step) && x < n && y < n
    ensures W.NoWork(true) !in At(W.WorkNext(n, w, p, step, false).reply, x, y)
  {
    assert W.NoWork(true) !in At(w.reply, x, y);
  }

  lemma NothingToHear(cfg: Config, s: State, p: nat, step: W.WorkStep)
    requires NoAlarm(cfg, s) && WorkEnabled(cfg, s, p, step)
    ensures !HearsAbort(cfg, s, p, step)
  {
    if step.DoHearNo? {
      var src := s.work.desks[p].source;
      assert W.DeskOk(cfg.n, s.work, p);
      assert At(s.work.reply, src, p)[0] in At(s.work.reply, src, p);
      assert W.NoWork(true) !in At(s.work.reply, src, p);
    }
  }

  lemma WorkStaysQuiet(cfg: Config, s: State, p: nat, step: W.WorkStep)
    requires NoAlarm(cfg, s) && WorkEnabled(cfg, s, p, step)
    ensures var s' := DoWork(cfg, s, p, step); s'.abort == s.abort && NoPayload(cfg.n, s'.work)
  {
    NothingToHear(cfg, s, p, step);
    var s' := DoWork(cfg, s, p, step);
    forall x: nat, y: nat | x < cfg.n && y < cfg.n ensures W.NoWork(true) !in At(s'.work.reply, x, y) {
      RepliesStayQuiet(cfg.n, s.work, p, step, x, y);
    }
  }

  lemma StepStaysQuiet(cfg: Config, s: State, step: Step, t: State)
    requires NoAlarm(cfg, s) && Takes(cfg, s, step, t) && !(step.OnAbort? && step.abort.UserAbort?)
    ensures NoAlarm(cfg, t)
  {
    TakesKeepsInv(cfg, s, step, t);
    if step.OnWork? {
      WorkStaysQuiet(cfg, s, step.x, step.work);
    } else if step.OnAbort? {
      NobodyStirs(cfg, s.abort, step.x, step.abort);
    }
  }

  /** If no rank has aborted at first and no callback calls for an abort, no rank ever aborts. */
  lemma NoFalseAlarm(cfg: Config, run: seq<State>, steps: seq<Step>, i: nat, x: nat)
    requires Run(cfg, run, steps) && Initial(cfg, run[0]) && i <= |steps| && x < cfg.n
    requires forall y: nat | y < cfg.n :: !Aborted(cfg, run[0], y)
    requires forall j | 0 <= j < |steps| :: !(steps[j].OnAbort? && steps[j].abort.UserAbort?)
    ensures Shape(cfg, run[i]) && !Aborted(cfg, run[i], x)
  {
    InitialInv(cfg, run[0]);
    forall y: nat | y < cfg.n ensures !run[0].abort.alarms[y].flag {
      assert !Aborted(cfg, run[0], y);
    }
    var quiet := (s: State) => NoAlarm(cfg, s);
    var others := (step: Step) => !(step.OnAbort? && step.abort.UserAbort?);
    forall a: State, step: Step, b: State | quiet(a) && others(step) && Takes(cfg, a, step, b) ensures quiet(b) {
      StepStaysQuiet(cfg, a, step, b);
    }
    KeptFrom(cfg, run, steps, others, quiet, 0, i);
  }
}
