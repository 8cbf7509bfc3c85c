/** The inductive invariant of the protocol. */
module Invariant {
  import opened Channels
  import opened Tree
  import H = Handshake
  import W = WorkTransfer
  import A = AbortSignal
  import R = BackgroundReduce
  import opened Termination
  import opened Barrier
  import opened Protocol

  /** Each component keeps its own invariant. */
  ghost predicate Parts(cfg: Config, s: State) {
    && Shape(cfg, s)
    && W.Inv(cfg.n, s.work)
    && H.Inv(cfg, s.term.nodes, s.term.chan)
    && H.Inv(cfg, s.barrier.nodes, s.barrier.chan)
    && A.Inv(cfg, s.abort)
    && R.Inv(cfg, s.reduce)
  }

  // ----- termination -----

  /** Rank `x` has sent to its parent in the round the root is in. */
  ghost predicate Contributed(cfg: Config, s: State, x: nat)
    requires Shape(cfg, s) && x < cfg.n
  {
    x >= 1 && s.term.nodes[x].up && s.term.nodes[x].round == s.term.nodes[0].round
  }

  /** Rank `x` has items to process, or has sent some that nobody has acknowledged. */
  ghost predicate Owing(cfg: Config, s: State, x: nat)
    requires Shape(cfg, s) && x < cfg.n
  {
    Active(cfg, s, x) || s.work.desks[x].outstanding > 0
  }

  /** The 0 that `x` has sent to its parent is in flight. */
  ghost predicate ZeroRising(cfg: Config, s: State, x: nat)
    requires Shape(cfg, s) && x < cfg.n
  {
    x >= 1 && H.Phase(cfg, s.term.nodes, s.term.chan, x) == H.Rising
    && At(s.term.chan, x, Parent(cfg, x)) == [false]
  }

  /** A reason why the current round cannot yield 1. */
  ghost predicate Objects(cfg: Config, s: State, y: nat)
    requires Shape(cfg, s) && y < cfg.n
  {
    || (!Contributed(cfg, s, y) && (s.work.desks[y].outstanding > 0 || !s.term.flags[y]))
    || ZeroRising(cfg, s, y)
  }

  /** If a rank that has contributed to the current round is owing, some rank objects. */
  ghost predicate Covered(cfg: Config, s: State)
    requires Shape(cfg, s)
  {
    (exists x: nat :: x < cfg.n && Contributed(cfg, s, x) && Owing(cfg, s, x)) ==>
      exists y: nat :: y < cfg.n && Objects(cfg, s, y)
  }

  /** No rank owes anything: the work is done, or left to the checkpoints of aborted ranks. */
  ghost predicate Quiet(cfg: Config, s: State)
    requires Shape(cfg, s)
  {
    forall x: nat | x < cfg.n :: !Owing(cfg, s, x)
  }

  /** A rank leaves the main loop only when no rank is owing, and none owes again. */
  ghost predicate LeftMeansQuiet(cfg: Config, s: State)
    requires Shape(cfg, s)
  {
    (exists p: nat :: p < cfg.n && s.phase[p] != Working) ==> Quiet(cfg, s)
  }

  /** How the verdict travels down the edge above `c`. */
  ghost predicate VerdictOk(cfg: Config, s: State, c: nat)
    requires Shape(cfg, s) && 1 <= c < cfg.n
  {
    var p := Parent(cfg, c);
    var ph := H.Phase(cfg, s.term.nodes, s.term.chan, c);
    if s.phase[p] == Working then
      s.phase[c] == Working && (ph == H.Falling ==> At(s.term.chan, p, c) == [false])
    else if s.phase[c] == Working then
      ph == H.Falling && At(s.term.chan, p, c) == [true]
    else
      ph == H.Waiting
  }

  ghost predicate Verdicts(cfg: Config, s: State)
    requires Shape(cfg, s)
  {
    forall c: nat | 1 <= c < cfg.n :: VerdictOk(cfg, s, c)
  }

  // ----- cleanup -----

  ghost predicate HasStarted(cfg: Config, s: State, x: nat)
    requires Shape(cfg, s) && x < cfg.n
  {
    s.barrier.started[x] || s.phase[x] == Finished
  }

  ghost predicate BarrierOk(cfg: Config, s: State, x: nat)
    requires Shape(cfg, s) && x < cfg.n
  {
    && s.barrier.nodes[x].round == (if s.phase[x] == Finished then 1 else 0)
    && (s.barrier.nodes[x].up ==> s.barrier.started[x])
    && (s.barrier.started[x] ==> s.phase[x] == Cleanup)
    && (HasStarted(cfg, s, x) ==> NothingPending(cfg, s, x))
  }

  ghost predicate Barriers(cfg: Config, s: State)
    requires Shape(cfg, s)
  {
    forall x: nat | x < cfg.n :: BarrierOk(cfg, s, x)
  }

  ghost predicate FinishedMeansAllStarted(cfg: Config, s: State)
    requires Shape(cfg, s)
  {
    (exists p: nat :: p < cfg.n && s.phase[p] == Finished) ==>
      forall x: nat | x < cfg.n :: HasStarted(cfg, s, x)
  }

  ghost predicate Inv(cfg: Config, s: State) {
    && Parts(cfg, s)
    && Verdicts(cfg, s)
    && Covered(cfg, s)
    && LeftMeansQuiet(cfg, s)
    && Barriers(cfg, s)
    && FinishedMeansAllStarted(cfg, s)
  }

  // ----- the invariant holds initially -----

  lemma InitialInv(cfg: Config, s: State)
    requires Initial(cfg, s)
    ensures Inv(cfg, s)
  {
    W.InitialInv(cfg.n, s.work);
    H.InitialInv(cfg, s.term.nodes, s.term.chan);
    H.InitialInv(cfg, s.barrier.nodes, s.barrier.chan);
    A.InitialInv(cfg, s.abort);
    R.InitialInv(cfg, s.reduce);
  }

  // ----- each component -----

  lemma WorkPart(cfg: Config, s: State, x: nat, step: W.WorkStep)
    requires Parts(cfg, s) && WorkEnabled(cfg, s, x, step)
    ensures W.Inv(cfg.n, WorkAfter(cfg, s, x, step))
  {
    match step
    case DoAsk(to) => W.AskKeepsInv(cfg.n, s.work, x, to);
    case DoHearNo => W.HearNoKeepsInv(cfg.n, s.work, x);
    case DoReceive => W.ReceiveKeepsInv(cfg.n, s.work, x);
    case DoDrain(from) => W.DrainKeepsInv(cfg.n, s.work, x, from);
    case DoRefuse => W.RefuseKeepsInv(cfg.n, s.work, x, Aborted(cfg, s, x));
    case DoShare(m) => W.ShareKeepsInv(cfg.n, s.work, x, m);
    case DoSettle(from) => W.SettleKeepsInv(cfg.n, s.work, x, from);
    case DoProcess(ops) => W.ProcessKeepsInv(cfg.n, s.work, x, ops);
  }

  lemma AbortPart(cfg: Config, s: State, x: nat, step: A.AbortStep)
    requires Parts(cfg, s) && AbortEnabled(cfg, s, x, step)
    ensures A.Inv(cfg, AbortAfter(cfg, s, x, step))
  {
    match step
    case UserAbort => A.LocalKeepsInv(cfg, s.abort, x, A.SetFlag(s.abort.alarms[x]));
    case AbortStart => A.StartKeepsInv(cfg, s.abort, x, s.phase[x] == Cleanup);
    case AbortHear(from) => A.HearKeepsInv(cfg, s.abort, x, from, s.phase[x] == Cleanup);
    case AbortMatch(from) => A.MatchKeepsInv(cfg, s.abort, x, from);
    case AbortTest => A.LocalKeepsInv(cfg, s.abort, x, A.Tested(s.abort.alarms[x]));
  }

  lemma ReducePart(cfg: Config, s: State, x: nat, step: R.ReduceStep)
    requires Parts(cfg, s) && ReduceEnabled(cfg, s, x, step)
    ensures R.Inv(cfg, ReduceAfter(cfg, s, x, step))
  {
    R.StepKeepsInv(cfg, s.reduce, x, step);
  }

  lemma TermPart(cfg: Config, s: State, x: nat, step: TermStep)
    requires Parts(cfg, s) && TermEnabled(cfg, s, x, step)
    ensures var t := TermAfter(cfg, s, x, step); H.Inv(cfg, t.nodes, t.chan)
  {
    var t := s.term;
    match step
    case TermCount(from) => H.CountKeepsInv(cfg, t.nodes, t.chan, x, from);
    case TermRaise => H.RaiseKeepsInv(cfg, t.nodes, t.chan, x, t.flags[x]);
    case TermRoot => H.ScatterKeepsInv(cfg, t.nodes, t.chan, 0, t.chan, t.flags[0]);
    case TermFall =>
      var p := Parent(cfg, x);
      assert H.NodeOk(cfg, t.nodes, t.chan, x);
      H.ScatterKeepsInv(cfg, t.nodes, t.chan, x, Take(t.chan, p, x), At(t.chan, p, x)[0]);
  }

  lemma BarrierPart(cfg: Config, s: State, x: nat, step: BarrierStep)
    requires Parts(cfg, s) && BarrierEnabled(cfg, s, x, step)
    ensures var b := BarrierAfter(cfg, s, x, step); H.Inv(cfg, b.nodes, b.chan)
  {
    var b := s.barrier;
    match step
    case BarrierStart =>
    case BarrierCount(from) => H.CountKeepsInv(cfg, b.nodes, b.chan, x, from);
    case BarrierRaise => H.RaiseKeepsInv(cfg, b.nodes, b.chan, x, ());
    case BarrierRoot => H.ScatterKeepsInv(cfg, b.nodes, b.chan, 0, b.chan, ());
    case BarrierFall =>
      assert H.NodeOk(cfg, b.nodes, b.chan, x);
      H.ScatterKeepsInv(cfg, b.nodes, b.chan, x, Take(b.chan, Parent(cfg, x), x), ());
  }

  lemma PartsKept(cfg: Config, s: State, step: Step)
    requires Parts(cfg, s) && Enabled(cfg, s, step)
    ensures Parts(cfg, Apply(cfg, s, step))
  {
    match step
    case OnWork(x, a) =>
      WorkPart(cfg, s, x, a);
      A.LocalKeepsInv(cfg, s.abort, x, A.SetFlag(s.abort.alarms[x]));
    case OnAbort(x, a) => AbortPart(cfg, s, x, a);
    case OnReduce(x, a) => ReducePart(cfg, s, x, a);
    case OnTerm(x, a) => TermPart(cfg, s, x, a);
    case OnBarrier(x, a) => BarrierPart(cfg, s, x, a);
  }

  // ----- frames -----

  /** Only a receive makes a rank owe, and an account is reduced by a receipt only. */
  lemma WorkOwing(cfg: Config, s: State, x: nat, step: W.WorkStep, z: nat)
    requires Shape(cfg, s) && WorkEnabled(cfg, s, x, step) && !step.DoReceive? && z < cfg.n
    ensures var s' := DoWork(cfg, s, x, step);
            && (Owing(cfg, s', z) ==> Owing(cfg, s, z))
            && (s.work.desks[z].outstanding > 0 ==> s'.work.desks[z].outstanding > 0 || (step.DoSettle? && x == z))
  {
  }

  /** An abort flag is never lowered. */
  lemma AbortOwing(cfg: Config, s: State, x: nat, step: A.AbortStep, z: nat)
    requires Shape(cfg, s) && AbortEnabled(cfg, s, x, step) && z < cfg.n
    ensures s.abort.alarms[z].flag ==> AbortAfter(cfg, s, x, step).alarms[z].flag
  {
  }

  lemma StillNotAsking(n: nat, w: W.Sys, x: nat, step: W.WorkStep, abort: bool, z: nat)
    requires |w.desks| == n && W.CanWork(n, w, x, step) && (step.DoAsk? ==> x != z)
    requires z < n && !w.desks[z].requested
    ensures !W.WorkNext(n, w, x, step, abort).desks[z].requested
  {
  }

  lemma StillNotSignalling(cfg: Config, a: A.Sys, x: nat, step: A.AbortStep, cleanup: bool, z: nat)
    requires A.Shape(cfg, a) && A.CanAbort(cfg, a, x, step) && (x == z ==> cleanup)
    requires z < cfg.n && !a.alarms[z].outstanding
    ensures !A.AbortNext(cfg, a, x, step, cleanup).alarms[z].outstanding
  {
  }

  lemma StillNotReducing(cfg: Config, r: R.Sys, x: nat, step: R.ReduceStep, z: nat)
    requires R.Shape(cfg, r) && R.CanReduce(cfg, r, x, step) && (step.ReduceStart? ==> x != z)
    requires z < cfg.n && !r.ranks[z].outstanding
    ensures !R.ReduceNext(cfg, r, x, step).ranks[z].outstanding
  {
  }

  /** A rank past the main loop starts nothing that it would have to wait for. */
  lemma StillNothingPending(cfg: Config, s: State, step: Step, z: nat)
    requires Shape(cfg, s) && Enabled(cfg, s, step) && z < cfg.n
    requires s.phase[z] != Working && NothingPending(cfg, s, z)
    ensures NothingPending(cfg, Apply(cfg, s, step), z)
  {
    match step
    case OnWork(x, a) => StillNotAsking(cfg.n, s.work, x, a, Aborted(cfg, s, x), z);
    case OnAbort(x, a) => StillNotSignalling(cfg, s.abort, x, a, s.phase[x] == Cleanup, z);
    case OnReduce(x, a) => StillNotReducing(cfg, s.reduce, x, a, z);
    case OnTerm(x, a) =>
    case OnBarrier(x, a) =>
  }

  // ----- a contributed rank that owes is covered by an objection -----

  ghost predicate SomeoneObjects(cfg: Config, s: State)
    requires Shape(cfg, s)
  {
    exists y: nat :: y < cfg.n && Objects(cfg, s, y)
  }

  /** It is enough that no contributed rank starts to owe unless someone objects, and that
      objections do not disappear. */
  lemma CoveredFrom(cfg: Config, s: State, s': State)
    requires Shape(cfg, s) && Shape(cfg, s') && Covered(cfg, s)
    requires forall x: nat | x < cfg.n && Contributed(cfg, s', x) && Owing(cfg, s', x) ::
               (Contributed(cfg, s, x) && Owing(cfg, s, x)) || SomeoneObjects(cfg, s)
    requires SomeoneObjects(cfg, s) ==> SomeoneObjects(cfg, s')
    ensures Covered(cfg, s')
  {
  }

  lemma CoveredSame(cfg: Config, s: State, s': State)
    requires Shape(cfg, s) && Shape(cfg, s') && Covered(cfg, s)
    requires s'.term.nodes == s.term.nodes && s'.term.chan == s.term.chan
    requires forall x: nat | x < cfg.n ::
               && (Owing(cfg, s', x) ==> Owing(cfg, s, x))
               && (s.work.desks[x].outstanding > 0 || !s.term.flags[x] ==>
                     s'.work.desks[x].outstanding > 0 || !s'.term.flags[x])
    ensures Covered(cfg, s')
  {
    if y: nat :| y < cfg.n && Objects(cfg, s, y) {
      assert Objects(cfg, s', y);
    }
    CoveredFrom(cfg, s, s');
  }

  /** Items and receipts in flight are on their sender's account. */
  lemma InFlightIsOutstanding(cfg: Config, s: State, x: nat, y: nat)
    requires Parts(cfg, s) && x < cfg.n && y < cfg.n
    requires |At(s.work.reply, x, y)| >= 2 || At(s.work.receipt, y, x) != []
    ensures s.work.desks[x].outstanding > 0
  {
    assert W.TallyOk(cfg.n, s.work, x);
    assert W.PairOk(s.work, x, y);
    W.TallyCovers(s.work.reply, s.work.receipt, x, cfg.n, y);
  }

  lemma ReceiveCovered(cfg: Config, s: State, y: nat)
    requires Parts(cfg, s) && Covered(cfg, s) && WorkEnabled(cfg, s, y, W.DoReceive)
    ensures Covered(cfg, DoWork(cfg, s, y, W.DoReceive))
  {
    var s' := DoWork(cfg, s, y, W.DoReceive);
    var x := s.work.desks[y].source;
    assert W.DeskOk(cfg.n, s.work, y);
    InFlightIsOutstanding(cfg, s, x, y);
    assert Objects(cfg, s, x) || (Contributed(cfg, s, x) && Owing(cfg, s, x));
    if z: nat :| z < cfg.n && Objects(cfg, s, z) {
      assert Objects(cfg, s', z);
    }
    CoveredFrom(cfg, s, s');
  }

  lemma WorkCovered(cfg: Config, s: State, x: nat, step: W.WorkStep)
    requires Parts(cfg, s) && Covered(cfg, s) && WorkEnabled(cfg, s, x, step)
    ensures Covered(cfg, DoWork(cfg, s, x, step))
  {
    if step.DoReceive? {
      ReceiveCovered(cfg, s, x);
    } else {
      forall z: nat | z < cfg.n
        ensures Owing(cfg, DoWork(cfg, s, x, step), z) ==> Owing(cfg, s, z)
        ensures s.work.desks[z].outstanding > 0 ==>
                  DoWork(cfg, s, x, step).work.desks[z].outstanding > 0 || (step.DoSettle? && x == z)
      {
        WorkOwing(cfg, s, x, step, z);
      }
      CoveredSame(cfg, s, DoWork(cfg, s, x, step));
    }
  }

  lemma TermCountCovered(cfg: Config, s: State, x: nat, c: nat)
    requires Parts(cfg, s) && Covered(cfg, s) && TermEnabled(cfg, s, x, TermCount(c))
    ensures Covered(cfg, DoTerm(cfg, s, x, TermCount(c)))
  {
    var s' := DoTerm(cfg, s, x, TermCount(c));
    H.CountsChild(cfg, s.term.nodes, s.term.chan, x, c);
    if z: nat :| z < cfg.n && Objects(cfg, s, z) {
      if z == c && ZeroRising(cfg, s, c) {
        assert Objects(cfg, s', x);
      } else {
        assert Objects(cfg, s', z);
      }
    }
    CoveredFrom(cfg, s, s');
  }

  lemma TermRaiseCovered(cfg: Config, s: State, x: nat)
    requires Parts(cfg, s) && Covered(cfg, s) && TermEnabled(cfg, s, x, TermRaise)
    ensures Covered(cfg, DoTerm(cfg, s, x, TermRaise))
  {
    var s' := DoTerm(cfg, s, x, TermRaise);
    H.NotUpIsCurrent(cfg, s.term.nodes, s.term.chan, x);
    assert H.EdgeOk(cfg, s.term.nodes, s.term.chan, x);
    if z: nat :| z < cfg.n && Objects(cfg, s, z) {
      assert z >= 1 ==> H.EdgeOk(cfg, s.term.nodes, s.term.chan, z);
      assert Objects(cfg, s', z);
    }
    CoveredFrom(cfg, s, s');
  }

  lemma TermRootCovered(cfg: Config, s: State)
    requires Parts(cfg, s) && TermEnabled(cfg, s, 0, TermRoot)
    ensures Covered(cfg, DoTerm(cfg, s, 0, TermRoot))
  {
    forall x: nat | x < cfg.n ensures !Contributed(cfg, DoTerm(cfg, s, 0, TermRoot), x) {
      H.RoundsNearRoot(cfg, s.term.nodes, s.term.chan, x);
    }
  }

  /** An answer that arrives takes away no reason. */
  lemma FallObjects(cfg: Config, s: State, x: nat, z: nat)
    requires Parts(cfg, s) && TermEnabled(cfg, s, x, TermFall) && z < cfg.n && Objects(cfg, s, z)
    ensures Objects(cfg, DoTerm(cfg, s, x, TermFall), z)
  {
    var t, p := s.term, Parent(cfg, x);
    H.RoundsNearRoot(cfg, t.nodes, t.chan, p);
    assert H.EdgeOk(cfg, t.nodes, t.chan, x);
    if ZeroRising(cfg, s, z) {
      assert H.NodeOk(cfg, t.nodes, t.chan, x);
      assert H.EdgeOk(cfg, t.nodes, t.chan, z);
      H.ScatterEdge(cfg, t.nodes, t.chan, x, Take(t.chan, p, x), At(t.chan, p, x)[0], z);
      if z in Kids(cfg, x) {
        H.UpMeansCounted(cfg, t.nodes, t.chan, x, z);
      }
    }
  }

  lemma TermFallCovered(cfg: Config, s: State, x: nat)
    requires Parts(cfg, s) && Covered(cfg, s) && TermEnabled(cfg, s, x, TermFall)
    ensures Covered(cfg, DoTerm(cfg, s, x, TermFall))
  {
    var t, s' := s.term, DoTerm(cfg, s, x, TermFall);
    assert s'.term.nodes[0] == t.nodes[0] && s'.term.nodes[x].up == false;
    if z: nat :| z < cfg.n && Objects(cfg, s, z) {
      FallObjects(cfg, s, x, z);
    }
    CoveredFrom(cfg, s, s');
  }

  lemma TermCovered(cfg: Config, s: State, x: nat, step: TermStep)
    requires Parts(cfg, s) && Covered(cfg, s) && TermEnabled(cfg, s, x, step)
    ensures Covered(cfg, DoTerm(cfg, s, x, step))
  {
    match step
    case TermCount(c) => TermCountCovered(cfg, s, x, c);
    case TermRaise => TermRaiseCovered(cfg, s, x);
    case TermRoot => TermRootCovered(cfg, s);
    case TermFall => TermFallCovered(cfg, s, x);
  }

  lemma CoveredKept(cfg: Config, s: State, step: Step)
    requires Parts(cfg, s) && Covered(cfg, s) && Enabled(cfg, s, step)
    ensures Covered(cfg, Apply(cfg, s, step))
  {
    match step
    case OnWork(x, a) => WorkCovered(cfg, s, x, a);
    case OnAbort(x, a) =>
      forall z: nat | z < cfg.n ensures s.abort.alarms[z].flag ==> AbortAfter(cfg, s, x, a).alarms[z].flag {
        AbortOwing(cfg, s, x, a, z);
      }
      CoveredSame(cfg, s, Apply(cfg, s, step));
    case OnReduce(x, a) => CoveredSame(cfg, s, Apply(cfg, s, step));
    case OnTerm(x, a) => TermCovered(cfg, s, x, a);
    case OnBarrier(x, a) => CoveredSame(cfg, s, Apply(cfg, s, step));
  }

  // ----- the verdict -----

  lemma VerdictSame(cfg: Config, s: State, s': State)
    requires Shape(cfg, s) && Shape(cfg, s') && Verdicts(cfg, s)
    requires s'.term.nodes == s.term.nodes && s'.term.chan == s.term.chan
    requires forall x: nat | x < cfg.n :: s'.phase[x] == Working <==> s.phase[x] == Working
    ensures Verdicts(cfg, s')
  {
    forall c: nat | 1 <= c < cfg.n ensures VerdictOk(cfg, s', c) {
      assert VerdictOk(cfg, s, c);
    }
  }

  lemma TermCountVerdict(cfg: Config, s: State, x: nat, y: nat, c: nat)
    requires Parts(cfg, s) && Verdicts(cfg, s) && TermEnabled(cfg, s, x, TermCount(y)) && 1 <= c < cfg.n
    ensures VerdictOk(cfg, DoTerm(cfg, s, x, TermCount(y)), c)
  {
    H.CountsChild(cfg, s.term.nodes, s.term.chan, x, y);
    assert VerdictOk(cfg, s, c) && VerdictOk(cfg, s, y);
  }

  lemma TermRaiseVerdict(cfg: Config, s: State, x: nat, c: nat)
    requires Parts(cfg, s) && Verdicts(cfg, s) && TermEnabled(cfg, s, x, TermRaise) && 1 <= c < cfg.n
    ensures VerdictOk(cfg, DoTerm(cfg, s, x, TermRaise), c)
  {
    assert VerdictOk(cfg, s, c) && VerdictOk(cfg, s, x);
    assert H.EdgeOk(cfg, s.term.nodes, s.term.chan, x);
  }

  lemma TermRootVerdict(cfg: Config, s: State, c: nat)
    requires Parts(cfg, s) && Verdicts(cfg, s) && TermEnabled(cfg, s, 0, TermRoot) && 1 <= c < cfg.n
    ensures VerdictOk(cfg, DoTerm(cfg, s, 0, TermRoot), c)
  {
    assert VerdictOk(cfg, s, c);
    assert H.EdgeOk(cfg, s.term.nodes, s.term.chan, c);
    H.ScatterEdge(cfg, s.term.nodes, s.term.chan, 0, s.term.chan, s.term.flags[0], c);
    H.RootReadyMeansAllCounted(cfg, s.term.nodes, s.term.chan, c);
  }

  lemma TermFallVerdict(cfg: Config, s: State, x: nat, c: nat)
    requires Parts(cfg, s) && Verdicts(cfg, s) && TermEnabled(cfg, s, x, TermFall) && 1 <= c < cfg.n
    ensures VerdictOk(cfg, DoTerm(cfg, s, x, TermFall), c)
  {
    var t, p := s.term, Parent(cfg, x);
    FallEdge(cfg, t, x, c);
    assert VerdictOk(cfg, s, c) && VerdictOk(cfg, s, x);
    assert H.EdgeOk(cfg, t.nodes, t.chan, x);
  }

  /** What an answer that arrives at `x` does to the edge above `c`. */
  lemma FallEdge(cfg: Config, t: TermSys, x: nat, c: nat)
    requires TermShape(cfg, t) && H.Inv(cfg, t.nodes, t.chan) && CanTerm(cfg, t, x, TermFall) && 1 <= c < cfg.n
    ensures var t' := TermNext(cfg, t, x, TermFall); var p := Parent(cfg, c);
            && H.Phase(cfg, t'.nodes, t'.chan, c) ==
               (if c in Kids(cfg, x) then H.Falling else if c == x then H.Waiting else H.Phase(cfg, t.nodes, t.chan, c))
            && (c in Kids(cfg, x) ==> At(t'.chan, p, c) == [At(t.chan, Parent(cfg, x), x)[0]]
                                      && H.Phase(cfg, t.nodes, t.chan, c) == H.Counted)
            && (c !in Kids(cfg, x) && c != x ==> At(t'.chan, p, c) == At(t.chan, p, c))
  {
    assert H.EdgeOk(cfg, t.nodes, t.chan, x) && H.NodeOk(cfg, t.nodes, t.chan, x);
    assert H.EdgeOk(cfg, t.nodes, t.chan, c);
    H.ScatterEdge(cfg, t.nodes, t.chan, x, Take(t.chan, Parent(cfg, x), x), At(t.chan, Parent(cfg, x), x)[0], c);
    if c in Kids(cfg, x) {
      H.UpMeansCounted(cfg, t.nodes, t.chan, x, c);
    }
  }

  lemma TermVerdicts(cfg: Config, s: State, x: nat, step: TermStep)
    requires Parts(cfg, s) && Verdicts(cfg, s) && TermEnabled(cfg, s, x, step)
    ensures Verdicts(cfg, DoTerm(cfg, s, x, step))
  {
    forall c: nat | 1 <= c < cfg.n ensures VerdictOk(cfg, DoTerm(cfg, s, x, step), c) {
      match step
      case TermCount(y) => TermCountVerdict(cfg, s, x, y, c);
      case TermRaise => TermRaiseVerdict(cfg, s, x, c);
      case TermRoot => TermRootVerdict(cfg, s, c);
      case TermFall => TermFallVerdict(cfg, s, x, c);
    }
  }

  lemma VerdictsKept(cfg: Config, s: State, step: Step)
    requires Parts(cfg, s) && Verdicts(cfg, s) && Enabled(cfg, s, step)
    ensures Verdicts(cfg, Apply(cfg, s, step))
  {
    if step.OnTerm? {
      TermVerdicts(cfg, s, step.x, step.term);
    } else {
      VerdictSame(cfg, s, Apply(cfg, s, step));
    }
  }

  // ----- quiet -----

  /** When no rank is owing, none receives items. */
  lemma QuietMeansNoReceive(cfg: Config, s: State, y: nat)
    requires Parts(cfg, s) && Quiet(cfg, s) && y < cfg.n
    ensures !WorkEnabled(cfg, s, y, W.DoReceive)
  {
    if WorkEnabled(cfg, s, y, W.DoReceive) {
      var x := s.work.desks[y].source;
      assert W.DeskOk(cfg.n, s.work, y);
      assert !Owing(cfg, s, x);
      InFlightIsOutstanding(cfg, s, x, y);
    }
  }

  lemma QuietKept(cfg: Config, s: State, step: Step)
    requires Parts(cfg, s) && Quiet(cfg, s) && Enabled(cfg, s, step)
    ensures Quiet(cfg, Apply(cfg, s, step))
  {
    forall z: nat | z < cfg.n ensures !Owing(cfg, Apply(cfg, s, step), z) {
      assert !Owing(cfg, s, z);
      match step
      case OnWork(x, a) =>
        QuietMeansNoReceive(cfg, s, x);
        WorkOwing(cfg, s, x, a, z);
      case OnAbort(x, a) => AbortOwing(cfg, s, x, a, z);
      case OnReduce(x, a) =>
      case OnTerm(x, a) =>
      case OnBarrier(x, a) =>
    }
  }

  /** The headline argument: at the moment the root finds 1, no rank is owing. */
  lemma VerdictMeansQuiet(cfg: Config, s: State)
    requires Parts(cfg, s) && Covered(cfg, s) && TermEnabled(cfg, s, 0, TermRoot) && s.term.flags[0]
    ensures Quiet(cfg, s)
  {
    forall x: nat | 1 <= x < cfg.n ensures Contributed(cfg, s, x) && !ZeroRising(cfg, s, x) {
      H.RootReadyMeansAllCounted(cfg, s.term.nodes, s.term.chan, x);
    }
    assert forall y: nat | y < cfg.n :: !Objects(cfg, s, y);
    forall x: nat | x < cfg.n ensures !Owing(cfg, s, x) {
      assert x >= 1 ==> Contributed(cfg, s, x);
    }
  }

  /** A rank gets 1 from its parent only after the parent has left the main loop. */
  lemma FallsFromLeaver(cfg: Config, s: State, x: nat)
    requires Parts(cfg, s) && Verdicts(cfg, s) && TermEnabled(cfg, s, x, TermFall) && Concludes(cfg, s, x, TermFall)
    ensures s.phase[Parent(cfg, x)] != Working
  {
    assert VerdictOk(cfg, s, x);
    assert H.EdgeOk(cfg, s.term.nodes, s.term.chan, x);
  }

  lemma LeftMeansQuietKept(cfg: Config, s: State, step: Step)
    requires Parts(cfg, s) && Verdicts(cfg, s) && Covered(cfg, s) && LeftMeansQuiet(cfg, s) && Enabled(cfg, s, step)
    ensures LeftMeansQuiet(cfg, Apply(cfg, s, step))
  {
    if step.OnTerm? && Concludes(cfg, s, step.x, step.term) {
      if step.term.TermRoot? {
        VerdictMeansQuiet(cfg, s);
      } else {
        FallsFromLeaver(cfg, s, step.x);
      }
      QuietKept(cfg, s, step);
    } else if p: nat :| p < cfg.n && s.phase[p] != Working {
      QuietKept(cfg, s, step);
    } else {
      assert forall p: nat | p < cfg.n :: Apply(cfg, s, step).phase[p] == Working;
    }
  }

  // ----- the barrier -----

  lemma BarrierStepOk(cfg: Config, s: State, x: nat, step: BarrierStep, z: nat)
    requires Parts(cfg, s) && Barriers(cfg, s) && BarrierEnabled(cfg, s, x, step) && z < cfg.n
    ensures BarrierOk(cfg, DoBarrier(cfg, s, x, step), z)
  {
    assert BarrierOk(cfg, s, z);
  }

  lemma BarriersKept(cfg: Config, s: State, step: Step)
    requires Parts(cfg, s) && Barriers(cfg, s) && Enabled(cfg, s, step)
    ensures Barriers(cfg, Apply(cfg, s, step))
  {
    forall z: nat | z < cfg.n ensures BarrierOk(cfg, Apply(cfg, s, step), z) {
      assert BarrierOk(cfg, s, z);
      if step.OnBarrier? {
        BarrierStepOk(cfg, s, step.x, step.barrier, z);
      } else if HasStarted(cfg, s, z) {
        StillNothingPending(cfg, s, step, z);
      }
    }
  }

  /** The first rank to finish is the root, and it finishes when every rank has started. */
  lemma FinisherSeesAllStarted(cfg: Config, s: State, x: nat, step: BarrierStep)
    requires Parts(cfg, s) && Barriers(cfg, s) && FinishedMeansAllStarted(cfg, s)
    requires BarrierEnabled(cfg, s, x, step) && (step.BarrierRoot? || step.BarrierFall?)
    ensures forall z: nat | z < cfg.n :: HasStarted(cfg, s, z)
  {
    if step.BarrierRoot? {
      forall z: nat | 1 <= z < cfg.n ensures HasStarted(cfg, s, z) {
        H.RootReadyMeansAllCounted(cfg, s.barrier.nodes, s.barrier.chan, z);
        assert BarrierOk(cfg, s, z);
      }
    } else {
      assert H.EdgeOk(cfg, s.barrier.nodes, s.barrier.chan, x);
      assert BarrierOk(cfg, s, Parent(cfg, x));
      assert s.phase[Parent(cfg, x)] == Finished;
    }
  }

  lemma StartedStays(cfg: Config, s: State, step: Step, z: nat)
    requires Shape(cfg, s) && Barriers(cfg, s) && Enabled(cfg, s, step) && z < cfg.n && HasStarted(cfg, s, z)
    ensures HasStarted(cfg, Apply(cfg, s, step), z)
  {
    assert BarrierOk(cfg, s, z);
  }

  lemma FinishedKept(cfg: Config, s: State, step: Step)
    requires Parts(cfg, s) && Barriers(cfg, s) && FinishedMeansAllStarted(cfg, s) && Enabled(cfg, s, step)
    ensures FinishedMeansAllStarted(cfg, Apply(cfg, s, step))
  {
    var s' := Apply(cfg, s, step);
    if step.OnBarrier? && (step.barrier.BarrierRoot? || step.barrier.BarrierFall?) {
      FinisherSeesAllStarted(cfg, s, step.x, step.barrier);
    } else {
      assert forall p: nat | p < cfg.n && s'.phase[p] == Finished :: s.phase[p] == Finished;
    }
    forall z: nat | z < cfg.n && HasStarted(cfg, s, z) ensures HasStarted(cfg, s', z) {
      StartedStays(cfg, s, step, z);
    }
  }

  // ----- all together -----

  lemma InvKept(cfg: Config, s: State, step: Step)
    requires Inv(cfg, s) && Enabled(cfg, s, step)
    ensures Inv(cfg, Apply(cfg, s, step))
  {
    PartsKept(cfg, s, step);
    VerdictsKept(cfg, s, step);
    CoveredKept(cfg, s, step);
    LeftMeansQuietKept(cfg, s, step);
    BarriersKept(cfg, s, step);
    FinishedKept(cfg, s, step);
  }

  lemma TakesKeepsInv(cfg: Config, s: State, step: Step, s': State)
    requires Inv(cfg, s) && Takes(cfg, s, step, s')
    ensures Inv(cfg, s')
  {
    InvKept(cfg, s, step);
  }

  lemma {:induction false} RunKeepsInv(cfg: Config, run: seq<State>, steps: seq<Step>, i: nat)
    requires Run(cfg, run, steps) && Inv(cfg, run[0]) && i <= |steps|
    ensures Inv(cfg, run[i])
  {
    if i > 0 {
      var before, step, after := run[i - 1], steps[i - 1], run[i];
      assert StepAt(cfg, run, steps, i - 1);
      RunKeepsInv(cfg, run, steps, i - 1);
      TakesKeepsInv(cfg, before, step, after);
    }
  }

  lemma ReachableInv(cfg: Config, s: State)
    requires Reachable(cfg, s)
    ensures Inv(cfg, s)
  {
    var run: seq<State>, steps: seq<Step> :| Run(cfg, run, steps) && Initial(cfg, run[0]) && run[|steps|] == s;
    InitialInv(cfg, run[0]);
    RunKeepsInv(cfg, run, steps, |steps|);
  }
}
