/** A pass through the cleanup loop in which nothing stays unnoticed clears something up, if the rank can:
    what the code does makes the progress that the protocol allows. */
module CleanupDiligence {
  import opened Channels
  import opened Tree
  import W = WorkTransfer
  import A = AbortSignal
  import R = BackgroundReduce
  import B = BarrierRank
  import AR = AbortRank
  import opened Barrier
  import opened Protocol
  import opened Invariant
  import opened Moves
  import opened Lift
  import opened CleanupLoad
  import opened CleanupProgress
  import opened Interleaving
  import opened Passes
  import L = WorkLoop

  // ----- nothing has been cleared up -----

  ghost predicate SameSignals(a: A.Sys, a': A.Sys) {
    && |a'.alarms| == |a.alarms| && a'.request == a.request && a'.reply == a.reply
    && forall z: nat | z < |a.alarms| ::
         a'.alarms[z].outstanding == a.alarms[z].outstanding && a'.alarms[z].awaiting == a.alarms[z].awaiting
  }

  /** Nothing has changed but abort flags. */
  ghost predicate Still(cfg: Config, s: State, t: State) {
    && Shape(cfg, s) && Shape(cfg, t)
    && t.phase == s.phase && t.work == s.work && t.reduce == s.reduce && t.barrier == s.barrier
    && SameSignals(s.abort, t.abort)
  }

  lemma SignalsStay(cfg: Config, a: A.Sys, x: nat, step: A.AbortStep)
    requires A.Shape(cfg, a) && A.CanAbort(cfg, a, x, step) && !AbortClears(step)
    ensures SameSignals(a, A.AbortNext(cfg, a, x, step, true))
  {
  }

  /** A step that clears nothing up changes abort flags at most. */
  lemma StepStaysStill(cfg: Config, s: State, step: Step)
    requires Cleaning(cfg, s) && Enabled(cfg, s, step) && !Clears(s, step)
    ensures Still(cfg, s, Apply(cfg, s, step))
  {
    match step
    case OnWork(x, a) => OnlyWorkThatClears(cfg, s, x, a);
    case OnAbort(x, a) =>
      assert s.phase[x] == Cleanup;
      SignalsStay(cfg, s.abort, x, a);
    case OnReduce(x, a) => assert false;
    case OnTerm(x, a) => assert false;
    case OnBarrier(x, a) =>
      assert s.barrier.started[x := true] == s.barrier.started;
  }

  /** No burden is shed only if nothing is cleared up. */
  ghost predicate EasesOrStays(cfg: Config, s: State, t: State) {
    && Cleaning(cfg, s) && Cleaning(cfg, t)
    && (Burden(cfg, t) < Burden(cfg, s) || (Burden(cfg, t) == Burden(cfg, s) && Still(cfg, s, t)))
  }

  lemma StepEases(cfg: Config, s0: State, s: State, step: Step, t: State)
    requires EasesOrStays(cfg, s0, s) && Takes(cfg, s, step, t)
    ensures EasesOrStays(cfg, s0, t)
  {
    CleaningKept(cfg, s, step);
    if !Clears(s, step) {
      StepStaysStill(cfg, s, step);
    }
    if Burden(cfg, t) == Burden(cfg, s0) {
      StillOn(cfg, s0, s, t);
    }
  }

  lemma StillOn(cfg: Config, s0: State, s: State, t: State)
    ensures Still(cfg, s0, s) && Still(cfg, s, t) ==> Still(cfg, s0, t)
  {
  }

  lemma AtFirst(cfg: Config, s: State)
    ensures Cleaning(cfg, s) ==> EasesOrStays(cfg, s, s)
  {
  }

  lemma Eases(cfg: Config, s: State, t: State)
    requires LeadsTo(cfg, s, t) && Cleaning(cfg, s)
    ensures EasesOrStays(cfg, s, t)
  {
    AtFirst(cfg, s);
    var eases := (u: State) => EasesOrStays(cfg, s, u);
    forall a: State, step: Step, b: State | eases(a) && Takes(cfg, a, step, b) ensures eases(b) {
      StepEases(cfg, s, a, step, b);
    }
    KeptOnTheWay(cfg, s, t, eases);
  }

  // ----- a rank that can help -----

  /** Rank `x` can clear something up. */
  ghost predicate CanHelp(cfg: Config, s: State, x: nat)
    requires Shape(cfg, s)
  {
    exists step: Step :: RankOf(step) == x && Enabled(cfg, s, step) && Clears(s, step) && Prompt(cfg, s, step)
  }

  lemma StillEnabled(cfg: Config, s: State, t: State, step: Step)
    requires Still(cfg, s, t) && Enabled(cfg, s, step) && Clears(s, step)
    ensures Enabled(cfg, t, step) && Clears(t, step)
  {
  }

  /** As long as nothing is cleared up, it still can. */
  lemma HelpStays(cfg: Config, s: State, t: State, x: nat)
    requires Still(cfg, s, t) && CanHelp(cfg, s, x)
    ensures CanHelp(cfg, t, x)
  {
    var step: Step :| RankOf(step) == x && Enabled(cfg, s, step) && Clears(s, step) && Prompt(cfg, s, step);
    StillEnabled(cfg, s, t, step);
    assert Prompt(cfg, t, step);
  }

  // ----- what the calls leave undone: nothing -----

  /** Neither before the call nor after it anything has been cleared up since `s`, although the call has
      left nothing undone. */
  ghost predicate InVain(cfg: Config, x: nat, s: State, m: Moment) {
    Still(cfg, s, m.before) && Still(cfg, s, m.after) && Careful(cfg, x, true, m)
  }

  lemma ServeLeavesNone(cfg: Config, x: nat, s: State, m: Moment, src: nat)
    requires InVain(cfg, x, s, m) && m.call.Serve?
    ensures !W.CanDrain(cfg.n, s.work, x, src)
  {
  }

  lemma RequestLeavesNone(cfg: Config, x: nat, s: State, m: Moment)
    requires InVain(cfg, x, s, m) && m.call.Request?
    ensures !W.CanHearNo(cfg.n, s.work, x)
  {
  }

  lemma AbortLeavesNone(cfg: Config, x: nat, s: State, m: Moment, step: A.AbortStep)
    requires InVain(cfg, x, s, m) && m.call.Abort? && A.Inv(cfg, s.abort) && AbortClears(step)
    ensures !A.CanAbort(cfg, s.abort, x, step)
  {
    if x < cfg.n {
      assert A.AlarmOk(s.abort.alarms[x]);
      if step.AbortHear? {
        assert step.from !in AR.HeardFrom(cfg, m.before.abort, x);
      }
    }
  }

  lemma ReduceLeavesNone(cfg: Config, x: nat, s: State, m: Moment, step: R.ReduceStep)
    requires InVain(cfg, x, s, m) && m.call.Reduce? && !step.ReduceStart?
    ensures !R.CanReduce(cfg, s.reduce, x, step)
  {
  }

  lemma StartLeavesNone(cfg: Config, x: nat, s: State, m: Moment)
    requires InVain(cfg, x, s, m) && m.call.StartBarrier?
    ensures x < cfg.n && s.barrier.started[x]
  {
  }

  lemma TestLeavesNone(cfg: Config, x: nat, s: State, m: Moment, step: BarrierStep)
    requires InVain(cfg, x, s, m) && m.call.TestBarrier? && MomentOk(cfg, x, true, true, m) && !step.BarrierStart?
    ensures !CanBarrier(cfg, s.barrier, x, step)
  {
    var steps := m.call.barriers;
    if steps != [] {
      B.PathGoesOn(cfg, m.before.barrier, x, steps, m.after.barrier, m.call.complete);
    }
  }

  // ----- background reductions -----

  /** Rank `x` takes part in a reduction: it has one under way, or finds a start message. */
  ghost predicate Involved(cfg: Config, s: State, x: nat)
    requires Shape(cfg, s) && x < cfg.n
  {
    s.reduce.ranks[x].outstanding || (x >= 1 && At(s.reduce.chan, Parent(cfg, x), x) != [])
  }

  /** The pass of `x` calls for reductions, or has no need to. */
  ghost predicate Unneeded(cfg: Config, x: nat, enabled: bool, s: State)
    requires Shape(cfg, s) && x < cfg.n
  {
    enabled || !Involved(cfg, s, x)
  }

  lemma NothingToReduce(cfg: Config, x: nat, s: State, step: R.ReduceStep)
    requires Shape(cfg, s) && x < cfg.n && !Involved(cfg, s, x) && !step.ReduceStart?
    ensures !R.CanReduce(cfg, s.reduce, x, step)
  {
  }

  lemma StepInvolvesNobody(cfg: Config, r: R.Sys, y: nat, step: R.ReduceStep, x: nat)
    requires R.Shape(cfg, r) && R.CanReduce(cfg, r, y, step) && !step.ReduceStart? && x < cfg.n
    ensures var r' := R.ReduceNext(cfg, r, y, step);
            && (!r.ranks[x].outstanding ==> !r'.ranks[x].outstanding)
            && (x >= 1 && At(r.chan, Parent(cfg, x), x) == [] ==> At(r'.chan, Parent(cfg, x), x) == [])
  {
  }

  /** When all ranks have left their main loops, no rank gets involved any more. */
  lemma UnneededForGood(cfg: Config, x: nat, enabled: bool, s: State, t: State)
    requires LeadsTo(cfg, s, t) && Cleaning(cfg, s) && x < cfg.n && Unneeded(cfg, x, enabled, s)
    ensures Cleaning(cfg, t) && Unneeded(cfg, x, enabled, t)
  {
    var inv := (u: State) => Cleaning(cfg, u) && Unneeded(cfg, x, enabled, u);
    forall a: State, step: Step, b: State | inv(a) && Takes(cfg, a, step, b) ensures inv(b) {
      TakesCleans(cfg, a, step, b);
      if step.OnReduce? {
        StepInvolvesNobody(cfg, a.reduce, step.x, step.reduce, x);
      }
    }
    KeptOnTheWay(cfg, s, t, inv);
  }

  // ----- a pass -----

  /** The pass has made no difference. */
  ghost predicate Vain(cfg: Config, x: nat, s: State, pass: seq<Moment>) {
    forall i | 0 <= i < |pass| :: InVain(cfg, x, s, pass[i]) && MomentOk(cfg, x, true, true, pass[i])
  }

  lemma SameBurdenBetween(cfg: Config, s: State, mid: State, t: State)
    requires Cleaning(cfg, s) && Still(cfg, s, t) && Burden(cfg, t) == Burden(cfg, s)
    requires LeadsTo(cfg, s, mid) && LeadsTo(cfg, mid, t)
    ensures Still(cfg, s, mid)
  {
    Eases(cfg, s, mid);
    Eases(cfg, mid, t);
  }

  /** If it sheds no burden, it has made no difference at any moment. */
  lemma NoEaseInVain(cfg: Config, x: nat, s: State, pass: seq<Moment>, p: L.Parts, left: bool)
    requires Cleaning(cfg, s) && Trace(cfg, x, true, true, s, pass, p, left)
    requires Shape(cfg, EndOf(s, pass)) && Burden(cfg, EndOf(s, pass)) >= Burden(cfg, s)
    ensures Vain(cfg, x, s, pass) && Still(cfg, s, EndOf(s, pass))
  {
    var t := EndOf(s, pass);
    TraceEnds(cfg, x, true, true, s, pass, p, left);
    Eases(cfg, s, t);
    forall i | 0 <= i < |pass| ensures InVain(cfg, x, s, pass[i]) && MomentOk(cfg, x, true, true, pass[i]) {
      var m := pass[i];
      TraceLeads(cfg, x, true, true, s, pass, p, left, i);
      RankLeads(cfg, m.before, x, m.after);
      LeadsOn(cfg, s, m.before, m.after);
      LeadsOn(cfg, m.before, m.after, t);
      SameBurdenBetween(cfg, s, m.before, t);
      SameBurdenBetween(cfg, s, m.after, t);
    }
  }

  /** The calls of a pass through the cleanup loop that does not end it, with nothing unnoticed. */
  ghost predicate WholePass(s: State, x: nat, enabled: bool, sendsDone: bool, tried: seq<Moment>,
                            served: seq<Moment>, pass: seq<Moment>) {
    && BarrierOrder(PartsOf(s), tried, x, sendsDone) && DrainsFirst(tried, served, enabled) && DrainsLast(served, pass)
  }

  /** Where the pass tests the barrier, serves requests, hears from its children, and looks for a reply
      and for abort messages. */
  ghost predicate CallsAt(s: State, x: nat, enabled: bool, sendsDone: bool, pass: seq<Moment>, k: nat, j: nat) {
    && 1 <= k < j && |pass| == j + 2 && pass[k - 1].call.TestBarrier? && pass[k].call.Serve?
    && (enabled ==> k + 1 < j && pass[k + 1].call.Reduce?) && pass[j].call.Request? && pass[j + 1].call.Abort?
    && x < |s.work.desks| && x < |s.reduce.ranks| && x < |s.abort.alarms|
    && (L.Idle(PartsOf(s), x) && sendsDone ==> pass[0].call.StartBarrier?)
  }

  lemma CallsOfPass(s: State, x: nat, enabled: bool, sendsDone: bool, tried: seq<Moment>, served: seq<Moment>,
                    pass: seq<Moment>)
    requires WholePass(s, x, enabled, sendsDone, tried, served, pass)
    ensures CallsAt(s, x, enabled, sendsDone, pass, |tried|, |served|)
  {
    var k := |tried|;
    assert tried[..k - 1] <= tried <= served <= pass;
    assert pass[k - 1] == served[k - 1] == tried[k - 1];
    assert pass[k] == served[k] && (enabled ==> pass[k + 1] == served[k + 1]);
    if L.Idle(PartsOf(s), x) && sendsDone {
      assert pass[0] == tried[0] == tried[..k - 1][0];
    }
  }

  /** Rank `x`, which need not call for reductions unless it does, makes the calls of a pass in vain. */
  ghost predicate PassInVain(cfg: Config, x: nat, enabled: bool, sendsDone: bool, s: State, pass: seq<Moment>,
                             k: nat, j: nat) {
    && Cleaning(cfg, s) && x < cfg.n && Vain(cfg, x, s, pass) && Unneeded(cfg, x, enabled, s)
    && CallsAt(s, x, enabled, sendsDone, pass, k, j)
    && s.work.desks[x].requestors == [] && (SendsReceived(cfg, s, x) ==> sendsDone)
  }

  lemma NoWorkLeft(cfg: Config, x: nat, enabled: bool, sendsDone: bool, s: State, pass: seq<Moment>, k: nat, j: nat,
                   step: W.WorkStep)
    ensures PassInVain(cfg, x, enabled, sendsDone, s, pass, k, j) ==> !WorkEnabled(cfg, s, x, step)
  {
    if PassInVain(cfg, x, enabled, sendsDone, s, pass, k, j) && WorkEnabled(cfg, s, x, step) {
      OnlyWorkThatClears(cfg, s, x, step);
      if step.DoDrain? {
        ServeLeavesNone(cfg, x, s, pass[k], step.from);
      } else if step.DoHearNo? {
        RequestLeavesNone(cfg, x, s, pass[j]);
      }
    }
  }

  lemma NoAbortLeft(cfg: Config, x: nat, enabled: bool, sendsDone: bool, s: State, pass: seq<Moment>, k: nat, j: nat,
                    step: A.AbortStep)
    ensures PassInVain(cfg, x, enabled, sendsDone, s, pass, k, j) && AbortClears(step) ==>
              !A.CanAbort(cfg, s.abort, x, step)
  {
    if PassInVain(cfg, x, enabled, sendsDone, s, pass, k, j) && AbortClears(step) {
      AbortLeavesNone(cfg, x, s, pass[j + 1], step);
    }
  }

  lemma NoReductionLeft(cfg: Config, x: nat, enabled: bool, sendsDone: bool, s: State, pass: seq<Moment>,
                        k: nat, j: nat, step: R.ReduceStep)
    ensures PassInVain(cfg, x, enabled, sendsDone, s, pass, k, j) && ReduceClears(step) ==>
              !R.CanReduce(cfg, s.reduce, x, step)
  {
    if PassInVain(cfg, x, enabled, sendsDone, s, pass, k, j) && ReduceClears(step) {
      if enabled {
        ReduceLeavesNone(cfg, x, s, pass[k + 1], step);
      } else {
        NothingToReduce(cfg, x, s, step);
      }
    }
  }

  lemma NoBarrierLeft(cfg: Config, x: nat, enabled: bool, sendsDone: bool, s: State, pass: seq<Moment>, k: nat, j: nat,
                      step: BarrierStep)
    ensures PassInVain(cfg, x, enabled, sendsDone, s, pass, k, j) && BarrierEnabled(cfg, s, x, step) ==>
              Prompt(cfg, s, OnBarrier(x, step)) ==> !Clears(s, OnBarrier(x, step))
  {
    if PassInVain(cfg, x, enabled, sendsDone, s, pass, k, j) && BarrierEnabled(cfg, s, x, step)
       && Prompt(cfg, s, OnBarrier(x, step)) {
      if step.BarrierStart? {
        StartLeavesNone(cfg, x, s, pass[0]);
      } else {
        TestLeavesNone(cfg, x, s, pass[k - 1], step);
      }
    }
  }

  lemma NoStepLeft(cfg: Config, x: nat, enabled: bool, sendsDone: bool, s: State, pass: seq<Moment>, k: nat, j: nat,
                   step: Step)
    ensures PassInVain(cfg, x, enabled, sendsDone, s, pass, k, j) && RankOf(step) == x && Enabled(cfg, s, step) ==>
              Prompt(cfg, s, step) ==> !Clears(s, step)
  {
    match step
    case OnWork(_, a) => NoWorkLeft(cfg, x, enabled, sendsDone, s, pass, k, j, a);
    case OnAbort(_, a) => NoAbortLeft(cfg, x, enabled, sendsDone, s, pass, k, j, a);
    case OnReduce(_, a) => NoReductionLeft(cfg, x, enabled, sendsDone, s, pass, k, j, a);
    case OnTerm(_, _) =>
    case OnBarrier(_, a) => NoBarrierLeft(cfg, x, enabled, sendsDone, s, pass, k, j, a);
  }

  /** After such a pass no step of the rank could clear anything up. */
  lemma NothingToClear(cfg: Config, x: nat, enabled: bool, sendsDone: bool, s: State, pass: seq<Moment>,
                       k: nat, j: nat)
    ensures PassInVain(cfg, x, enabled, sendsDone, s, pass, k, j) ==> !CanHelp(cfg, s, x)
  {
    if PassInVain(cfg, x, enabled, sendsDone, s, pass, k, j) && CanHelp(cfg, s, x) {
      var step: Step :| RankOf(step) == x && Enabled(cfg, s, step) && Clears(s, step) && Prompt(cfg, s, step);
      NoStepLeft(cfg, x, enabled, sendsDone, s, pass, k, j, step);
    }
  }

  /** A pass through the cleanup loop sheds some of the burden, if its rank can clear anything up.
      `enabled` says whether the pass calls for reductions; if not, the rank may not be involved in one. */
  ghost predicate Diligent(cfg: Config, x: nat, enabled: bool, s: State, t: State) {
    && LeadsTo(cfg, s, t)
    && (Cleaning(cfg, s) && x < cfg.n && Unneeded(cfg, x, enabled, s) && CanHelp(cfg, s, x) ==>
          Cleaning(cfg, t) && Burden(cfg, t) < Burden(cfg, s))
  }

  lemma PassIsDiligent(cfg: Config, x: nat, enabled: bool, sendsDone: bool, s: State, tried: seq<Moment>,
                       served: seq<Moment>, pass: seq<Moment>, p: L.Parts, left: bool)
    requires x < cfg.n && Trace(cfg, x, true, true, s, pass, p, left) && Stands(cfg, x, true, s, false)
    requires !left ==> WholePass(s, x, enabled, sendsDone, tried, served, pass)
    requires s.work.desks[x].requestors == [] && (SendsReceived(cfg, s, x) ==> sendsDone)
    ensures Diligent(cfg, x, enabled, s, EndOf(s, pass))
  {
    var t := EndOf(s, pass);
    TraceEnds(cfg, x, true, true, s, pass, p, left);
    if Cleaning(cfg, s) && x < cfg.n && Unneeded(cfg, x, enabled, s) && CanHelp(cfg, s, x) {
      Eases(cfg, s, t);
      if Burden(cfg, t) >= Burden(cfg, s) {
        NoEaseInVain(cfg, x, s, pass, p, left);
        if !left {
          CallsOfPass(s, x, enabled, sendsDone, tried, served, pass);
          NothingToClear(cfg, x, enabled, sendsDone, s, pass, |tried|, |served|);
        }
        assert false;
      }
    }
  }

  /** A stretch that contains a diligent pass is diligent: what comes before takes the rank's help away
      only by helping, and nothing is undone by what comes after. */
  lemma Wider(cfg: Config, x: nat, enabled: bool, s: State, mid: State, next: State, t: State)
    requires LeadsTo(cfg, s, mid) && Diligent(cfg, x, enabled, mid, next) && LeadsTo(cfg, next, t)
    ensures Diligent(cfg, x, enabled, s, t)
  {
    LeadsOn(cfg, s, mid, next);
    LeadsOn(cfg, s, next, t);
    if Cleaning(cfg, s) && x < cfg.n && Unneeded(cfg, x, enabled, s) && CanHelp(cfg, s, x) {
      UnneededForGood(cfg, x, enabled, s, mid);
      Eases(cfg, s, mid);
      if Burden(cfg, mid) == Burden(cfg, s) {
        HelpStays(cfg, s, mid, x);
      } else {
        Eases(cfg, mid, next);
      }
      Eases(cfg, next, t);
    }
  }

  /** Before all ranks have left their main loops there is nothing that must be cleared up. */
  lemma DiligentElsewhere(cfg: Config, x: nat, enabled: bool, s: State, t: State)
    requires LeadsTo(cfg, s, t) && Shape(cfg, s) && x < cfg.n && s.phase[x] == Working
    ensures Diligent(cfg, x, enabled, s, t)
  {
    if Cleaning(cfg, s) {
      assert false;
    }
  }
}
