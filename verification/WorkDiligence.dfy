/** As long as work is left, a pass through the main loop in which nothing stays unnoticed gets some of it
    done, if the rank can do any: it processes an item, receives items, or settles an account. */
module WorkDiligence {
  import opened Channels
  import opened Tree
  import W = WorkTransfer
  import opened Protocol
  import opened Invariant
  import opened Moves
  import opened Lift
  import opened WorkWeight
  import opened Ending
  import opened Interleaving
  import opened Passes
  import L = WorkLoop

  // ----- what is left to do -----

  /** How many ranks below `m` have not aborted. */
  ghost function Unaborted(cfg: Config, s: State, m: nat): nat
    requires Shape(cfg, s) && m <= cfg.n
  {
    if m == 0 then 0 else Unaborted(cfg, s, m - 1) + if Aborted(cfg, s, m - 1) then 0 else 1
  }

  /** What is left to do while no item is created. */
  ghost function Left(cfg: Config, s: State): nat
    requires Shape(cfg, s)
  {
    TotalWeight(s.work) + Unaborted(cfg, s, cfg.n)
  }

  lemma {:induction false} UnabortedBound(cfg: Config, s: State, m: nat)
    requires Shape(cfg, s) && m <= cfg.n
    ensures Unaborted(cfg, s, m) <= m
  {
    if m > 0 {
      UnabortedBound(cfg, s, m - 1);
    }
  }

  /** At most five for each item that is left, four for each rank, and one for each transfer that has not
      been acknowledged. */
  lemma LeftBound(cfg: Config, s: State)
    requires Inv(cfg, s)
    ensures Left(cfg, s) <= 5 * (|s.work.created| - |s.work.processed|) + 4 * cfg.n + Total(Accounts(s.work))
  {
    WeightsBound(cfg.n, s.work);
    UnabortedBound(cfg, s, cfg.n);
  }

  /** Abort flags are raised only. */
  ghost predicate FlagsRise(cfg: Config, s: State, t: State) {
    && Shape(cfg, s) && Shape(cfg, t)
    && forall z: nat | z < cfg.n :: Aborted(cfg, s, z) ==> Aborted(cfg, t, z)
  }

  lemma {:induction false} FewerUnaborted(cfg: Config, s: State, t: State, m: nat)
    requires FlagsRise(cfg, s, t) && m <= cfg.n
    ensures Unaborted(cfg, t, m) <= Unaborted(cfg, s, m)
    ensures Unaborted(cfg, t, m) == Unaborted(cfg, s, m) ==>
              forall z: nat | z < m :: Aborted(cfg, t, z) == Aborted(cfg, s, z)
  {
    if m > 0 {
      FewerUnaborted(cfg, s, t, m - 1);
    }
  }

  /** Nothing has been done, and no rank has aborted. */
  ghost predicate Idled(cfg: Config, s: State, t: State) {
    && Shape(cfg, s) && Shape(cfg, t) && SameWork(cfg.n, s.work, t.work)
    && forall z: nat | z < cfg.n :: Aborted(cfg, t, z) == Aborted(cfg, s, z)
  }

  lemma IdledOn(cfg: Config, s: State, mid: State, t: State)
    requires Idled(cfg, s, mid) && Idled(cfg, mid, t)
    ensures Idled(cfg, s, t)
  {
    SameOn(cfg.n, s.work, mid.work, t.work);
  }

  // ----- one step -----

  lemma StepRaisesFlags(cfg: Config, s: State, step: Step)
    requires Shape(cfg, s) && Enabled(cfg, s, step)
    ensures FlagsRise(cfg, s, Apply(cfg, s, step))
  {
    if step.OnAbort? {
      forall z: nat | z < cfg.n ensures Aborted(cfg, s, z) ==> Aborted(cfg, Apply(cfg, s, step), z) {
        AbortOwing(cfg, s, step.x, step.abort, z);
      }
    }
  }

  lemma StepCreates(cfg: Config, s: State, step: Step)
    requires Shape(cfg, s) && Enabled(cfg, s, step)
    ensures s.work.created <= Apply(cfg, s, step).work.created
  {
  }

  /** While nothing is created, no step adds to what is left, and one that takes nothing from it moves
      nothing. */
  lemma StepLeaves(cfg: Config, s: State, step: Step)
    requires Inv(cfg, s) && Enabled(cfg, s, step)
    requires Apply(cfg, s, step).work.created == s.work.created
    ensures var t := Apply(cfg, s, step);
            && TotalWeight(t.work) <= TotalWeight(s.work)
            && (TotalWeight(t.work) == TotalWeight(s.work) ==> SameWork(cfg.n, s.work, t.work))
  {
    if step.OnWork? {
      var x, a := step.x, step.work;
      StepWeighs(cfg.n, s.work, x, a, Aborted(cfg, s, x));
      if !Lightens(s.work, x, a, WorkAfter(cfg, s, x, a)) {
        StepLeavesSame(cfg.n, s.work, x, a, Aborted(cfg, s, x));
      }
    }
  }

  /** Items have been created since `s`, or some of what was left has been done, or nothing. */
  ghost predicate DoneOrIdled(cfg: Config, s: State, t: State) {
    && Inv(cfg, s) && Inv(cfg, t) && s.work.created <= t.work.created
    && (t.work.created == s.work.created ==>
          Left(cfg, t) < Left(cfg, s) || (Left(cfg, t) == Left(cfg, s) && Idled(cfg, s, t)))
  }

  lemma StepDoes(cfg: Config, s: State, step: Step, t: State)
    requires Inv(cfg, s) && Takes(cfg, s, step, t)
    ensures DoneOrIdled(cfg, s, t)
  {
    TakesKeepsInv(cfg, s, step, t);
    StepRaisesFlags(cfg, s, step);
    StepCreates(cfg, s, step);
    FewerUnaborted(cfg, s, t, cfg.n);
    if t.work.created == s.work.created {
      StepLeaves(cfg, s, step);
    }
  }

  lemma DoneOn(cfg: Config, s: State, mid: State, t: State)
    requires DoneOrIdled(cfg, s, mid) && DoneOrIdled(cfg, mid, t)
    ensures DoneOrIdled(cfg, s, t)
  {
    if t.work.created == s.work.created {
      assert mid.work.created == s.work.created;
      if Idled(cfg, s, mid) && Idled(cfg, mid, t) {
        IdledOn(cfg, s, mid, t);
      }
    }
  }

  lemma AtFirst(cfg: Config, s: State)
    ensures Inv(cfg, s) ==> DoneOrIdled(cfg, s, s)
  {
  }

  lemma Does(cfg: Config, s: State, t: State)
    requires LeadsTo(cfg, s, t) && Inv(cfg, s)
    ensures DoneOrIdled(cfg, s, t)
  {
    AtFirst(cfg, s);
    var does := (u: State) => DoneOrIdled(cfg, s, u);
    forall a: State, step: Step, b: State | does(a) && Takes(cfg, a, step, b) ensures does(b) {
      StepDoes(cfg, a, step, b);
      DoneOn(cfg, s, a, b);
    }
    KeptOnTheWay(cfg, s, t, does);
  }

  // ----- a rank that can do something -----

  /** Rank `x` can work something off. */
  ghost predicate CanDo(cfg: Config, s: State, x: nat)
    requires Shape(cfg, s)
  {
    exists step: W.WorkStep :: WorkEnabled(cfg, s, x, step) && WorksOff(step)
  }

  /** Then some rank owes something, and none has left its main loop. */
  lemma CanDoMeansBusy(cfg: Config, s: State, x: nat)
    requires Inv(cfg, s) && CanDo(cfg, s, x)
    ensures !Quiet(cfg, s) && x < cfg.n && s.phase[x] == Working
  {
    var step: W.WorkStep :| WorkEnabled(cfg, s, x, step) && WorksOff(step);
    if step.DoProcess? {
      assert Owing(cfg, s, x);
    } else if step.DoSettle? {
      assert Owing(cfg, s, x);
    } else {
      var src := s.work.desks[x].source;
      assert W.DeskOk(cfg.n, s.work, x);
      InFlightIsOutstanding(cfg, s, src, x);
      assert Owing(cfg, s, src);
    }
    NobodyHasLeft(cfg, s, x);
  }

  lemma BusyStays(cfg: Config, s: State, t: State, x: nat)
    requires Idled(cfg, s, t) && Inv(cfg, t) && !Quiet(cfg, s) && x < cfg.n
    ensures !Quiet(cfg, t) && t.phase[x] == Working
  {
    var y: nat :| y < cfg.n && Owing(cfg, s, y);
    assert Owing(cfg, t, y);
    NobodyHasLeft(cfg, t, x);
  }

  /** A transfer on its way to `x` is the answer that `x` waits for. */
  lemma TransferIsAwaited(n: nat, w: W.Sys, src: nat, x: nat)
    requires W.Discipline(n, w) && src < n && x < n && |At(w.reply, src, x)| == 2
    ensures W.CanReceive(n, w, x) && w.desks[x].source == src
  {
    assert W.PairOk(w, src, x);
  }

  lemma ReceivingStays(cfg: Config, s: State, t: State, x: nat)
    requires Idled(cfg, s, t) && Inv(cfg, s) && Inv(cfg, t) && x < cfg.n && W.CanReceive(cfg.n, s.work, x)
    ensures W.CanReceive(cfg.n, t.work, x) && t.work.desks[x].source == s.work.desks[x].source
    ensures At(t.work.reply, t.work.desks[x].source, x) != [] && t.work.desks[x].queue == []
  {
    var src := s.work.desks[x].source;
    assert W.DeskOk(cfg.n, s.work, x) && W.PairOk(s.work, src, x);
    TransferIsAwaited(cfg.n, t.work, src, x);
    assert W.DeskOk(cfg.n, t.work, x);
  }

  /** As long as nothing is done, it still can. */
  lemma DoingStays(cfg: Config, s: State, t: State, x: nat)
    requires Idled(cfg, s, t) && Inv(cfg, s) && Inv(cfg, t) && CanDo(cfg, s, x)
    ensures CanDo(cfg, t, x)
  {
    CanDoMeansBusy(cfg, s, x);
    BusyStays(cfg, s, t, x);
    var step: W.WorkStep :| WorkEnabled(cfg, s, x, step) && WorksOff(step);
    if step.DoReceive? {
      ReceivingStays(cfg, s, t, x);
    }
    assert WorkEnabled(cfg, t, x, step) && WorksOff(step);
  }

  lemma SomebodyCanDo(cfg: Config, s: State) returns (x: nat)
    requires Inv(cfg, s) && !Quiet(cfg, s)
    ensures x < cfg.n && CanDo(cfg, s, x)
  {
    var z: nat :| z < cfg.n && Owing(cfg, s, z);
    SomethingToWorkOff(cfg, s, z);
    var y: nat, step: W.WorkStep :| WorkEnabled(cfg, s, y, step) && WorksOff(step);
    x := y;
  }

  // ----- a pass -----

  /** Since `s` nothing has been done. */
  ghost predicate Unmoved(cfg: Config, s: State, t: State) {
    Inv(cfg, s) && Inv(cfg, t) && Idled(cfg, s, t) && t.work.created == s.work.created
  }

  ghost predicate InVain(cfg: Config, x: nat, s: State, m: Moment) {
    Unmoved(cfg, s, m.before) && Unmoved(cfg, s, m.after) && MomentOk(cfg, x, false, true, m)
  }

  lemma UnmovedBetween(cfg: Config, s: State, mid: State, t: State)
    requires Inv(cfg, s) && Shape(cfg, t) && Left(cfg, t) >= Left(cfg, s) && t.work.created == s.work.created
    requires LeadsTo(cfg, s, mid) && LeadsTo(cfg, mid, t)
    ensures Unmoved(cfg, s, mid)
  {
    Does(cfg, s, mid);
    Does(cfg, mid, t);
    assert mid.work.created == s.work.created;
  }

  lemma NothingDoneInVain(cfg: Config, x: nat, s: State, pass: seq<Moment>, p: L.Parts, left: bool, i: nat)
    requires Inv(cfg, s) && Trace(cfg, x, false, true, s, pass, p, left) && i < |pass|
    requires var t := EndOf(s, pass);
             Shape(cfg, t) && Left(cfg, t) >= Left(cfg, s) && t.work.created == s.work.created
    ensures InVain(cfg, x, s, pass[i])
  {
    var t, m := EndOf(s, pass), pass[i];
    TraceLeads(cfg, x, false, true, s, pass, p, left, i);
    RankLeads(cfg, m.before, x, m.after);
    LeadsOn(cfg, s, m.before, m.after);
    LeadsOn(cfg, m.before, m.after, t);
    UnmovedBetween(cfg, s, m.before, t);
    UnmovedBetween(cfg, s, m.after, t);
  }

  lemma SettleLeavesNone(cfg: Config, x: nat, s: State, m: Moment, y: nat)
    requires InVain(cfg, x, s, m) && m.call.Settle?
    ensures !W.CanSettle(cfg.n, s.work, x, y)
  {
  }

  lemma RequestLeavesNone(cfg: Config, x: nat, s: State, m: Moment)
    requires x < cfg.n && InVain(cfg, x, s, m) && m.call.Request?
    ensures !W.CanReceive(cfg.n, s.work, x)
  {
    if W.CanReceive(cfg.n, s.work, x) {
      ReceivingStays(cfg, s, m.before, x);
      ReceivingStays(cfg, s, m.after, x);
    }
  }

  /** An item that is processed is gone. */
  lemma ProcessShortens(cfg: Config, x: nat, p: L.Parts, call: L.Call, q: L.Parts)
    requires L.Follows(cfg, x, false, p, call, q) && call.Process? && W.Dequeue in call.ops
    requires q.work.created == p.work.created
    ensures |q.work.desks[x].queue| < |p.work.desks[x].queue|
  {
    NothingCreated(cfg.n, p.work, x, call.ops);
    OnlyDequeues(p.work.desks[x].queue, call.ops);
  }

  lemma ProcessMoves(cfg: Config, x: nat, s: State, m: Moment)
    ensures m.call.Process? && W.Dequeue in m.call.ops ==> !InVain(cfg, x, s, m)
  {
    if m.call.Process? && W.Dequeue in m.call.ops && InVain(cfg, x, s, m) {
      ProcessShortens(cfg, x, PartsOf(m.before), m.call, PartsOf(m.after));
    }
  }

  /** The calls of a pass through the main loop. */
  ghost predicate WholePass(s: State, x: nat, inp: L.Inputs, upkeep: seq<Moment>, fed: seq<Moment>,
                            pass: seq<Moment>) {
    && UpkeepOrder(upkeep, inp) && Fed(PartsOf(EndOf(s, upkeep)), upkeep, fed, x)
    && Acted(PartsOf(EndOf(s, fed)), inp.ops, fed, pass, x)
  }

  /** Where the pass looks for receipts, where it looks for a reply if its queue is empty then, and where
      it processes an item if it has one then. */
  ghost predicate CallsAt(cfg: Config, x: nat, ops: seq<W.Op>, pass: seq<Moment>, k: nat, j: nat) {
    && 2 <= k <= j < |pass| && pass[1].call.Settle?
    && x < |pass[k - 1].after.work.desks|
    && (pass[k - 1].after.work.desks[x].queue == [] ==> k < j && pass[k].call.Request?)
    && x < |pass[j - 1].after.work.desks| && x < |pass[j - 1].after.abort.alarms|
    && (pass[j - 1].after.work.desks[x].queue != [] && !pass[j - 1].after.abort.alarms[x].flag ==>
          pass[j].call.Process? && pass[j].call.ops == ops)
  }

  lemma CallsOfPass(cfg: Config, x: nat, inp: L.Inputs, s: State, upkeep: seq<Moment>, fed: seq<Moment>,
                    pass: seq<Moment>)
    requires WholePass(s, x, inp, upkeep, fed, pass)
    ensures CallsAt(cfg, x, inp.ops, pass, |upkeep|, |fed|)
  {
    var k, j := |upkeep|, |fed|;
    assert upkeep <= fed <= pass;
    assert pass[1] == upkeep[1] && pass[k - 1] == upkeep[k - 1] && pass[j - 1] == fed[j - 1];
    assert k < j ==> pass[k] == fed[k];
  }

  /** Rank `x` makes the calls of a pass in vain, with a callback that dequeues. */
  ghost predicate PassInVain(cfg: Config, x: nat, ops: seq<W.Op>, s: State, pass: seq<Moment>, k: nat, j: nat) {
    && Shape(cfg, s) && x < cfg.n && CallsAt(cfg, x, ops, pass, k, j) && W.Dequeue in ops
    && forall i | 0 <= i < |pass| :: InVain(cfg, x, s, pass[i])
  }

  lemma NothingToSettle(cfg: Config, x: nat, ops: seq<W.Op>, s: State, pass: seq<Moment>, k: nat, j: nat, y: nat)
    ensures PassInVain(cfg, x, ops, s, pass, k, j) ==> !W.CanSettle(cfg.n, s.work, x, y)
  {
    if PassInVain(cfg, x, ops, s, pass, k, j) {
      SettleLeavesNone(cfg, x, s, pass[1], y);
    }
  }

  lemma NothingToReceive(cfg: Config, x: nat, ops: seq<W.Op>, s: State, pass: seq<Moment>, k: nat, j: nat)
    ensures PassInVain(cfg, x, ops, s, pass, k, j) ==> !W.CanReceive(cfg.n, s.work, x)
  {
    if PassInVain(cfg, x, ops, s, pass, k, j) && W.CanReceive(cfg.n, s.work, x) {
      assert InVain(cfg, x, s, pass[k - 1]);
      ReceivingStays(cfg, s, pass[k - 1].after, x);
      RequestLeavesNone(cfg, x, s, pass[k]);
    }
  }

  lemma NothingToProcess(cfg: Config, x: nat, ops: seq<W.Op>, s: State, pass: seq<Moment>, k: nat, j: nat)
    ensures PassInVain(cfg, x, ops, s, pass, k, j) ==> !Active(cfg, s, x)
  {
    if PassInVain(cfg, x, ops, s, pass, k, j) {
      assert InVain(cfg, x, s, pass[j - 1]);
      ProcessMoves(cfg, x, s, pass[j]);
    }
  }

  lemma OnlyThreeWays(cfg: Config, s: State, x: nat)
    requires Shape(cfg, s) && CanDo(cfg, s, x)
    ensures x < cfg.n
    ensures Active(cfg, s, x) || W.CanReceive(cfg.n, s.work, x) || exists y: nat :: W.CanSettle(cfg.n, s.work, x, y)
  {
    var step: W.WorkStep :| WorkEnabled(cfg, s, x, step) && WorksOff(step);
    if step.DoSettle? {
      assert W.CanSettle(cfg.n, s.work, x, step.from);
    }
  }

  /** After such a pass the rank could not have done anything. */
  lemma NothingToDo(cfg: Config, x: nat, ops: seq<W.Op>, s: State, pass: seq<Moment>, k: nat, j: nat)
    ensures PassInVain(cfg, x, ops, s, pass, k, j) ==> !CanDo(cfg, s, x)
  {
    if PassInVain(cfg, x, ops, s, pass, k, j) && CanDo(cfg, s, x) {
      NothingToReceive(cfg, x, ops, s, pass, k, j);
      NothingToProcess(cfg, x, ops, s, pass, k, j);
      OnlyThreeWays(cfg, s, x);
      var y: nat :| W.CanSettle(cfg.n, s.work, x, y);
      NothingToSettle(cfg, x, ops, s, pass, k, j, y);
    }
  }

  /** A pass through the main loop does some of what is left, if its rank can do anything and nothing is
      created. */
  ghost predicate Diligent(cfg: Config, x: nat, s: State, t: State) {
    && LeadsTo(cfg, s, t)
    && (Inv(cfg, s) && CanDo(cfg, s, x) && t.work.created == s.work.created ==>
          Inv(cfg, t) && Left(cfg, t) < Left(cfg, s))
  }

  lemma NothingDoneMeansNothingToDo(cfg: Config, x: nat, ops: seq<W.Op>, s: State, pass: seq<Moment>, p: L.Parts,
                                    left: bool, k: nat, j: nat)
    requires Inv(cfg, s) && x < cfg.n && Trace(cfg, x, false, true, s, pass, p, left)
    requires CallsAt(cfg, x, ops, pass, k, j) && W.Dequeue in ops
    requires var t := EndOf(s, pass);
             Shape(cfg, t) && Left(cfg, t) >= Left(cfg, s) && t.work.created == s.work.created
    ensures !CanDo(cfg, s, x)
  {
    forall i | 0 <= i < |pass| ensures InVain(cfg, x, s, pass[i]) {
      NothingDoneInVain(cfg, x, s, pass, p, left, i);
    }
    NothingToDo(cfg, x, ops, s, pass, k, j);
  }

  lemma PassIsDiligent(cfg: Config, x: nat, inp: L.Inputs, s: State, upkeep: seq<Moment>, fed: seq<Moment>,
                       pass: seq<Moment>, p: L.Parts, left: bool)
    requires x < cfg.n && Trace(cfg, x, false, true, s, pass, p, left) && W.Dequeue in inp.ops
    requires WholePass(s, x, inp, upkeep, fed, pass)
    ensures Diligent(cfg, x, s, EndOf(s, pass))
  {
    var t := EndOf(s, pass);
    TraceEnds(cfg, x, false, true, s, pass, p, left);
    CallsOfPass(cfg, x, inp, s, upkeep, fed, pass);
    if Inv(cfg, s) && CanDo(cfg, s, x) && t.work.created == s.work.created {
      Does(cfg, s, t);
      if Left(cfg, t) >= Left(cfg, s) {
        NothingDoneMeansNothingToDo(cfg, x, inp.ops, s, pass, p, left, |upkeep|, |fed|);
      }
    }
  }

  lemma NoneCreatedBetween(a: multiset<W.Item>, b: multiset<W.Item>, c: multiset<W.Item>, d: multiset<W.Item>)
    ensures a <= b <= c <= d && d == a ==> b == a && c == a
  {
  }

  lemma LeftFalls(cfg: Config, s: State, t: State)
    requires Inv(cfg, s) && LeadsTo(cfg, s, t)
    ensures Inv(cfg, t) && s.work.created <= t.work.created
    ensures t.work.created == s.work.created ==> Left(cfg, t) <= Left(cfg, s)
  {
    Does(cfg, s, t);
  }

  lemma StillCanDo(cfg: Config, s: State, t: State, x: nat)
    requires Inv(cfg, s) && LeadsTo(cfg, s, t) && CanDo(cfg, s, x)
    ensures Inv(cfg, t)
    ensures t.work.created == s.work.created && Left(cfg, t) == Left(cfg, s) ==> CanDo(cfg, t, x)
  {
    Does(cfg, s, t);
    if t.work.created == s.work.created && Left(cfg, t) == Left(cfg, s) {
      DoingStays(cfg, s, t, x);
    }
  }

  /** A stretch that contains a diligent pass is diligent. */
  lemma Wider(cfg: Config, x: nat, s: State, mid: State, next: State, t: State)
    requires LeadsTo(cfg, s, mid) && Diligent(cfg, x, mid, next) && LeadsTo(cfg, next, t)
    ensures Diligent(cfg, x, s, t)
  {
    LeadsOn(cfg, mid, next, t);
    LeadsOn(cfg, s, mid, t);
    if Inv(cfg, s) && CanDo(cfg, s, x) && t.work.created == s.work.created {
      LeftFalls(cfg, s, mid);
      LeftFalls(cfg, mid, next);
      LeftFalls(cfg, next, t);
      NoneCreatedBetween(s.work.created, mid.work.created, next.work.created, t.work.created);
      StillCanDo(cfg, s, mid, x);
    }
  }

  /** A rank past its main loop has nothing to do. */
  lemma DiligentElsewhere(cfg: Config, x: nat, s: State, t: State)
    requires LeadsTo(cfg, s, t) && Shape(cfg, s) && x < cfg.n && s.phase[x] != Working
    ensures Diligent(cfg, x, s, t)
  {
    if Inv(cfg, s) && CanDo(cfg, s, x) {
      CanDoMeansBusy(cfg, s, x);
    }
  }
}
