/** From whatever state a run has reached, it can go on to the end: the ranks can work off every
    item, deliver every transfer, detect termination and complete the cleanup barrier. */
module Ending {
  import opened Channels
  import opened Tree
  import W = WorkTransfer
  import opened Protocol
  import opened Invariant
  import opened Moves
  import opened Completion
  import CleanupProgress

  // ----- what a rank still has to work off -----

  ghost function Incoming(r: seq<W.Reply>): nat {
    if |r| == 2 && r[1].Data? then |r[1].items| else 0
  }

  /** Its items, in the queue and on their way to it, its request, and the transfers that it waits to
      see acknowledged. */
  ghost function Debt(w: W.Sys, z: nat): nat
    requires z < |w.desks|
  {
    var d := w.desks[z];
    |d.queue| + d.outstanding + if d.requested then 1 + Incoming(At(w.reply, d.source, z)) else 0
  }

  /** The steps that work something off: dequeueing an item, and receiving items or a receipt. */
  predicate WorksOff(step: W.WorkStep) {
    step.DoReceive? || step.DoSettle? || (step.DoProcess? && step.ops == [W.Dequeue])
  }

  lemma ProcessLowers(n: nat, w: W.Sys, x: nat, z: nat)
    requires W.Discipline(n, w) && W.CanProcess(n, w, x) && z < n
    ensures Debt(W.Process(n, w, x, [W.Dequeue]), z) + (if z == x then 1 else 0) <= Debt(w, z)
  {
    var q := w.desks[x].queue;
    assert W.Callback(q[..|q| - 1], []).0 == q[..|q| - 1];
  }

  lemma ReceiveLowers(n: nat, w: W.Sys, y: nat, z: nat)
    requires W.Discipline(n, w) && W.CanReceive(n, w, y) && z < n
    ensures Debt(W.Receive(n, w, y), z) + (if z == y then 1 else 0) <= Debt(w, z)
  {
    assert W.DeskOk(n, w, y) && W.PairOk(w, w.desks[y].source, y);
  }

  lemma SettleLowers(n: nat, w: W.Sys, x: nat, y: nat, z: nat)
    requires W.Discipline(n, w) && W.CanSettle(n, w, x, y) && z < n
    ensures Debt(W.Settle(n, w, x, y), z) + (if z == x then 1 else 0) <= Debt(w, z)
  {
  }

  lemma WorkOffLowers(n: nat, w: W.Sys, x: nat, step: W.WorkStep, abort: bool, z: nat)
    requires W.Discipline(n, w) && x < n && W.CanWork(n, w, x, step) && WorksOff(step) && z < n
    ensures Debt(W.WorkNext(n, w, x, step, abort), z) + (if z == x then 1 else 0) <= Debt(w, z)
  {
    match step
    case DoReceive => ReceiveLowers(n, w, x, z);
    case DoSettle(from) => SettleLowers(n, w, x, from, z);
    case DoProcess(_) => ProcessLowers(n, w, x, z);
  }

  ghost function Debts(n: nat, w: W.Sys): (v: seq<int>)
    requires |w.desks| == n
    ensures |v| == n && forall i | 0 <= i < n :: v[i] >= 0
  {
    seq(n, x requires 0 <= x < n => Debt(w, x))
  }

  lemma DebtFalls(n: nat, w: W.Sys, x: nat, step: W.WorkStep, abort: bool)
    requires W.Discipline(n, w) && x < n && W.CanWork(n, w, x, step) && WorksOff(step)
    ensures 0 <= Total(Debts(n, W.WorkNext(n, w, x, step, abort))) < Total(Debts(n, w))
  {
    var before, after := Debts(n, w), Debts(n, W.WorkNext(n, w, x, step, abort));
    forall z: nat | z < n ensures after[z] + (if z == x then 1 else 0) <= before[z] {
      WorkOffLowers(n, w, x, step, abort, z);
    }
    TotalGrows(after, before, x);
    TotalIsPositive(after);
  }

  // ----- there is always something to work off -----

  /** A transfer that is on its sender's account is in flight, or its receipt is. */
  lemma {:induction false} SomethingInFlight(reply: Chan<W.Reply>, receipt: Chan<()>, x: nat, m: nat) returns (y: nat)
    requires W.Tally(reply, receipt, x, m) > 0
    ensures y < m && (W.Carried(At(reply, x, y)) > 0 || At(receipt, y, x) != [])
  {
    if W.Carried(At(reply, x, m - 1)) > 0 || At(receipt, m - 1, x) != [] {
      y := m - 1;
    } else {
      y := SomethingInFlight(reply, receipt, x, m - 1);
    }
  }

  lemma AccountCanMove(n: nat, w: W.Sys, x: nat) returns (y: nat, step: W.WorkStep)
    requires W.Discipline(n, w) && W.Ledger(n, w) && x < n && w.desks[x].outstanding > 0
    ensures y < n && WorksOff(step) && !step.DoProcess? && W.CanWork(n, w, y, step)
  {
    assert W.TallyOk(n, w, x);
    var z := SomethingInFlight(w.reply, w.receipt, x, n);
    assert W.PairOk(w, x, z);
    if At(w.receipt, z, x) != [] {
      y, step := x, W.DoSettle(z);
    } else {
      y, step := z, W.DoReceive;
    }
  }

  ghost predicate CanWorkOff(cfg: Config, s: State)
    requires Shape(cfg, s)
  {
    exists x: nat, step: W.WorkStep :: WorkEnabled(cfg, s, x, step) && WorksOff(step)
  }

  lemma NobodyHasLeft(cfg: Config, s: State, z: nat)
    requires Inv(cfg, s) && !Quiet(cfg, s) && z < cfg.n
    ensures s.phase[z] == Working
  {
  }

  lemma SomethingToWorkOff(cfg: Config, s: State, x: nat)
    requires Inv(cfg, s) && x < cfg.n && Owing(cfg, s, x)
    ensures CanWorkOff(cfg, s)
  {
    if s.work.desks[x].outstanding > 0 {
      var y, step := AccountCanMove(cfg.n, s.work, x);
      NobodyHasLeft(cfg, s, y);
      assert WorkEnabled(cfg, s, y, step) && WorksOff(step);
    } else {
      NobodyHasLeft(cfg, s, x);
      var step := W.DoProcess([W.Dequeue]);
      assert WorkEnabled(cfg, s, x, step) && WorksOff(step);
    }
  }

  lemma OneStepOff(cfg: Config, s: State, x: nat) returns (step: Step, s': State)
    requires Inv(cfg, s) && x < cfg.n && Owing(cfg, s, x)
    ensures Takes(cfg, s, step, s') && Inv(cfg, s')
    ensures 0 <= Total(Debts(cfg.n, s'.work)) < Total(Debts(cfg.n, s.work))
  {
    SomethingToWorkOff(cfg, s, x);
    var y: nat, work: W.WorkStep :| WorkEnabled(cfg, s, y, work) && WorksOff(work);
    step, s' := OnWork(y, work), DoWork(cfg, s, y, work);
    DebtFalls(cfg.n, s.work, y, work, Aborted(cfg, s, y));
    TakesKeepsInv(cfg, s, step, s');
  }

  lemma {:induction false} WorksOffToQuiet(cfg: Config, s: State) returns (s': State)
    requires Inv(cfg, s)
    ensures LeadsTo(cfg, s, s') && Inv(cfg, s') && Quiet(cfg, s')
    decreases Total(Debts(cfg.n, s.work))
  {
    if x: nat :| x < cfg.n && Owing(cfg, s, x) {
      var step, mid := OneStepOff(cfg, s, x);
      s' := WorksOffToQuiet(cfg, mid);
      FirstStep(cfg, s, step, mid, s');
    } else {
      s' := s;
      LeadsToItself(cfg, s);
    }
  }

  // ----- the end of the allreduce -----

  lemma QuietLeadsToLeft(cfg: Config, s: State) returns (s': State)
    requires Reachable(cfg, s) && Quiet(cfg, s)
    ensures LeadsTo(cfg, s, s') && Shape(cfg, s') && AllHaveLeft(cfg, s')
  {
    var run, steps := AllreduceReachesEverybody(cfg, s);
    s' := run[|steps|];
  }

  /** No state is a dead end: from every state that a run can reach, with or without aborts, some
      continuation takes every rank out of its cleanup loop. */
  lemma EveryRunCanEnd(cfg: Config, s: State) returns (s': State)
    requires Reachable(cfg, s)
    ensures LeadsTo(cfg, s, s') && Reachable(cfg, s') && CleanupProgress.AllFinished(cfg, s')
  {
    ReachableInv(cfg, s);
    var quiet := WorksOffToQuiet(cfg, s);
    LeadsToReachable(cfg, s, quiet);
    var left := QuietLeadsToLeft(cfg, quiet);
    LeadsToReachable(cfg, quiet, left);
    s' := CleanupProgress.CleanupReachesEverybody(cfg, left);
    LeadsToReachable(cfg, left, s');
    LeadsOn(cfg, s, quiet, left);
    LeadsOn(cfg, s, left, s');
  }
}
