/** What a call does to one component of the global state, it does as a sequence of steps of the
    whole protocol. */
module Lift {
  import opened Channels
  import opened Tree
  import W = WorkTransfer
  import A = AbortSignal
  import R = BackgroundReduce
  import opened Termination
  import opened Barrier
  import opened Protocol
  import opened Moves
  import TermRank
  import BarrierRank
  import AbortRank
  import ReduceRank
  import WorkRank
  import L = WorkLoop

  /** Rank `x` alone has led the system from `s0`, which is reachable, to `s`. */
  ghost predicate Arrived(cfg: Config, s0: State, x: nat, s: State) {
    Reachable(cfg, s) && Leads(cfg, s0, x, s)
  }

  lemma Further(cfg: Config, s0: State, x: nat, s: State, step: Step) returns (t: State)
    requires Arrived(cfg, s0, x, s) && Enabled(cfg, s, step) && RankOf(step) == x
    ensures Arrived(cfg, s0, x, t) && t == Apply(cfg, s, step)
  {
    t := Apply(cfg, s, step);
    OneStep(cfg, s0, x, s, step);
  }

  lemma {:induction false} LiftTerm(cfg: Config, s0: State, x: nat, s: State, steps: seq<TermStep>, t': TermSys,
                                    verdict: bool)
    returns (t: State)
    requires Arrived(cfg, s0, x, s) && x < cfg.n && TermRank.TermPath(cfg, s.term, x, steps, t', verdict)
    requires s.phase[x] == Working && !Active(cfg, s, x)
    requires s.work.desks[x].outstanding > 0 ==> TermRank.OnlyCounts(steps)
    ensures Arrived(cfg, s0, x, t)
    ensures t == s.(term := t', phase := if verdict then s.phase[x := Cleanup] else s.phase)
    decreases |steps|
  {
    if steps == [] {
      t := s;
    } else {
      var mid := Further(cfg, s0, x, s, OnTerm(x, steps[0]));
      if |steps| == 1 {
        t := mid;
      } else {
        t := LiftTerm(cfg, s0, x, mid, steps[1..], t', verdict);
      }
    }
  }

  lemma {:induction false} LiftBarrier(cfg: Config, s0: State, x: nat, s: State, steps: seq<BarrierStep>,
                                       b': BarrierSys, complete: bool)
    returns (t: State)
    requires Arrived(cfg, s0, x, s) && x < cfg.n && BarrierRank.BarrierPath(cfg, s.barrier, x, steps, b', complete)
    requires s.phase[x] == Cleanup
    ensures Arrived(cfg, s0, x, t)
    ensures t == s.(barrier := b', phase := if complete then s.phase[x := Finished] else s.phase)
    decreases |steps|
  {
    if steps == [] {
      t := s;
    } else {
      var mid := Further(cfg, s0, x, s, OnBarrier(x, steps[0]));
      if |steps| == 1 {
        t := mid;
      } else {
        t := LiftBarrier(cfg, s0, x, mid, steps[1..], b', complete);
      }
    }
  }

  lemma {:induction false} LiftAbort(cfg: Config, s0: State, x: nat, s: State, steps: seq<A.AbortStep>, a': A.Sys)
    returns (t: State)
    requires Arrived(cfg, s0, x, s) && x < cfg.n && s.phase[x] != Finished
    requires AbortRank.AbortPath(cfg, s.abort, x, s.phase[x] == Cleanup, steps, a')
    ensures Arrived(cfg, s0, x, t) && t == s.(abort := a')
    decreases |steps|
  {
    if steps == [] {
      t := s;
    } else {
      var mid := Further(cfg, s0, x, s, OnAbort(x, steps[0]));
      t := LiftAbort(cfg, s0, x, mid, steps[1..], a');
    }
  }

  lemma {:induction false} LiftReduce(cfg: Config, s0: State, x: nat, s: State, steps: seq<R.ReduceStep>, r': R.Sys)
    returns (t: State)
    requires Arrived(cfg, s0, x, s) && x < cfg.n && s.phase[x] != Finished
    requires ReduceRank.ReducePath(cfg, s.reduce, x, s.phase[x] == Cleanup, steps, r')
    ensures Arrived(cfg, s0, x, t) && t == s.(reduce := r')
    decreases |steps|
  {
    if steps == [] {
      t := s;
    } else {
      var mid := Further(cfg, s0, x, s, OnReduce(x, steps[0]));
      t := LiftReduce(cfg, s0, x, mid, steps[1..], r');
    }
  }

  lemma {:induction false} LiftServing(cfg: Config, s0: State, x: nat, s: State, steps: seq<W.WorkStep>, w': W.Sys)
    returns (t: State)
    requires Arrived(cfg, s0, x, s) && x < cfg.n && s.phase[x] != Finished && WorkRank.Serves(steps)
    requires WorkRank.WorkPath(cfg.n, s.work, x, s.phase[x] == Cleanup, Aborted(cfg, s, x), steps, w')
    ensures Arrived(cfg, s0, x, t) && t == s.(work := w')
    decreases |steps|
  {
    if steps == [] {
      t := s;
    } else {
      var mid := Further(cfg, s0, x, s, OnWork(x, steps[0]));
      t := LiftServing(cfg, s0, x, mid, steps[1..], w');
    }
  }

  lemma {:induction false} LiftSettling(cfg: Config, s0: State, x: nat, s: State, steps: seq<W.WorkStep>, w': W.Sys)
    returns (t: State)
    requires Arrived(cfg, s0, x, s) && x < cfg.n && s.phase[x] == Working
    requires forall i | 0 <= i < |steps| :: steps[i].DoSettle?
    requires WorkRank.WorkPath(cfg.n, s.work, x, false, Aborted(cfg, s, x), steps, w')
    ensures Arrived(cfg, s0, x, t)
    ensures t == s.(work := w', term := if steps == [] then s.term else s.term.(flags := s.term.flags[x := false]))
    decreases |steps|
  {
    if steps == [] {
      t := s;
    } else {
      var mid := Further(cfg, s0, x, s, OnWork(x, steps[0]));
      t := LiftSettling(cfg, s0, x, mid, steps[1..], w');
    }
  }

  // ----- calls -----

  function PartsOf(s: State): L.Parts {
    L.Parts(s.work, s.term, s.barrier, s.abort, s.reduce)
  }

  /** A work request or the receive of a reply is one step; the abort payload sets the flag. */
  lemma LiftRequest(cfg: Config, s0: State, x: nat, s: State, steps: seq<W.WorkStep>, abort: bool, w': W.Sys)
    returns (t: State)
    requires Arrived(cfg, s0, x, s) && x < cfg.n && s.phase[x] != Finished
    requires WorkRank.RequestOk(cfg.n, x, s.phase[x] == Cleanup, Aborted(cfg, s, x), s.work, steps, abort, w')
    ensures Arrived(cfg, s0, x, t)
    ensures t == s.(work := w', abort := if abort then L.Alarmed(s.abort, x) else s.abort)
  {
    if steps == [] {
      t := s;
    } else {
      OneWorkStep(cfg.n, x, s.phase[x] == Cleanup, Aborted(cfg, s, x), s.work, steps, abort, w');
      t := Further(cfg, s0, x, s, OnWork(x, steps[0]));
    }
  }

  lemma OneWorkStep(n: nat, x: nat, cleanup: bool, aborted: bool, w: W.Sys, steps: seq<W.WorkStep>, abort: bool,
                    w': W.Sys)
    requires |w.desks| == n && x < n && steps != [] && WorkRank.RequestOk(n, x, cleanup, aborted, w, steps, abort, w')
    ensures W.CanWork(n, w, x, steps[0]) && WorkRank.Fits(steps[0], cleanup, aborted)
    ensures w' == W.WorkNext(n, w, x, steps[0], aborted) && !steps[0].DoSettle?
    ensures abort == (steps[0].DoHearNo? && At(w.reply, w.desks[x].source, x)[0].abort)
  {
    assert steps == [steps[0]] && steps[1..] == [];
    assert WorkRank.WorkPath(n, W.WorkNext(n, w, x, steps[0], aborted), x, cleanup, aborted, [], w');
  }

  /** The process callback may call for an abort. */
  lemma LiftProcess(cfg: Config, s0: State, x: nat, s: State, ops: seq<W.Op>, raised: bool) returns (t: State)
    requires Arrived(cfg, s0, x, s) && x < cfg.n && s.phase[x] == Working && !Aborted(cfg, s, x)
    requires W.CanProcess(cfg.n, s.work, x)
    ensures Arrived(cfg, s0, x, t)
    ensures t == s.(work := W.Process(cfg.n, s.work, x, ops),
                    abort := if raised then L.Alarmed(s.abort, x) else s.abort)
  {
    t := Further(cfg, s0, x, s, OnWork(x, W.DoProcess(ops)));
    if raised {
      t := Further(cfg, s0, x, t, OnAbort(x, A.UserAbort));
    }
  }

  lemma LiftStart(cfg: Config, s0: State, x: nat, s: State) returns (t: State)
    requires Arrived(cfg, s0, x, s) && x < cfg.n && s.phase[x] == Cleanup && NothingPending(cfg, s, x)
    ensures Arrived(cfg, s0, x, t) && t == s.(barrier := BarrierNext(cfg, s.barrier, x, Barrier.BarrierStart))
  {
    t := Further(cfg, s0, x, s, OnBarrier(x, Barrier.BarrierStart));
  }

  /** Whether the rank leaves its loop after the call. */
  predicate Leaves(call: L.Call) {
    (call.CheckTerm? && call.verdict) || (call.TestBarrier? && call.complete)
  }

  lemma LiftServingCall(cfg: Config, s0: State, x: nat, cleanup: bool, s: State, call: L.Call, q: L.Parts)
    returns (t: State)
    requires Arrived(cfg, s0, x, s) && x < cfg.n && s.phase[x] == (if cleanup then Cleanup else Working)
    requires L.Shape(cfg, PartsOf(s)) && L.CallOk(cfg, x, cleanup, PartsOf(s), call, q)
    requires call.Serve? || call.Settle?
    ensures Arrived(cfg, s0, x, t) && PartsOf(t) == q
    ensures t.phase == if Leaves(call) then s.phase[x := if cleanup then Finished else Cleanup] else s.phase
  {
    match call
    case Serve(steps, _, _) => t := LiftServing(cfg, s0, x, s, steps, q.work);
    case Settle(steps) => t := LiftSettling(cfg, s0, x, s, steps, q.work);
  }

  lemma LiftWorkCall(cfg: Config, s0: State, x: nat, cleanup: bool, s: State, call: L.Call, q: L.Parts)
    returns (t: State)
    requires Arrived(cfg, s0, x, s) && x < cfg.n && s.phase[x] == (if cleanup then Cleanup else Working)
    requires L.Shape(cfg, PartsOf(s)) && L.CallOk(cfg, x, cleanup, PartsOf(s), call, q)
    requires call.Request? || call.Process?
    ensures Arrived(cfg, s0, x, t) && PartsOf(t) == q
    ensures t.phase == if Leaves(call) then s.phase[x := if cleanup then Finished else Cleanup] else s.phase
  {
    match call
    case Request(steps, abort) => t := LiftRequest(cfg, s0, x, s, steps, abort, q.work);
    case Process(ops, raised) => t := LiftProcess(cfg, s0, x, s, ops, raised);
  }

  lemma LiftSignalCall(cfg: Config, s0: State, x: nat, cleanup: bool, s: State, call: L.Call, q: L.Parts)
    returns (t: State)
    requires Arrived(cfg, s0, x, s) && x < cfg.n && s.phase[x] == (if cleanup then Cleanup else Working)
    requires L.Shape(cfg, PartsOf(s)) && L.CallOk(cfg, x, cleanup, PartsOf(s), call, q)
    requires call.Abort? || call.Reduce?
    ensures Arrived(cfg, s0, x, t) && PartsOf(t) == q
    ensures t.phase == if Leaves(call) then s.phase[x := if cleanup then Finished else Cleanup] else s.phase
  {
    match call
    case Abort(steps) => t := LiftAbort(cfg, s0, x, s, steps, q.abort);
    case Reduce(steps) => t := LiftReduce(cfg, s0, x, s, steps, q.reduce);
  }

  lemma LiftLeavingCall(cfg: Config, s0: State, x: nat, cleanup: bool, s: State, call: L.Call, q: L.Parts)
    returns (t: State)
    requires Arrived(cfg, s0, x, s) && x < cfg.n && s.phase[x] == (if cleanup then Cleanup else Working)
    requires L.Shape(cfg, PartsOf(s)) && L.CallOk(cfg, x, cleanup, PartsOf(s), call, q)
    requires call.CheckTerm? || call.StartBarrier? || call.TestBarrier?
    ensures Arrived(cfg, s0, x, t) && PartsOf(t) == q
    ensures t.phase == if Leaves(call) then s.phase[x := if cleanup then Finished else Cleanup] else s.phase
  {
    match call
    case CheckTerm(steps, verdict) => t := LiftTerm(cfg, s0, x, s, steps, q.term, verdict);
    case StartBarrier => t := LiftStart(cfg, s0, x, s);
    case TestBarrier(steps, complete) => t := LiftBarrier(cfg, s0, x, s, steps, q.barrier, complete);
  }

  /** A call that the code of a rank makes is a sequence of the rank's steps of the protocol. */
  lemma LiftCall(cfg: Config, s0: State, x: nat, cleanup: bool, s: State, call: L.Call, q: L.Parts) returns (t: State)
    requires Arrived(cfg, s0, x, s) && x < cfg.n && s.phase[x] == (if cleanup then Cleanup else Working)
    requires L.Shape(cfg, PartsOf(s)) && L.CallOk(cfg, x, cleanup, PartsOf(s), call, q)
    ensures Arrived(cfg, s0, x, t) && PartsOf(t) == q
    ensures t.phase == if Leaves(call) then s.phase[x := if cleanup then Finished else Cleanup] else s.phase
  {
    if call.Serve? || call.Settle? {
      t := LiftServingCall(cfg, s0, x, cleanup, s, call, q);
    } else if call.Request? || call.Process? {
      t := LiftWorkCall(cfg, s0, x, cleanup, s, call, q);
    } else if call.Abort? || call.Reduce? {
      t := LiftSignalCall(cfg, s0, x, cleanup, s, call, q);
    } else {
      t := LiftLeavingCall(cfg, s0, x, cleanup, s, call, q);
    }
  }
}
