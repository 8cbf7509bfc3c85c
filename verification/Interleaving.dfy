/** A rank makes its calls one after the other, and between any two of them the other ranks take any
    number of steps of any kind. */
module Interleaving {
  import opened Tree
  import W = WorkTransfer
  import A = AbortSignal
  import R = BackgroundReduce
  import opened Protocol
  import opened Moves
  import opened Lift
  import L = WorkLoop

  // ----- what the other ranks do -----

  ghost predicate ByOthers(steps: seq<Step>, x: nat) {
    forall i | 0 <= i < |steps| :: RankOf(steps[i]) != x
  }

  /** The ranks other than `x` can lead the system from `s` to `t`. */
  ghost predicate Meanwhile(cfg: Config, s: State, x: nat, t: State) {
    exists run: seq<State>, steps: seq<Step> ::
      Run(cfg, run, steps) && ByOthers(steps, x) && run[0] == s && run[|steps|] == t
  }

  lemma NothingMeanwhile(cfg: Config, s: State, x: nat)
    ensures Meanwhile(cfg, s, x, s)
  {
    var run: seq<State>, steps: seq<Step> := [s], [];
    assert Run(cfg, run, steps) && ByOthers(steps, x) && run[0] == s && run[|steps|] == s;
  }

  lemma MeanwhileLeads(cfg: Config, s: State, x: nat, t: State)
    requires Meanwhile(cfg, s, x, t)
    ensures LeadsTo(cfg, s, t)
  {
    var run: seq<State>, steps: seq<Step> :|
      Run(cfg, run, steps) && ByOthers(steps, x) && run[0] == s && run[|steps|] == t;
    assert Run(cfg, run, steps) && run[0] == s && run[|steps|] == t;
  }

  lemma RankLeads(cfg: Config, s: State, x: nat, t: State)
    requires Leads(cfg, s, x, t)
    ensures LeadsTo(cfg, s, t)
  {
    var run: seq<State>, steps: seq<Step> :|
      Run(cfg, run, steps) && ByRank(steps, x) && run[0] == s && run[|steps|] == t;
    assert Run(cfg, run, steps) && run[0] == s && run[|steps|] == t;
  }

  /** What one rank does is for another rank a part of what happens meanwhile. */
  lemma OthersPass(cfg: Config, s: State, y: nat, t: State, x: nat)
    requires Leads(cfg, s, y, t) && x != y
    ensures Meanwhile(cfg, s, x, t)
  {
    var run: seq<State>, steps: seq<Step> :|
      Run(cfg, run, steps) && ByRank(steps, y) && run[0] == s && run[|steps|] == t;
    assert Run(cfg, run, steps) && ByOthers(steps, x) && run[0] == s && run[|steps|] == t;
  }

  /** So is what follows it. */
  lemma MeanwhileOn(cfg: Config, s: State, x: nat, mid: State, t: State)
    requires Meanwhile(cfg, s, x, mid) && Meanwhile(cfg, mid, x, t)
    ensures Meanwhile(cfg, s, x, t)
  {
    var run: seq<State>, steps: seq<Step> :|
      Run(cfg, run, steps) && ByOthers(steps, x) && run[0] == s && run[|steps|] == mid;
    var run1: seq<State>, steps1: seq<Step> :|
      Run(cfg, run1, steps1) && ByOthers(steps1, x) && run1[0] == mid && run1[|steps1|] == t;
    RunsJoin(cfg, run, steps, run1, steps1);
    var run', steps' := run[..|steps|] + run1, steps + steps1;
    assert Run(cfg, run', steps') && ByOthers(steps', x) && run'[0] == s && run'[|steps'|] == t;
  }

  // ----- what they leave alone -----

  /** The variables of rank `x` are the same. */
  ghost predicate SameRank(cfg: Config, s: State, t: State, x: nat) {
    && Shape(cfg, s) && Shape(cfg, t) && x < cfg.n
    && t.phase[x] == s.phase[x] && L.SameVariables(cfg, PartsOf(s), PartsOf(t), x)
  }

  lemma OtherDesk(n: nat, w: W.Sys, y: nat, step: W.WorkStep, abort: bool, x: nat)
    requires |w.desks| == n && W.CanWork(n, w, y, step) && x < n && x != y
    ensures W.WorkNext(n, w, y, step, abort).desks[x] == w.desks[x]
  {
  }

  lemma OtherAlarm(cfg: Config, a: A.Sys, y: nat, step: A.AbortStep, cleanup: bool, x: nat)
    requires A.Shape(cfg, a) && A.CanAbort(cfg, a, y, step) && x < cfg.n && x != y
    ensures A.AbortNext(cfg, a, y, step, cleanup).alarms[x] == a.alarms[x]
  {
  }

  lemma OtherReduction(cfg: Config, r: R.Sys, y: nat, step: R.ReduceStep, x: nat)
    requires R.Shape(cfg, r) && R.CanReduce(cfg, r, y, step) && x < cfg.n && x != y
    ensures R.ReduceNext(cfg, r, y, step).ranks[x] == r.ranks[x]
  {
  }

  lemma OtherStepLeavesAlone(cfg: Config, s: State, step: Step, x: nat)
    requires Shape(cfg, s) && Enabled(cfg, s, step) && RankOf(step) != x && x < cfg.n
    ensures SameRank(cfg, s, Apply(cfg, s, step), x)
  {
    match step
    case OnWork(y, a) => OtherDesk(cfg.n, s.work, y, a, Aborted(cfg, s, y), x);
    case OnAbort(y, a) => OtherAlarm(cfg, s.abort, y, a, s.phase[y] == Cleanup, x);
    case OnReduce(y, a) => OtherReduction(cfg, s.reduce, y, a, x);
    case OnTerm(y, a) =>
    case OnBarrier(y, a) =>
  }

  lemma {:induction false} OtherStepsLeaveAlone(cfg: Config, run: seq<State>, steps: seq<Step>, x: nat, i: nat)
    requires Run(cfg, run, steps) && ByOthers(steps, x) && i <= |steps| && Shape(cfg, run[0]) && x < cfg.n
    ensures SameRank(cfg, run[0], run[i], x)
  {
    if i > 0 {
      var before, step, after := run[i - 1], steps[i - 1], run[i];
      assert StepAt(cfg, run, steps, i - 1);
      OtherStepsLeaveAlone(cfg, run, steps, x, i - 1);
      OtherStepLeavesAlone(cfg, before, step, x);
    }
  }

  /** The other ranks change none of a rank's variables. */
  lemma MeanwhileLeavesAlone(cfg: Config, s: State, x: nat, t: State)
    requires Meanwhile(cfg, s, x, t) && Shape(cfg, s) && x < cfg.n
    ensures SameRank(cfg, s, t, x)
  {
    var run: seq<State>, steps: seq<Step> :|
      Run(cfg, run, steps) && ByOthers(steps, x) && run[0] == s && run[|steps|] == t;
    OtherStepsLeaveAlone(cfg, run, steps, x, |steps|);
  }

  // ----- the calls of a rank -----

  /** A call, and the states of the system before and after it. */
  datatype Moment = Moment(before: State, call: L.Call, after: State)

  /** The call has left nothing undone. */
  ghost predicate Careful(cfg: Config, x: nat, cleanup: bool, m: Moment) {
    exists late: set<nat>, sent: bool ::
      late == {} && sent && L.Thorough(cfg, x, cleanup, PartsOf(m.before), m.call, PartsOf(m.after), late, sent)
  }

  /** Rank `x` makes a call; if it is `alert`, it leaves nothing undone. */
  ghost predicate MomentOk(cfg: Config, x: nat, cleanup: bool, alert: bool, m: Moment) {
    && Shape(cfg, m.before) && Leads(cfg, m.before, x, m.after)
    && L.Follows(cfg, x, cleanup, PartsOf(m.before), m.call, PartsOf(m.after))
    && (alert ==> Careful(cfg, x, cleanup, m))
  }

  /** The phase of a rank in one of its loops, or after it. */
  function PhaseIn(cleanup: bool, left: bool): Phase {
    if left then (if cleanup then Finished else Cleanup) else if cleanup then Cleanup else Working
  }

  /** The system is in the reachable state `t`, and rank `x` in its loop, or no longer if it has `left`. */
  ghost predicate Stands(cfg: Config, x: nat, cleanup: bool, t: State, left: bool) {
    Shape(cfg, t) && Reachable(cfg, t) && x < cfg.n && t.phase[x] == PhaseIn(cleanup, left)
  }

  /** The state after the calls of `pass`, which find state `s`. */
  ghost function EndOf(s: State, pass: seq<Moment>): State {
    if pass == [] then s else pass[|pass| - 1].after
  }

  /** Rank `x` makes the calls of `pass` from state `s` on, which lead to `p`, and the other ranks act
      between them; the last call takes the rank out of its loop if it has `left`. */
  ghost predicate Trace(cfg: Config, x: nat, cleanup: bool, alert: bool, s: State, pass: seq<Moment>, p: L.Parts,
                        left: bool)
    decreases |pass|
  {
    && Stands(cfg, x, cleanup, EndOf(s, pass), left) && PartsOf(EndOf(s, pass)) == p
    && (pass != [] ==>
          var earlier, last := pass[..|pass| - 1], pass[|pass| - 1];
          && Trace(cfg, x, cleanup, alert, s, earlier, PartsOf(EndOf(s, earlier)), false)
          && Meanwhile(cfg, EndOf(s, earlier), x, last.before) && MomentOk(cfg, x, cleanup, alert, last))
  }

  /** Between two calls the system goes on by steps of the protocol. */
  lemma {:induction false} TraceLeads(cfg: Config, x: nat, cleanup: bool, alert: bool, s: State, pass: seq<Moment>,
                                      p: L.Parts, left: bool, i: nat)
    requires Trace(cfg, x, cleanup, alert, s, pass, p, left) && i < |pass|
    ensures MomentOk(cfg, x, cleanup, alert, pass[i])
    ensures LeadsTo(cfg, s, pass[i].before) && LeadsTo(cfg, pass[i].after, EndOf(s, pass))
    decreases |pass|
  {
    var earlier, last := pass[..|pass| - 1], pass[|pass| - 1];
    MeanwhileLeads(cfg, EndOf(s, earlier), x, last.before);
    RankLeads(cfg, last.before, x, last.after);
    TraceEnds(cfg, x, cleanup, alert, s, earlier, PartsOf(EndOf(s, earlier)), false);
    LeadsOn(cfg, s, EndOf(s, earlier), last.before);
    if i == |pass| - 1 {
      LeadsToItself(cfg, last.after);
    } else {
      TraceLeads(cfg, x, cleanup, alert, s, earlier, PartsOf(EndOf(s, earlier)), false, i);
      LeadsOn(cfg, pass[i].after, EndOf(s, earlier), last.before);
      LeadsOn(cfg, pass[i].after, last.before, last.after);
    }
  }

  lemma {:induction false} TraceEnds(cfg: Config, x: nat, cleanup: bool, alert: bool, s: State, pass: seq<Moment>,
                                     p: L.Parts, left: bool)
    requires Trace(cfg, x, cleanup, alert, s, pass, p, left)
    ensures LeadsTo(cfg, s, EndOf(s, pass)) && Stands(cfg, x, cleanup, EndOf(s, pass), left)
    ensures PartsOf(EndOf(s, pass)) == p
    decreases |pass|
  {
    if pass == [] {
      LeadsToItself(cfg, s);
    } else {
      var earlier, last := pass[..|pass| - 1], pass[|pass| - 1];
      TraceEnds(cfg, x, cleanup, alert, s, earlier, PartsOf(EndOf(s, earlier)), false);
      MeanwhileLeads(cfg, EndOf(s, earlier), x, last.before);
      RankLeads(cfg, last.before, x, last.after);
      LeadsOn(cfg, s, EndOf(s, earlier), last.before);
      LeadsOn(cfg, s, last.before, last.after);
    }
  }

  /** A call that the code makes in a reachable state leads to a reachable state. */
  lemma CallReaches(cfg: Config, x: nat, cleanup: bool, s: State, call: L.Call, q: L.Parts) returns (t: State)
    requires Stands(cfg, x, cleanup, s, false) && L.Follows(cfg, x, cleanup, PartsOf(s), call, q)
    ensures Stands(cfg, x, cleanup, t, Leaves(call)) && Leads(cfg, s, x, t) && PartsOf(t) == q
  {
    LeadsToSelf(cfg, s, x);
    t := LiftCall(cfg, s, x, cleanup, s, call, q);
  }

  /** After the calls of `pass` other ranks have led the system to `mid`. */
  ghost predicate Paused(cfg: Config, x: nat, cleanup: bool, alert: bool, s: State, pass: seq<Moment>, mid: State) {
    && Trace(cfg, x, cleanup, alert, s, pass, PartsOf(EndOf(s, pass)), false)
    && Meanwhile(cfg, EndOf(s, pass), x, mid) && Stands(cfg, x, cleanup, mid, false)
  }

  /** One call more. */
  lemma Grow(cfg: Config, x: nat, cleanup: bool, alert: bool, s: State, pass: seq<Moment>, mid: State, call: L.Call,
             q: L.Parts, late: set<nat>, sent: bool)
    returns (m: Moment)
    ensures m.call == call
    ensures Paused(cfg, x, cleanup, alert, s, pass, mid) && L.Did(cfg, x, cleanup, PartsOf(mid), call, q, late, sent)
            && (alert ==> late == {} && sent) ==>
              m.before == mid && Trace(cfg, x, cleanup, alert, s, pass + [m], q, Leaves(call))
  {
    m := Moment(mid, call, mid);
    if Paused(cfg, x, cleanup, alert, s, pass, mid) && L.Did(cfg, x, cleanup, PartsOf(mid), call, q, late, sent)
       && (alert ==> late == {} && sent) {
      var t := CallReaches(cfg, x, cleanup, mid, call, q);
      m := Moment(mid, call, t);
      assert (pass + [m])[..|pass|] == pass;
    }
  }
}
