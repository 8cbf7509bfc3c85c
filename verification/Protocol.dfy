/** The work loop of all ranks in tree mode, as one state machine.

    A state holds the variables of every rank and every message in flight.  A step is one
    atomic action of one rank: at most one receive, with the local changes and the sends
    that follow it.  A call made by the work loop is a sequence of such steps, so every
    interleaving of calls, and every message delay, is an interleaving of steps.
 */
module Protocol {
  import opened Channels
  import opened Tree
  import H = Handshake
  import W = WorkTransfer
  import A = AbortSignal
  import R = BackgroundReduce
  import opened Termination
  import opened Barrier

  datatype Phase =
    | Working   // in the main loop
    | Cleanup   // in the cleanup loop
    | Finished  // the cleanup barrier has completed

  datatype State = State(
    phase: seq<Phase>,
    work: W.Sys,
    term: TermSys,
    barrier: BarrierSys,
    abort: A.Sys,
    reduce: R.Sys)

  ghost predicate Shape(cfg: Config, s: State) {
    && cfg.Valid()
    && |s.phase| == cfg.n && |s.work.desks| == cfg.n
    && TermShape(cfg, s.term)
    && BarrierShape(cfg, s.barrier)
    && A.Shape(cfg, s.abort) && R.Shape(cfg, s.reduce)
  }

  // ----- guards -----

  ghost predicate Aborted(cfg: Config, s: State, x: nat)
    requires Shape(cfg, s) && x < cfg.n
  {
    s.abort.alarms[x].flag
  }

  /** The rank has items and goes on to process them. */
  ghost predicate Active(cfg: Config, s: State, x: nat)
    requires Shape(cfg, s) && x < cfg.n
  {
    s.work.desks[x].queue != [] && !Aborted(cfg, s, x)
  }

  /** The loop checks for termination only when the rank is not active, and the allreduce
      does not move past the gathering of children while transfers are outstanding. */
  ghost predicate MayConclude(cfg: Config, s: State, x: nat)
    requires Shape(cfg, s) && x < cfg.n
  {
    s.phase[x] == Working && !Active(cfg, s, x) && s.work.desks[x].outstanding == 0
  }

  /** What the loop waits for before it starts the barrier. */
  ghost predicate NothingPending(cfg: Config, s: State, x: nat)
    requires Shape(cfg, s) && x < cfg.n
  {
    && !s.work.desks[x].requested
    && !s.reduce.ranks[x].outstanding
    && !s.abort.alarms[x].outstanding
  }

  // ----- work transfer -----

  /** Items move only between ranks in the main loop that have not aborted, and so do new
      requests; everything else is served in the cleanup phase too. */
  ghost predicate WorkEnabled(cfg: Config, s: State, x: nat, step: W.WorkStep)
    requires Shape(cfg, s)
  {
    && x < cfg.n && W.CanWork(cfg.n, s.work, x, step) && s.phase[x] != Finished
    && (step.DoAsk? || step.DoShare? || step.DoProcess? ==> s.phase[x] == Working && !Aborted(cfg, s, x))
    && (step.DoSettle? ==> s.phase[x] == Working)
  }

  /** The abort payload of a work reply sets the receiver's abort flag. */
  ghost predicate HearsAbort(cfg: Config, s: State, x: nat, step: W.WorkStep)
    requires Shape(cfg, s) && WorkEnabled(cfg, s, x, step)
  {
    step.DoHearNo? && At(s.work.reply, s.work.desks[x].source, x)[0].abort
  }

  ghost function WorkAfter(cfg: Config, s: State, x: nat, step: W.WorkStep): (w: W.Sys)
    requires Shape(cfg, s) && WorkEnabled(cfg, s, x, step)
    ensures |w.desks| == cfg.n
  {
    W.WorkNext(cfg.n, s.work, x, step, Aborted(cfg, s, x))
  }

  /** A receipt forces another round of the termination allreduce. */
  ghost function DoWork(cfg: Config, s: State, x: nat, step: W.WorkStep): (s': State)
    requires Shape(cfg, s) && WorkEnabled(cfg, s, x, step)
    ensures Shape(cfg, s')
  {
    s.(work := WorkAfter(cfg, s, x, step),
       term := if step.DoSettle? then s.term.(flags := s.term.flags[x := false]) else s.term,
       abort := if HearsAbort(cfg, s, x, step) then FlagRaised(s.abort, x) else s.abort)
  }

  ghost function FlagRaised(a: A.Sys, x: nat): A.Sys
    requires x < |a.alarms|
  {
    a.(alarms := a.alarms[x := A.SetFlag(a.alarms[x])])
  }

  // ----- abort -----

  ghost predicate AbortEnabled(cfg: Config, s: State, x: nat, step: A.AbortStep)
    requires Shape(cfg, s)
  {
    A.CanAbort(cfg, s.abort, x, step) && s.phase[x] != Finished
  }

  ghost function AbortAfter(cfg: Config, s: State, x: nat, step: A.AbortStep): (a: A.Sys)
    requires Shape(cfg, s) && AbortEnabled(cfg, s, x, step)
    ensures A.Shape(cfg, a)
  {
    A.AbortNext(cfg, s.abort, x, step, s.phase[x] == Cleanup)
  }

  // ----- background reduction -----

  /** In the cleanup phase no reduction is started, and a start message is declined. */
  ghost predicate ReduceEnabled(cfg: Config, s: State, x: nat, step: R.ReduceStep)
    requires Shape(cfg, s)
  {
    && R.CanReduce(cfg, s.reduce, x, step) && s.phase[x] != Finished
    && (step.ReduceStart? ==> s.phase[x] == Working)
    && (step.ReduceDecline? ==> s.phase[x] == Cleanup)
  }

  ghost function ReduceAfter(cfg: Config, s: State, x: nat, step: R.ReduceStep): (r: R.Sys)
    requires Shape(cfg, s) && ReduceEnabled(cfg, s, x, step)
    ensures R.Shape(cfg, r)
  {
    R.ReduceNext(cfg, s.reduce, x, step)
  }

  // ----- termination allreduce -----

  ghost predicate TermEnabled(cfg: Config, s: State, x: nat, step: TermStep)
    requires Shape(cfg, s)
  {
    && CanTerm(cfg, s.term, x, step)
    && if step.TermCount? then s.phase[x] == Working && !Active(cfg, s, x) else MayConclude(cfg, s, x)
  }

  /** The result that a step brings to `x` is 1. */
  ghost predicate Concludes(cfg: Config, s: State, x: nat, step: TermStep)
    requires Shape(cfg, s) && TermEnabled(cfg, s, x, step)
  {
    Verdict(cfg, s.term, x, step)
  }

  ghost function TermAfter(cfg: Config, s: State, x: nat, step: TermStep): (t: TermSys)
    requires Shape(cfg, s) && TermEnabled(cfg, s, x, step)
    ensures TermShape(cfg, t)
  {
    TermNext(cfg, s.term, x, step)
  }

  /** A rank whose result is 1 leaves the main loop. */
  ghost function DoTerm(cfg: Config, s: State, x: nat, step: TermStep): (s': State)
    requires Shape(cfg, s) && TermEnabled(cfg, s, x, step)
    ensures Shape(cfg, s')
  {
    s.(term := TermAfter(cfg, s, x, step),
       phase := if Concludes(cfg, s, x, step) then s.phase[x := Cleanup] else s.phase)
  }

  // ----- cleanup barrier -----

  ghost predicate BarrierEnabled(cfg: Config, s: State, x: nat, step: BarrierStep)
    requires Shape(cfg, s)
  {
    && CanBarrier(cfg, s.barrier, x, step) && s.phase[x] == Cleanup
    && (step.BarrierStart? ==> NothingPending(cfg, s, x))
  }

  ghost function BarrierAfter(cfg: Config, s: State, x: nat, step: BarrierStep): (b: BarrierSys)
    requires Shape(cfg, s) && BarrierEnabled(cfg, s, x, step)
    ensures BarrierShape(cfg, b)
  {
    BarrierNext(cfg, s.barrier, x, step)
  }

  ghost function DoBarrier(cfg: Config, s: State, x: nat, step: BarrierStep): (s': State)
    requires Shape(cfg, s) && BarrierEnabled(cfg, s, x, step)
    ensures Shape(cfg, s')
  {
    s.(barrier := BarrierAfter(cfg, s, x, step),
       phase := if step.BarrierRoot? || step.BarrierFall? then s.phase[x := Finished] else s.phase)
  }

  // ----- any step of any rank -----

  datatype Step =
    | OnWork(x: nat, work: W.WorkStep)
    | OnAbort(x: nat, abort: A.AbortStep)
    | OnReduce(x: nat, reduce: R.ReduceStep)
    | OnTerm(x: nat, term: TermStep)
    | OnBarrier(x: nat, barrier: BarrierStep)

  ghost predicate Enabled(cfg: Config, s: State, step: Step)
    requires Shape(cfg, s)
  {
    match step
    case OnWork(x, a) => WorkEnabled(cfg, s, x, a)
    case OnAbort(x, a) => AbortEnabled(cfg, s, x, a)
    case OnReduce(x, a) => ReduceEnabled(cfg, s, x, a)
    case OnTerm(x, a) => TermEnabled(cfg, s, x, a)
    case OnBarrier(x, a) => BarrierEnabled(cfg, s, x, a)
  }

  ghost function Apply(cfg: Config, s: State, step: Step): (s': State)
    requires Shape(cfg, s) && Enabled(cfg, s, step)
    ensures Shape(cfg, s')
  {
    match step
    case OnWork(x, a) => DoWork(cfg, s, x, a)
    case OnAbort(x, a) => s.(abort := AbortAfter(cfg, s, x, a))
    case OnReduce(x, a) => s.(reduce := ReduceAfter(cfg, s, x, a))
    case OnTerm(x, a) => DoTerm(cfg, s, x, a)
    case OnBarrier(x, a) => DoBarrier(cfg, s, x, a)
  }

  // ----- runs -----

  /** All ranks enter the work loop: queues filled by the create callbacks, nothing in flight. */
  ghost predicate Initial(cfg: Config, s: State) {
    && Shape(cfg, s)
    && W.Initial(cfg.n, s.work)
    && s.term.chan == map[] && s.barrier.chan == map[]
    && s.abort.request == map[] && s.abort.reply == map[] && s.reduce.chan == map[]
    && forall x: nat | x < cfg.n ::
         && s.phase[x] == Working
         && s.term.nodes[x] == H.START && s.term.flags[x]
         && s.barrier.nodes[x] == H.START && !s.barrier.started[x]
         && s.abort.alarms[x] == A.Alarm(s.abort.alarms[x].flag, false, false, {})
         && !s.reduce.ranks[x].outstanding && s.reduce.ranks[x].epoch == 0 == s.reduce.ranks[x].gaveEpoch
  }

  /** `step` can be taken in `s` and leads to `s'`. */
  ghost predicate Takes(cfg: Config, s: State, step: Step, s': State) {
    Shape(cfg, s) && Enabled(cfg, s, step) && s' == Apply(cfg, s, step)
  }

  /** `run` is a sequence of states that `steps` lead through. */
  ghost predicate Run(cfg: Config, run: seq<State>, steps: seq<Step>) {
    && |run| == |steps| + 1
    && forall i: nat | i < |steps| :: StepAt(cfg, run, steps, i)
  }

  /** Step `i` leads from state `i` to the next. */
  ghost predicate StepAt(cfg: Config, run: seq<State>, steps: seq<Step>, i: nat)
    requires |run| == |steps| + 1 && i < |steps|
  {
    Takes(cfg, run[i], steps[i], run[i + 1])
  }

  ghost predicate Reachable(cfg: Config, s: State) {
    && Shape(cfg, s)
    && exists run: seq<State>, steps: seq<Step> :: Run(cfg, run, steps) && Initial(cfg, run[0]) && run[|steps|] == s
  }
}
