/** What holds when the code of one rank has made a pass through one of its loops, from any reachable
    state on and while the other ranks act. */
module CodeSafety {
  import opened Tree
  import opened Protocol
  import opened Invariant
  import opened Moves
  import opened Lift
  import opened Safety
  import opened Interleaving
  import opened Passes
  import WT = WorkTransfer
  import L = WorkLoop
  import P = CleanupProgress
  import T = TermDiligence
  import C = CleanupDiligence
  import D = WorkDiligence
  import A = AbortDiligence

  /** How a rank passes through its loops: whether its options let it call for background reductions,
      which they do not by default, and whether its callback dequeues when it is called. */
  datatype Manner = Manner(reduces: bool, dequeues: bool)

  function MannerOf(inp: L.Inputs): Manner {
    Manner(inp.reduceEnabled, WT.Dequeue in inp.ops)
  }

  /** With nothing unnoticed, the pass of rank `x` makes the progress that the rank can make. */
  ghost predicate Diligent(cfg: Config, x: nat, how: Manner, s: State, t: State) {
    && T.Diligent(cfg, x, s, t) && C.Diligent(cfg, x, how.reduces, s, t) && A.Diligent(cfg, x, s, t)
    && (how.dequeues ==> D.Diligent(cfg, x, s, t))
  }

  /** A stretch that contains a diligent pass of `x` is diligent itself, whatever the ranks do before and
      after the pass. */
  lemma Wider(cfg: Config, x: nat, how: Manner, s: State, mid: State, next: State, t: State)
    requires LeadsTo(cfg, s, mid) && Diligent(cfg, x, how, mid, next) && LeadsTo(cfg, next, t)
    ensures Diligent(cfg, x, how, s, t)
  {
    T.Wider(cfg, x, s, mid, next, t);
    C.Wider(cfg, x, how.reduces, s, mid, next, t);
    A.Wider(cfg, x, s, mid, next, t);
    if how.dequeues {
      D.Wider(cfg, x, s, mid, next, t);
    }
  }

  // ----- the main loop -----

  /** No rank has items that it would process, no transfer or receipt is in flight, and every account
      is settled. */
  ghost predicate WorkIsDone(cfg: Config, t: State)
    requires Shape(cfg, t)
  {
    && NoTransfers(cfg, t)
    && forall y: nat | y < cfg.n ::
         (t.work.desks[y].queue == [] || Aborted(cfg, t, y)) && t.work.desks[y].outstanding == 0
  }

  /** When a pass through the main loop of rank `x` returns TERMINATE, no rank has items that it would
      process, and no transfer or receipt is in flight. */
  lemma MainPassSafety(cfg: Config, x: nat, alert: bool, s: State, pass: seq<Moment>, p: L.Parts, terminate: bool)
    requires Trace(cfg, x, false, alert, s, pass, p, terminate)
    ensures var t := EndOf(s, pass);
            && Stands(cfg, x, false, t, terminate) && LeadsTo(cfg, s, t) && (terminate ==> WorkIsDone(cfg, t))
  {
    TraceEnds(cfg, x, false, alert, s, pass, p, terminate);
    if terminate {
      TerminationSafety(cfg, EndOf(s, pass), x);
    }
  }

  /** With nothing unnoticed it is diligent. */
  lemma MainPassDiligence(cfg: Config, x: nat, inp: L.Inputs, s: State, upkeep: seq<Moment>, fed: seq<Moment>,
                          pass: seq<Moment>, p: L.Parts, terminate: bool)
    requires Trace(cfg, x, false, true, s, pass, p, terminate) && Stands(cfg, x, false, s, false)
    requires D.WholePass(s, x, inp, upkeep, fed, pass)
    ensures Diligent(cfg, x, MannerOf(inp), s, EndOf(s, pass))
  {
    TraceEnds(cfg, x, false, true, s, pass, p, terminate);
    T.PassIsDiligent(cfg, x, s, inp.ops, fed, pass, p, terminate);
    C.DiligentElsewhere(cfg, x, inp.reduceEnabled, s, EndOf(s, pass));
    A.PassIsDiligent(cfg, x, inp, s, upkeep, pass, p, terminate);
    if WT.Dequeue in inp.ops {
      D.PassIsDiligent(cfg, x, inp, s, upkeep, fed, pass, p, terminate);
    }
  }

  /** One pass through the main loop of a rank. */
  method RunMain(r: L.Rank, inp: L.Inputs, ghost s: State) returns (terminate: bool, ghost t: State)
    requires Stands(r.cfg, r.rank, false, s, false) && r.Has(PartsOf(s)) && r.GoodNext(inp.next)
    modifies r.Repr()
    ensures Stands(r.cfg, r.rank, false, t, terminate) && r.Has(PartsOf(t)) && LeadsTo(r.cfg, s, t)
    ensures terminate ==> WorkIsDone(r.cfg, t)
    ensures Alert(inp) ==> Diligent(r.cfg, r.rank, MannerOf(inp), s, t)
  {
    ghost var upkeep, fed, pass;
    terminate, upkeep, fed, pass := MainPass(r, inp, s);
    t := EndOf(s, pass);
    MainPassSafety(r.cfg, r.rank, Alert(inp), s, pass, PartsOf(t), terminate);
    if Alert(inp) {
      MainPassDiligence(r.cfg, r.rank, inp, s, upkeep, fed, pass, PartsOf(t), terminate);
    }
  }

  // ----- the cleanup loop -----

  /** When a pass through the cleanup loop of rank `x` finds the barrier complete, every rank has
      started it, and nothing but barrier messages is in flight. */
  lemma CleanupPassSafety(cfg: Config, x: nat, alert: bool, s: State, pass: seq<Moment>, p: L.Parts, complete: bool)
    requires Trace(cfg, x, true, alert, s, pass, p, complete)
    ensures var t := EndOf(s, pass);
            && Stands(cfg, x, true, t, complete) && LeadsTo(cfg, s, t)
            && (complete ==> NothingInFlight(cfg, t) && forall y: nat | y < cfg.n :: HasStarted(cfg, t, y))
  {
    TraceEnds(cfg, x, true, alert, s, pass, p, complete);
    if complete {
      CleanupQuiescence(cfg, EndOf(s, pass), x);
    }
  }

  /** With nothing unnoticed it is diligent. */
  lemma CleanupPassDiligence(cfg: Config, x: nat, how: Manner, sendsDone: bool, s: State, tried: seq<Moment>,
                             served: seq<Moment>, pass: seq<Moment>, p: L.Parts, complete: bool)
    requires Trace(cfg, x, true, true, s, pass, p, complete) && Stands(cfg, x, true, s, false)
    requires !complete ==> C.WholePass(s, x, how.reduces, sendsDone, tried, served, pass)
    requires s.work.desks[x].requestors == [] && (P.SendsReceived(cfg, s, x) ==> sendsDone)
    ensures Diligent(cfg, x, how, s, EndOf(s, pass))
  {
    TraceEnds(cfg, x, true, true, s, pass, p, complete);
    C.PassIsDiligent(cfg, x, how.reduces, sendsDone, s, tried, served, pass, p, complete);
    T.DiligentElsewhere(cfg, x, s, EndOf(s, pass));
    D.DiligentElsewhere(cfg, x, s, EndOf(s, pass));
    A.DiligentElsewhere(cfg, x, s, EndOf(s, pass));
  }

  /** One pass through the cleanup loop of a rank.  It is diligent if nothing stays unnoticed, and MPI
      finds the rank's sends complete when they have been received. */
  method RunCleanup(r: L.Rank, inp: L.Inputs, ghost s: State) returns (complete: bool, ghost t: State)
    requires Stands(r.cfg, r.rank, true, s, false) && r.Has(PartsOf(s)) && r.GoodNext(inp.next)
    modifies r.Repr()
    ensures Stands(r.cfg, r.rank, true, t, complete) && r.Has(PartsOf(t)) && LeadsTo(r.cfg, s, t)
    ensures complete ==> NothingInFlight(r.cfg, t) && forall y: nat | y < r.cfg.n :: HasStarted(r.cfg, t, y)
    ensures Alert(inp) && (P.SendsReceived(r.cfg, s, r.rank) ==> inp.sendsDone) ==>
              Diligent(r.cfg, r.rank, Manner(inp.reduceEnabled, true), s, t)
  {
    ghost var tried, served, pass;
    complete, tried, served, pass := CleanupPass(r, inp, s);
    t := EndOf(s, pass);
    CleanupPassSafety(r.cfg, r.rank, Alert(inp), s, pass, PartsOf(t), complete);
    if Alert(inp) && (P.SendsReceived(r.cfg, s, r.rank) ==> inp.sendsDone) {
      CleanupPassDiligence(r.cfg, r.rank, Manner(inp.reduceEnabled, true), inp.sendsDone, s, tried, served, pass,
                           PartsOf(t), complete);
    }
  }
}
