/** Once no work is left, a pass through the main loop in which nothing stays unnoticed takes the
    allreduce further, if the rank can. */
module TermDiligence {
  import opened Tree
  import W = WorkTransfer
  import T = TermRank
  import opened Termination
  import opened Protocol
  import opened Invariant
  import opened Moves
  import opened Lift
  import opened Liveness
  import opened Interleaving
  import opened Passes
  import L = WorkLoop

  ghost predicate Calm(cfg: Config, s: State) {
    Inv(cfg, s) && Quiet(cfg, s)
  }

  /** The allreduce is where it was. */
  ghost predicate SameTerm(cfg: Config, s: State, t: State) {
    && Shape(cfg, s) && Shape(cfg, t) && t.term == s.term
    && forall z: nat | z < cfg.n :: t.phase[z] == Working <==> s.phase[z] == Working
  }

  lemma StepStaysSame(cfg: Config, s: State, step: Step)
    requires Calm(cfg, s) && Enabled(cfg, s, step) && !step.OnTerm?
    ensures SameTerm(cfg, s, Apply(cfg, s, step))
  {
    NoSettling(cfg, s, step);
  }

  /** The allreduce has advanced, or is where it was. */
  ghost predicate RisesOrStays(cfg: Config, s: State, t: State) {
    && Calm(cfg, s) && Calm(cfg, t)
    && (Potential(cfg, t.term) > Potential(cfg, s.term)
        || (Potential(cfg, t.term) == Potential(cfg, s.term) && SameTerm(cfg, s, t)))
  }

  lemma StepRises(cfg: Config, s0: State, s: State, step: Step, t: State)
    requires RisesOrStays(cfg, s0, s) && Takes(cfg, s, step, t)
    ensures RisesOrStays(cfg, s0, t)
  {
    TakesKeepsInv(cfg, s, step, t);
    QuietKept(cfg, s, step);
    PotentialRises(cfg, s, step);
    if !step.OnTerm? {
      StepStaysSame(cfg, s, step);
    }
    SameOn(cfg, s0, s, t);
  }

  lemma SameOn(cfg: Config, s0: State, s: State, t: State)
    ensures SameTerm(cfg, s0, s) && SameTerm(cfg, s, t) ==> SameTerm(cfg, s0, t)
  {
  }

  lemma AtFirst(cfg: Config, s: State)
    ensures Calm(cfg, s) ==> RisesOrStays(cfg, s, s)
  {
  }

  lemma Rises(cfg: Config, s: State, t: State)
    requires LeadsTo(cfg, s, t) && Calm(cfg, s)
    ensures RisesOrStays(cfg, s, t)
  {
    AtFirst(cfg, s);
    var rises := (u: State) => RisesOrStays(cfg, s, u);
    forall a: State, step: Step, b: State | rises(a) && Takes(cfg, a, step, b) ensures rises(b) {
      StepRises(cfg, s, a, step, b);
    }
    KeptOnTheWay(cfg, s, t, rises);
  }

  // ----- a rank that can go on -----

  /** Rank `x` can take a step of the allreduce. */
  ghost predicate CanGoOn(cfg: Config, s: State, x: nat)
    requires Shape(cfg, s)
  {
    exists step: TermStep :: TermEnabled(cfg, s, x, step)
  }

  lemma GoingOnStays(cfg: Config, s: State, t: State, x: nat)
    requires Calm(cfg, s) && Calm(cfg, t) && SameTerm(cfg, s, t) && CanGoOn(cfg, s, x)
    ensures CanGoOn(cfg, t, x)
  {
    var step: TermStep :| TermEnabled(cfg, s, x, step);
    assert !Owing(cfg, t, x);
    assert TermEnabled(cfg, t, x, step);
  }

  /** After a check for termination that takes no step, none is left. */
  lemma CheckLeavesNone(cfg: Config, x: nat, s: State, m: Moment, step: TermStep)
    requires x < cfg.n && m.call.CheckTerm? && MomentOk(cfg, x, false, true, m)
    requires SameTerm(cfg, s, m.before) && SameTerm(cfg, s, m.after) && Calm(cfg, m.after)
    ensures !CanTerm(cfg, s.term, x, step)
  {
    var steps := m.call.terms;
    if steps != [] {
      T.PathGoesOn(cfg, m.before.term, x, steps, m.after.term, m.call.verdict);
    }
    assert !Owing(cfg, m.after, x);
    assert T.NoneCompletes([]);
  }

  // ----- a pass -----

  lemma SamePotentialBetween(cfg: Config, s: State, mid: State, t: State)
    requires Calm(cfg, s) && Shape(cfg, t) && Potential(cfg, t.term) == Potential(cfg, s.term)
    requires LeadsTo(cfg, s, mid) && LeadsTo(cfg, mid, t)
    ensures Calm(cfg, mid) && SameTerm(cfg, s, mid)
  {
    Rises(cfg, s, mid);
    Rises(cfg, mid, t);
  }

  /** Without work left, the last call of a pass is a check for termination. */
  lemma LastCallChecks(cfg: Config, x: nat, s: State, ops: seq<W.Op>, fed: seq<Moment>, pass: seq<Moment>,
                       p: L.Parts, left: bool)
    requires Calm(cfg, s) && x < cfg.n && Trace(cfg, x, false, true, s, pass, p, left)
    requires Acted(PartsOf(EndOf(s, fed)), ops, fed, pass, x)
    ensures pass != [] && pass[|pass| - 1].call.CheckTerm?
  {
    assert pass[..|pass| - 1] == fed;
    TraceEnds(cfg, x, false, true, s, fed, PartsOf(EndOf(s, fed)), false);
    Rises(cfg, s, EndOf(s, fed));
    assert !Owing(cfg, EndOf(s, fed), x);
  }

  /** A pass through the main loop takes the allreduce further, if its rank can. */
  ghost predicate Diligent(cfg: Config, x: nat, s: State, t: State) {
    && LeadsTo(cfg, s, t)
    && (Calm(cfg, s) && CanGoOn(cfg, s, x) ==> Calm(cfg, t) && Potential(cfg, t.term) > Potential(cfg, s.term))
  }

  lemma StuckAtLast(cfg: Config, x: nat, s: State, pass: seq<Moment>, p: L.Parts, left: bool)
    requires Calm(cfg, s) && x < cfg.n && Trace(cfg, x, false, true, s, pass, p, left)
    requires pass != [] && pass[|pass| - 1].call.CheckTerm?
    requires Shape(cfg, EndOf(s, pass)) && Potential(cfg, EndOf(s, pass).term) == Potential(cfg, s.term)
    ensures !CanGoOn(cfg, s, x)
  {
    var t, i := EndOf(s, pass), |pass| - 1;
    var m := pass[i];
    TraceLeads(cfg, x, false, true, s, pass, p, left, i);
    RankLeads(cfg, m.before, x, m.after);
    LeadsOn(cfg, s, m.before, m.after);
    LeadsOn(cfg, m.before, m.after, t);
    SamePotentialBetween(cfg, s, m.before, t);
    SamePotentialBetween(cfg, s, m.after, t);
    forall step: TermStep ensures !TermEnabled(cfg, s, x, step) {
      CheckLeavesNone(cfg, x, s, m, step);
    }
  }

  lemma PassIsDiligent(cfg: Config, x: nat, s: State, ops: seq<W.Op>, fed: seq<Moment>, pass: seq<Moment>,
                       p: L.Parts, left: bool)
    requires x < cfg.n && Trace(cfg, x, false, true, s, pass, p, left)
    requires Acted(PartsOf(EndOf(s, fed)), ops, fed, pass, x)
    ensures Diligent(cfg, x, s, EndOf(s, pass))
  {
    var t := EndOf(s, pass);
    TraceEnds(cfg, x, false, true, s, pass, p, left);
    if Calm(cfg, s) && CanGoOn(cfg, s, x) {
      Rises(cfg, s, t);
      if Potential(cfg, t.term) == Potential(cfg, s.term) {
        LastCallChecks(cfg, x, s, ops, fed, pass, p, left);
        StuckAtLast(cfg, x, s, pass, p, left);
      }
    }
  }

  /** A stretch that contains a diligent pass is diligent: what comes before keeps the rank from going on
      only by going on itself, and nothing goes back. */
  lemma Wider(cfg: Config, x: nat, s: State, mid: State, next: State, t: State)
    requires LeadsTo(cfg, s, mid) && Diligent(cfg, x, mid, next) && LeadsTo(cfg, next, t)
    ensures Diligent(cfg, x, s, t)
  {
    LeadsOn(cfg, s, mid, next);
    LeadsOn(cfg, s, next, t);
    if Calm(cfg, s) && CanGoOn(cfg, s, x) {
      Rises(cfg, s, mid);
      if Potential(cfg, mid.term) == Potential(cfg, s.term) {
        GoingOnStays(cfg, s, mid, x);
      } else {
        Rises(cfg, mid, next);
      }
      Rises(cfg, next, t);
    }
  }

  /** A rank past its main loop has nothing to take further. */
  lemma DiligentElsewhere(cfg: Config, x: nat, s: State, t: State)
    requires LeadsTo(cfg, s, t) && Shape(cfg, s) && x < cfg.n && s.phase[x] != Working
    ensures Diligent(cfg, x, s, t)
  {
    if CanGoOn(cfg, s, x) {
      assert false;
    }
  }
}
