/** A pass through the main loop in which nothing stays unnoticed takes the rank into the abort state, if an
    abort request is on its way to it or its abort flag is set. */
module AbortDiligence {
  import opened Channels
  import opened Tree
  import A = AbortSignal
  import AR = AbortRank
  import opened Protocol
  import opened Moves
  import opened Interleaving
  import opened Passes
  import L = WorkLoop

  ghost predicate Alarmed(cfg: Config, s: State, x: nat) {
    Shape(cfg, s) && x < cfg.n && s.abort.alarms[x].state
  }

  /** Rank `x` has aborted, or an abort request is on its way to it. */
  ghost predicate Warned(cfg: Config, s: State, x: nat) {
    && Shape(cfg, s) && x < cfg.n
    && (s.abort.alarms[x].flag || exists src: nat :: src < cfg.n && At(s.abort.request, src, x) != [])
  }

  // ----- a warning is not lost -----

  lemma AbortStepWarns(cfg: Config, a: A.Sys, p: nat, step: A.AbortStep, cleanup: bool, x: nat, src: nat)
    requires A.Shape(cfg, a) && A.CanAbort(cfg, a, p, step) && x < cfg.n && src < cfg.n
    ensures var a' := A.AbortNext(cfg, a, p, step, cleanup);
            && (a.alarms[x].state ==> a'.alarms[x].state)
            && (a.alarms[x].flag ==> a'.alarms[x].flag)
            && (At(a.request, src, x) != [] ==> a'.alarms[x].state || At(a'.request, src, x) != [])
  {
    if step.AbortHear? {
      var mid := a.(request := Take(a.request, step.from, p), reply := Post(a.reply, p, step.from, ()));
      assert mid.alarms == a.alarms;
      assert src != step.from || x != p ==> At(mid.request, src, x) == At(a.request, src, x);
    }
  }

  lemma StepWarns(cfg: Config, s: State, step: Step, t: State, x: nat)
    requires Takes(cfg, s, step, t)
    ensures Alarmed(cfg, s, x) ==> Alarmed(cfg, t, x)
    ensures Warned(cfg, s, x) ==> Alarmed(cfg, t, x) || Warned(cfg, t, x)
  {
    if step.OnAbort? && x < cfg.n {
      var y, a := step.x, step.abort;
      AbortStepWarns(cfg, s.abort, y, a, s.phase[y] == Cleanup, x, 0);
      if src: nat :| src < cfg.n && At(s.abort.request, src, x) != [] {
        AbortStepWarns(cfg, s.abort, y, a, s.phase[y] == Cleanup, x, src);
      }
    }
  }

  lemma AlarmStays(cfg: Config, s: State, t: State, x: nat)
    requires LeadsTo(cfg, s, t) && Alarmed(cfg, s, x)
    ensures Alarmed(cfg, t, x)
  {
    var alarmed := (u: State) => Alarmed(cfg, u, x);
    forall a: State, step: Step, b: State | alarmed(a) && Takes(cfg, a, step, b) ensures alarmed(b) {
      StepWarns(cfg, a, step, b, x);
    }
    KeptOnTheWay(cfg, s, t, alarmed);
  }

  lemma WarningStays(cfg: Config, s: State, t: State, x: nat)
    requires LeadsTo(cfg, s, t) && Warned(cfg, s, x)
    ensures Alarmed(cfg, t, x) || Warned(cfg, t, x)
  {
    var warned := (u: State) => Alarmed(cfg, u, x) || Warned(cfg, u, x);
    forall a: State, step: Step, b: State | warned(a) && Takes(cfg, a, step, b) ensures warned(b) {
      StepWarns(cfg, a, step, b, x);
    }
    KeptOnTheWay(cfg, s, t, warned);
  }

  // ----- a pass -----

  /** The check for abort messages. */
  lemma CheckHears(cfg: Config, x: nat, m: Moment)
    requires MomentOk(cfg, x, false, true, m) && m.call.Abort? && Warned(cfg, m.before, x)
    ensures Alarmed(cfg, m.after, x)
  {
    RankLeads(cfg, m.before, x, m.after);
    WorkingBefore(cfg, m.before, m.after, x);
    if src: nat :| src < cfg.n && At(m.before.abort.request, src, x) != [] {
      assert src in AR.HeardFrom(cfg, m.before.abort, x);
    } else {
      FlagStays(cfg, m.before, x, m.after);
    }
  }

  lemma CheckAlarms(cfg: Config, x: nat, s: State, m: Moment)
    requires LeadsTo(cfg, s, m.before) && MomentOk(cfg, x, false, true, m) && m.call.Abort? && Warned(cfg, s, x)
    ensures Alarmed(cfg, m.after, x)
  {
    WarningStays(cfg, s, m.before, x);
    if Alarmed(cfg, m.before, x) {
      RankLeads(cfg, m.before, x, m.after);
      AlarmStays(cfg, m.before, m.after, x);
    } else {
      CheckHears(cfg, x, m);
    }
  }

  lemma FlagStays(cfg: Config, s: State, x: nat, t: State)
    requires Leads(cfg, s, x, t) && Shape(cfg, s) && x < cfg.n && s.abort.alarms[x].flag
    ensures Shape(cfg, t) && t.abort.alarms[x].flag
  {
    RankLeads(cfg, s, x, t);
    var flagged := (u: State) => Shape(cfg, u) && u.abort.alarms[x].flag;
    forall a: State, step: Step, b: State | flagged(a) && Takes(cfg, a, step, b) ensures flagged(b) {
      if step.OnAbort? {
        AbortStepWarns(cfg, a.abort, step.x, step.abort, a.phase[step.x] == Cleanup, x, 0);
      }
    }
    KeptOnTheWay(cfg, s, t, flagged);
  }

  /** A pass of rank `x` after which it is still in its main loop takes it into the abort state, if it was
      warned before. */
  ghost predicate Diligent(cfg: Config, x: nat, s: State, t: State) {
    && LeadsTo(cfg, s, t)
    && (Warned(cfg, s, x) && Shape(cfg, t) && t.phase[x] == Working ==> Alarmed(cfg, t, x))
  }

  lemma PassIsDiligent(cfg: Config, x: nat, inp: L.Inputs, s: State, upkeep: seq<Moment>, pass: seq<Moment>,
                       p: L.Parts, left: bool)
    requires Trace(cfg, x, false, true, s, pass, p, left) && UpkeepOrder(upkeep, inp) && upkeep <= pass
    ensures Diligent(cfg, x, s, EndOf(s, pass))
  {
    var m := pass[2];
    assert m == upkeep[2];
    TraceEnds(cfg, x, false, true, s, pass, p, left);
    TraceLeads(cfg, x, false, true, s, pass, p, left, 2);
    if Warned(cfg, s, x) {
      CheckAlarms(cfg, x, s, m);
      AlarmStays(cfg, m.after, EndOf(s, pass), x);
    }
  }

  lemma WorkingBefore(cfg: Config, s: State, t: State, x: nat)
    requires LeadsTo(cfg, s, t) && Shape(cfg, s) && x < cfg.n
    ensures Shape(cfg, t) && (t.phase[x] == Working ==> s.phase[x] == Working)
  {
    var inv := (u: State) => Shape(cfg, u) && (u.phase[x] == Working ==> s.phase[x] == Working);
    forall a: State, step: Step, b: State | inv(a) && Takes(cfg, a, step, b) ensures inv(b) {
      assert b.phase[x] == Working ==> a.phase[x] == Working;
    }
    KeptOnTheWay(cfg, s, t, inv);
  }

  lemma Wider(cfg: Config, x: nat, s: State, mid: State, next: State, t: State)
    requires LeadsTo(cfg, s, mid) && Diligent(cfg, x, mid, next) && LeadsTo(cfg, next, t)
    ensures Diligent(cfg, x, s, t)
  {
    LeadsOn(cfg, s, mid, next);
    LeadsOn(cfg, s, next, t);
    if Warned(cfg, s, x) && Shape(cfg, t) && t.phase[x] == Working {
      WarningStays(cfg, s, mid, x);
      WorkingBefore(cfg, s, next, x);
      WorkingBefore(cfg, next, t, x);
      if Alarmed(cfg, mid, x) {
        AlarmStays(cfg, mid, next, x);
      }
      AlarmStays(cfg, next, t, x);
    }
  }

  /** A rank past its main loop spreads no abort. */
  lemma DiligentElsewhere(cfg: Config, x: nat, s: State, t: State)
    requires LeadsTo(cfg, s, t) && Shape(cfg, s) && x < cfg.n && s.phase[x] != Working
    ensures Diligent(cfg, x, s, t)
  {
    WorkingBefore(cfg, s, t, x);
  }
}
