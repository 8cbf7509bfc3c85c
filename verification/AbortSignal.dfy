/** Spreading an abort through the tree (tags ABORT_REQUEST and ABORT_REPLY).

    A rank that enters the abort state while in the work loop sends a request to each of
    its tree neighbours, for whose replies it has posted receives.  In the cleanup phase
    it sends nothing.
 */
module AbortSignal {
  import opened Channels
  import opened Tree

  datatype Alarm = Alarm(
    flag: bool,            // CIRCLE_ABORT_FLAG
    state: bool,           // abort_state
    outstanding: bool,     // abort_outstanding
    awaiting: set<nat>)    // neighbours whose reply the posted receives wait for

  datatype Sys = Sys(alarms: seq<Alarm>, request: Chan<()>, reply: Chan<()>)

  ghost predicate Shape(cfg: Config, s: Sys) {
    cfg.Valid() && |s.alarms| == cfg.n
  }

  // ----- the atomic steps -----

  /** The user aborts, or the abort payload arrives in a work reply. */
  function SetFlag(a: Alarm): Alarm {
    a.(flag := true)
  }

  function Started(cfg: Config, p: nat, a: Alarm, cleanup: bool): Alarm
    requires cfg.Valid()
  {
    if a.state then a.(flag := true)
    else if cleanup then a.(flag := true, state := true)
    else
      var nbs := Neighbours(cfg, p);
      Alarm(true, true, a.outstanding || nbs != {}, nbs)
  }

  /** CIRCLE_abort_start. */
  ghost function Start(cfg: Config, s: Sys, p: nat, cleanup: bool): Sys
    requires Shape(cfg, s) && p < cfg.n
  {
    var a := s.alarms[p];
    s.(alarms := s.alarms[p := Started(cfg, p, a, cleanup)],
       request := if a.state || cleanup then s.request else Cast(s.request, p, Neighbours(cfg, p), ()))
  }

  ghost predicate CanHear(cfg: Config, s: Sys, p: nat, src: nat)
    requires Shape(cfg, s)
  {
    p < cfg.n && src < cfg.n && At(s.request, src, p) != []
  }

  /** An abort request arrives, from any source: reply, and enter the abort state. */
  ghost function Hear(cfg: Config, s: Sys, p: nat, src: nat, cleanup: bool): Sys
    requires Shape(cfg, s) && CanHear(cfg, s, p, src)
  {
    Start(cfg, s.(request := Take(s.request, src, p), reply := Post(s.reply, p, src, ())), p, cleanup)
  }

  ghost predicate CanMatch(cfg: Config, s: Sys, p: nat, nb: nat)
    requires Shape(cfg, s)
  {
    p < cfg.n && nb < cfg.n && nb in s.alarms[p].awaiting && At(s.reply, nb, p) != []
  }

  /** A posted receive is matched by the reply of neighbour `nb`. */
  ghost function Match(cfg: Config, s: Sys, p: nat, nb: nat): Sys
    requires Shape(cfg, s) && CanMatch(cfg, s, p, nb)
  {
    s.(alarms := s.alarms[p := s.alarms[p].(awaiting := s.alarms[p].awaiting - {nb})],
       reply := Take(s.reply, nb, p))
  }

  ghost predicate CanTest(cfg: Config, s: Sys, p: nat)
    requires Shape(cfg, s)
  {
    p < cfg.n && s.alarms[p].outstanding && s.alarms[p].awaiting == {}
  }

  /** MPI_Testall finds every abort request complete. */
  function Tested(a: Alarm): Alarm {
    a.(outstanding := false)
  }

  datatype AbortStep =
    | UserAbort            // CIRCLE_bcast_abort, called by a callback
    // CIRCLE_abort_check
    | AbortStart
    | AbortHear(from: nat)
    | AbortMatch(from: nat)
    | AbortTest

  ghost predicate CanAbort(cfg: Config, s: Sys, x: nat, step: AbortStep)
    requires Shape(cfg, s)
  {
    && x < cfg.n
    && match step
       case UserAbort => true
       case AbortStart => s.alarms[x].flag
       case AbortHear(from) => CanHear(cfg, s, x, from)
       case AbortMatch(from) => CanMatch(cfg, s, x, from)
       case AbortTest => CanTest(cfg, s, x)
  }

  ghost function AbortNext(cfg: Config, s: Sys, x: nat, step: AbortStep, cleanup: bool): (s': Sys)
    requires Shape(cfg, s) && CanAbort(cfg, s, x, step)
    ensures Shape(cfg, s')
  {
    match step
    case UserAbort => s.(alarms := s.alarms[x := SetFlag(s.alarms[x])])
    case AbortStart => Start(cfg, s, x, cleanup)
    case AbortHear(from) => Hear(cfg, s, x, from, cleanup)
    case AbortMatch(from) => Match(cfg, s, x, from)
    case AbortTest => s.(alarms := s.alarms[x := Tested(s.alarms[x])])
  }

  // ----- the invariant -----

  ghost predicate PairOk(s: Sys, x: nat, y: nat)
    requires x < |s.alarms|
  {
    |At(s.request, x, y)| + |At(s.reply, y, x)| == if y in s.alarms[x].awaiting then 1 else 0
  }

  ghost predicate AlarmOk(a: Alarm) {
    && (a.awaiting != {} ==> a.outstanding)
    && (!a.state ==> a.awaiting == {} && !a.outstanding)
    && (a.state ==> a.flag)
  }

  /** A rank waits for tree neighbours only. */
  ghost predicate AwaitOk(cfg: Config, s: Sys, p: nat)
    requires Shape(cfg, s) && p < cfg.n
  {
    s.alarms[p].awaiting <= Neighbours(cfg, p)
  }

  ghost predicate Inv(cfg: Config, s: Sys) {
    && Shape(cfg, s)
    && (forall p: nat | p < cfg.n :: AlarmOk(s.alarms[p]) && AwaitOk(cfg, s, p))
    && (forall x: nat, y: nat | x < cfg.n && y < cfg.n :: PairOk(s, x, y))
  }

  lemma InitialInv(cfg: Config, s: Sys)
    requires Shape(cfg, s) && s.request == map[] && s.reply == map[]
    requires forall p: nat | p < cfg.n :: s.alarms[p] == Alarm(s.alarms[p].flag, false, false, {})
    ensures Inv(cfg, s)
  {
  }

  lemma StartKeepsInv(cfg: Config, s: Sys, p: nat, cleanup: bool)
    requires Inv(cfg, s) && p < cfg.n
    ensures Inv(cfg, Start(cfg, s, p, cleanup))
  {
    var s' := Start(cfg, s, p, cleanup);
    forall q: nat | q < cfg.n ensures AlarmOk(s'.alarms[q]) && AwaitOk(cfg, s', q) {
      assert AlarmOk(s.alarms[q]) && AwaitOk(cfg, s, q);
    }
    forall x: nat, y: nat | x < cfg.n && y < cfg.n ensures PairOk(s', x, y) {
      assert PairOk(s, x, y) && AlarmOk(s.alarms[x]);
    }
  }

  lemma HearKeepsInv(cfg: Config, s: Sys, p: nat, src: nat, cleanup: bool)
    requires Inv(cfg, s) && CanHear(cfg, s, p, src)
    ensures Inv(cfg, Hear(cfg, s, p, src, cleanup))
  {
    var mid := s.(request := Take(s.request, src, p), reply := Post(s.reply, p, src, ()));
    forall q: nat | q < cfg.n ensures AwaitOk(cfg, mid, q) {
      assert AwaitOk(cfg, s, q);
    }
    forall x: nat, y: nat | x < cfg.n && y < cfg.n ensures PairOk(mid, x, y) {
      assert PairOk(s, x, y);
    }
    StartKeepsInv(cfg, mid, p, cleanup);
  }

  lemma MatchKeepsInv(cfg: Config, s: Sys, p: nat, nb: nat)
    requires Inv(cfg, s) && CanMatch(cfg, s, p, nb)
    ensures Inv(cfg, Match(cfg, s, p, nb))
  {
    var s' := Match(cfg, s, p, nb);
    forall q: nat | q < cfg.n ensures AlarmOk(s'.alarms[q]) && AwaitOk(cfg, s', q) {
      assert AlarmOk(s.alarms[q]) && AwaitOk(cfg, s, q);
    }
    forall x: nat, y: nat | x < cfg.n && y < cfg.n ensures PairOk(s', x, y) {
      assert PairOk(s, x, y);
    }
  }

  /** Changing flags only, in ways that keep each alarm consistent. */
  lemma LocalKeepsInv(cfg: Config, s: Sys, p: nat, a: Alarm)
    requires Inv(cfg, s) && p < cfg.n && AlarmOk(a) && a.awaiting == s.alarms[p].awaiting
    ensures Inv(cfg, s.(alarms := s.alarms[p := a]))
  {
    var s' := s.(alarms := s.alarms[p := a]);
    forall q: nat | q < cfg.n ensures AlarmOk(s'.alarms[q]) && AwaitOk(cfg, s', q) {
      assert AlarmOk(s.alarms[q]) && AwaitOk(cfg, s, q);
    }
    forall x: nat, y: nat | x < cfg.n && y < cfg.n ensures PairOk(s', x, y) {
      assert PairOk(s, x, y);
    }
  }

  /** Once no rank waits for abort replies, no abort message is in flight. */
  lemma NobodyWaiting(cfg: Config, s: Sys)
    requires Inv(cfg, s) && forall p: nat | p < cfg.n :: !s.alarms[p].outstanding
    ensures Silent(cfg.n, s.request) && Silent(cfg.n, s.reply)
  {
    forall x: nat, y: nat | x < cfg.n && y < cfg.n
      ensures At(s.request, x, y) == [] && At(s.reply, y, x) == []
    {
      assert PairOk(s, x, y) && AlarmOk(s.alarms[x]);
    }
  }
}
