/** How much each rank still has to do before the cleanup barrier is complete, component by component:
    every step that clears something up takes from one rank's load and adds to none. */
module CleanupLoad {
  import opened Channels
  import opened Tree
  import H = Handshake
  import W = WorkTransfer
  import A = AbortSignal
  import R = BackgroundReduce
  import opened Barrier

  /** No rank has more to do than this. */
  function MaxLoad(n: nat): nat {
    2 * n + 13
  }

  // ----- work requests -----

  /** The request of rank `z`: in flight, listed, answered, or over. */
  ghost function WorkLoad(w: W.Sys, z: nat): (load: nat)
    requires z < |w.desks|
    ensures load <= 3
  {
    var d := w.desks[z];
    if !d.requested then 0
    else if At(w.request, z, d.source) != [] then 3
    else if At(w.reply, d.source, z) == [] then 2
    else 1
  }

  /** The steps of work transfer that are left in cleanup. */
  predicate WorkClears(step: W.WorkStep) {
    step.DoDrain? || step.DoRefuse? || step.DoHearNo?
  }

  ghost function WorkMover(w: W.Sys, x: nat, step: W.WorkStep): nat
    requires x < |w.desks|
  {
    match step
    case DoDrain(from) => from
    case DoRefuse => if w.desks[x].requestors != [] then w.desks[x].requestors[0] else x
    case _ => x
  }

  lemma DrainLowers(n: nat, w: W.Sys, x: nat, y: nat, z: nat)
    requires W.Discipline(n, w) && W.CanDrain(n, w, x, y) && z < n
    ensures WorkLoad(W.Drain(n, w, x, y), z) + (if z == y then 1 else 0) <= WorkLoad(w, z)
  {
    assert W.PairOk(w, x, y);
  }

  lemma RefuseLowers(n: nat, w: W.Sys, x: nat, abort: bool, z: nat)
    requires W.Discipline(n, w) && W.CanRefuse(n, w, x) && z < n
    ensures WorkLoad(W.Refuse(n, w, x, abort), z) + (if z == w.desks[x].requestors[0] then 1 else 0)
            <= WorkLoad(w, z)
  {
    W.ListedRequestorsWait(n, w, x, 0);
  }

  lemma HearNoLowers(n: nat, w: W.Sys, x: nat, z: nat)
    requires W.Discipline(n, w) && W.CanHearNo(n, w, x) && z < n
    ensures WorkLoad(W.HearNo(n, w, x), z) + (if z == x then 1 else 0) <= WorkLoad(w, z)
  {
  }

  lemma WorkLowers(n: nat, w: W.Sys, x: nat, step: W.WorkStep, abort: bool, z: nat)
    requires W.Discipline(n, w) && x < n && W.CanWork(n, w, x, step) && WorkClears(step) && z < n
    ensures WorkLoad(W.WorkNext(n, w, x, step, abort), z) + (if z == WorkMover(w, x, step) then 1 else 0)
            <= WorkLoad(w, z)
    ensures WorkMover(w, x, step) < n
  {
    match step
    case DoDrain(from) => DrainLowers(n, w, x, from, z);
    case DoRefuse =>
      W.ListedRequestorsWait(n, w, x, 0);
      RefuseLowers(n, w, x, abort, z);
    case DoHearNo => HearNoLowers(n, w, x, z);
  }

  /** As long as a rank waits for a reply that can only be "no work", the request or the reply can
      move. */
  lemma WorkCanMove(n: nat, w: W.Sys, x: nat) returns (y: nat, step: W.WorkStep)
    requires W.Discipline(n, w) && x < n && w.desks[x].requested
    requires |At(w.reply, w.desks[x].source, x)| <= 1
    ensures y < n && WorkClears(step) && W.CanWork(n, w, y, step)
  {
    var src := w.desks[x].source;
    assert W.DeskOk(n, w, x) && W.PairOk(w, src, x);
    if At(w.request, x, src) != [] {
      y, step := src, W.DoDrain(x);
    } else if At(w.reply, src, x) != [] {
      y, step := x, W.DoHearNo;
    } else {
      assert x in multiset(w.desks[src].requestors);
      y, step := src, W.DoRefuse;
    }
  }

  // ----- abort messages -----

  /** The neighbours that have not received the abort request of `z`. */
  ghost function Unheard(n: nat, request: Chan<()>, z: nat): set<nat> {
    set nb: nat | nb < n && At(request, z, nb) != []
  }

  ghost function AbortLoad(n: nat, a: A.Sys, z: nat): nat
    requires z < |a.alarms|
  {
    AlarmLoad(a.alarms[z]) + |Unheard(n, a.request, z)|
  }

  /** The receives that are posted, and the test that finds them complete. */
  ghost function AlarmLoad(a: A.Alarm): nat {
    (if a.outstanding then 1 else 0) + |a.awaiting|
  }

  lemma {:induction false} RanksBelow(n: nat, s: set<nat>)
    requires forall x | x in s :: x < n
    ensures |s| <= n
  {
    if n > 0 {
      RanksBelow(n - 1, s - {n - 1});
    } else {
      assert s == {};
    }
  }

  lemma AbortBound(cfg: Config, a: A.Sys, z: nat)
    requires A.Inv(cfg, a) && z < cfg.n
    ensures AbortLoad(cfg.n, a, z) <= 2 * cfg.n + 1
  {
    assert A.AwaitOk(cfg, a, z);
    RanksBelow(cfg.n, a.alarms[z].awaiting);
    RanksBelow(cfg.n, Unheard(cfg.n, a.request, z));
  }

  /** The steps that clear up abort messages: entering the abort state sends nothing in cleanup. */
  predicate AbortClears(step: A.AbortStep) {
    step.AbortHear? || step.AbortMatch? || step.AbortTest?
  }

  function AbortMover(x: nat, step: A.AbortStep): nat {
    if step.AbortHear? then step.from else x
  }

  /** In cleanup, hearing a request takes it off its channel and changes no receive that is posted. */
  lemma HearTakes(cfg: Config, a: A.Sys, x: nat, src: nat, z: nat)
    requires A.Inv(cfg, a) && A.CanHear(cfg, a, x, src) && z < cfg.n
    ensures |At(a.request, src, x)| == 1
    ensures var a' := A.Hear(cfg, a, x, src, true);
            && a'.request == Take(a.request, src, x)
            && a'.alarms[z].outstanding == a.alarms[z].outstanding && a'.alarms[z].awaiting == a.alarms[z].awaiting
  {
    assert A.PairOk(a, src, x);
  }

  lemma StillUnheard(n: nat, request: Chan<()>, x: nat, src: nat, z: nat, nb: nat)
    requires |At(request, src, x)| == 1
    ensures nb in Unheard(n, Take(request, src, x), z) <==> nb in Unheard(n, request, z) && !(z == src && nb == x)
  {
  }

  lemma UnheardTaken(n: nat, request: Chan<()>, x: nat, src: nat, z: nat)
    requires x < n && |At(request, src, x)| == 1
    ensures |Unheard(n, Take(request, src, x), z)| + (if z == src then 1 else 0) == |Unheard(n, request, z)|
  {
    var before, after := Unheard(n, request, z), Unheard(n, Take(request, src, x), z);
    forall nb: nat ensures nb in after <==> nb in before && !(z == src && nb == x) {
      StillUnheard(n, request, x, src, z, nb);
    }
    assert z == src ==> x in before;
    SameButOne(before, after, x, z == src);
  }

  lemma SameButOne(before: set<nat>, after: set<nat>, x: nat, without: bool)
    requires forall nb: nat :: nb in after <==> nb in before && !(without && nb == x)
    requires without ==> x in before
    ensures |after| + (if without then 1 else 0) == |before|
  {
    if without {
      assert before == after + {x};
    } else {
      assert before == after;
    }
  }

  lemma HearLowers(cfg: Config, a: A.Sys, x: nat, src: nat, z: nat)
    requires A.Inv(cfg, a) && A.CanHear(cfg, a, x, src) && z < cfg.n
    ensures AbortLoad(cfg.n, A.Hear(cfg, a, x, src, true), z) + (if z == src then 1 else 0)
            <= AbortLoad(cfg.n, a, z)
  {
    HearTakes(cfg, a, x, src, z);
    UnheardTaken(cfg.n, a.request, x, src, z);
  }

  lemma MatchLowers(cfg: Config, a: A.Sys, x: nat, nb: nat, z: nat)
    requires A.Inv(cfg, a) && A.CanMatch(cfg, a, x, nb) && z < cfg.n
    ensures AbortLoad(cfg.n, A.Match(cfg, a, x, nb), z) + (if z == x then 1 else 0) <= AbortLoad(cfg.n, a, z)
  {
    var before, after := a.alarms[x].awaiting, A.Match(cfg, a, x, nb).alarms[x].awaiting;
    assert before == after + {nb} && nb !in after;
  }

  lemma AbortLowers(cfg: Config, a: A.Sys, x: nat, step: A.AbortStep, z: nat)
    requires A.Inv(cfg, a) && A.CanAbort(cfg, a, x, step) && z < cfg.n
    ensures AbortLoad(cfg.n, A.AbortNext(cfg, a, x, step, true), z)
            + (if z == AbortMover(x, step) && AbortClears(step) then 1 else 0) <= AbortLoad(cfg.n, a, z)
    ensures AbortMover(x, step) < cfg.n
  {
    match step
    case AbortHear(from) => HearLowers(cfg, a, x, from, z);
    case AbortMatch(from) => MatchLowers(cfg, a, x, from, z);
    case _ =>
  }

  lemma AbortCanMove(cfg: Config, a: A.Sys, x: nat) returns (y: nat, step: A.AbortStep)
    requires A.Inv(cfg, a) && x < cfg.n && a.alarms[x].outstanding
    ensures y < cfg.n && AbortClears(step) && A.CanAbort(cfg, a, y, step)
  {
    if a.alarms[x].awaiting == {} {
      y, step := x, A.AbortTest;
    } else {
      var nb :| nb in a.alarms[x].awaiting;
      assert A.AwaitOk(cfg, a, x) && A.PairOk(a, x, nb);
      if At(a.request, x, nb) != [] {
        y, step := nb, A.AbortHear(x);
      } else {
        y, step := x, A.AbortMatch(nb);
      }
    }
  }

  // ----- the background reduction -----

  ghost function ReduceLoad(cfg: Config, r: R.Sys, z: nat): (load: nat)
    requires R.Shape(cfg, r) && z < cfg.n
    ensures load <= 4
  {
    (if r.ranks[z].outstanding then 2 else 0) +
    if z == 0 then 0
    else match R.Phase(cfg, r, z)
      case Asked => 2
      case Replied => 1
      case _ => 0
  }

  /** The steps of the reduction that are left in cleanup. */
  predicate ReduceClears(step: R.ReduceStep) {
    !step.ReduceStart?
  }

  function ReduceMover(x: nat, step: R.ReduceStep): nat {
    if step.ReduceCount? then step.from else x
  }

  lemma DeclineLowers(cfg: Config, r: R.Sys, x: nat, bytes: nat, z: nat)
    requires R.Inv(cfg, r) && x >= 1 && R.CanBegin(cfg, r, x) && z < cfg.n
    ensures ReduceLoad(cfg, R.Decline(cfg, r, x, bytes), z) + (if z == x then 1 else 0) <= ReduceLoad(cfg, r, z)
  {
    assert R.EdgeOk(cfg, r, x);
    if z >= 1 {
      assert R.EdgeOk(cfg, r, z);
    }
  }

  lemma CountLowers(cfg: Config, r: R.Sys, x: nat, c: nat, z: nat)
    requires R.Inv(cfg, r) && R.CanCount(cfg, r, x, c) && z < cfg.n
    ensures ReduceLoad(cfg, R.Count(cfg, r, x, c), z) + (if z == c then 1 else 0) <= ReduceLoad(cfg, r, z)
  {
    R.ResultIsWhole(cfg, r, x, c);
    assert R.EdgeOk(cfg, r, c);
    if z >= 1 {
      assert R.EdgeOk(cfg, r, z);
    }
  }

  lemma FinishLowers(cfg: Config, r: R.Sys, x: nat, count: int, bytes: nat, z: nat)
    requires R.Inv(cfg, r) && R.CanFinish(cfg, r, x) && z < cfg.n
    ensures ReduceLoad(cfg, R.Finish(cfg, r, x, count, bytes), z) + (if z == x then 1 else 0)
            <= ReduceLoad(cfg, r, z)
  {
    if z >= 1 {
      assert R.EdgeOk(cfg, r, z);
    }
  }

  lemma ReduceLowers(cfg: Config, r: R.Sys, x: nat, step: R.ReduceStep, z: nat)
    requires R.Inv(cfg, r) && R.CanReduce(cfg, r, x, step) && ReduceClears(step) && z < cfg.n
    ensures ReduceLoad(cfg, R.ReduceNext(cfg, r, x, step), z) + (if z == ReduceMover(x, step) then 1 else 0)
            <= ReduceLoad(cfg, r, z)
    ensures ReduceMover(x, step) < cfg.n
  {
    match step
    case ReduceDecline(bytes) => DeclineLowers(cfg, r, x, bytes, z);
    case ReduceCount(from) => CountLowers(cfg, r, x, from, z);
    case ReduceFinish(count, bytes) => FinishLowers(cfg, r, x, count, bytes, z);
  }

  /** The last rank that has a reduction under way. */
  lemma LastBusy(cfg: Config, r: R.Sys, x: nat) returns (q: nat)
    requires R.Shape(cfg, r) && x < cfg.n && r.ranks[x].outstanding
    ensures q < cfg.n && r.ranks[q].outstanding && forall y: nat | q < y < cfg.n :: !r.ranks[y].outstanding
    decreases cfg.n - x
  {
    if y: nat :| x < y < cfg.n && r.ranks[y].outstanding {
      q := LastBusy(cfg, r, y);
    } else {
      q := x;
    }
  }

  lemma SomeKidLeft(cfg: Config, r: R.Sys, q: nat) returns (c: nat)
    requires R.Inv(cfg, r) && q < cfg.n && r.ranks[q].outstanding && r.ranks[q].replies != |Kids(cfg, q)|
    ensures c in Kids(cfg, q) && c !in R.DoneKids(cfg, r, q)
  {
    assert R.RankOk(cfg, r, q);
    assert R.DoneKids(cfg, r, q) != Kids(cfg, q);
    assert exists c :: c in Kids(cfg, q) && c !in R.DoneKids(cfg, r, q);
    c :| c in Kids(cfg, q) && c !in R.DoneKids(cfg, r, q);
  }

  /** It hears from a child, or a child of it declines, or it finishes. */
  lemma ReduceCanMove(cfg: Config, r: R.Sys, x: nat) returns (y: nat, step: R.ReduceStep)
    requires R.Inv(cfg, r) && x < cfg.n && r.ranks[x].outstanding
    ensures y < cfg.n && ReduceClears(step) && R.CanReduce(cfg, r, y, step)
  {
    var q := LastBusy(cfg, r, x);
    if r.ranks[q].replies == |Kids(cfg, q)| {
      y, step := q, R.ReduceFinish(0, 0);
    } else {
      var c := SomeKidLeft(cfg, r, q);
      assert R.EdgeOk(cfg, r, c);
      if R.Phase(cfg, r, c) == R.Asked {
        y, step := c, R.ReduceDecline(0);
      } else {
        R.ResultIsWhole(cfg, r, q, c);
        y, step := q, R.ReduceCount(c);
      }
    }
  }

  // ----- the barrier -----

  /** A rank starts the barrier and then passes through four stages. */
  ghost function BarrierLoad(cfg: Config, b: BarrierSys, z: nat): int
    requires BarrierShape(cfg, b) && z < cfg.n
  {
    (if b.started[z] || b.nodes[z].round >= 1 then 0 else 1) + 4 - H.Position(cfg, b.nodes, b.chan, z)
  }

  lemma BarrierBound(cfg: Config, b: BarrierSys, z: nat)
    requires BarrierShape(cfg, b) && z < cfg.n && b.nodes[z].round <= 1 && (b.nodes[z].round == 1 ==> !b.nodes[z].up)
    ensures 0 <= BarrierLoad(cfg, b, z) <= 5
  {
  }

  function BarrierMover(x: nat, step: BarrierStep): nat {
    if step.BarrierCount? then step.from else x
  }

  lemma BarrierLowers(cfg: Config, b: BarrierSys, x: nat, step: BarrierStep, z: nat)
    requires BarrierShape(cfg, b) && H.Inv(cfg, b.nodes, b.chan) && CanBarrier(cfg, b, x, step) && z < cfg.n
    requires step.BarrierStart? ==> !b.started[x] && b.nodes[x].round == 0
    ensures BarrierLoad(cfg, BarrierNext(cfg, b, x, step), z) + (if z == BarrierMover(x, step) then 1 else 0)
            <= BarrierLoad(cfg, b, z)
    ensures BarrierMover(x, step) < cfg.n
  {
    match step
    case BarrierStart =>
    case BarrierCount(from) => H.CountAdvances(cfg, b.nodes, b.chan, x, from, z);
    case BarrierRaise => H.RaiseAdvances(cfg, b.nodes, b.chan, x, (), z);
    case BarrierRoot => H.ScatterAdvances(cfg, b.nodes, b.chan, 0, b.chan, (), z);
    case BarrierFall =>
      assert H.NodeOk(cfg, b.nodes, b.chan, x);
      H.ScatterAdvances(cfg, b.nodes, b.chan, x, Take(b.chan, Parent(cfg, x), x), (), z);
  }
}
