/** CIRCLE_barrier_start and CIRCLE_barrier_test (libcircle/token.c), as they change the variables
    of one rank and the messages in flight, and the steps of the barrier that they take. */
module BarrierRank {
  import opened Channels
  import opened Tree
  import opened TreeInit
  import opened Network
  import opened Barrier
  import H = Handshake

  predicate Completes(step: BarrierStep) {
    step.BarrierRoot? || step.BarrierFall?
  }

  /** Rank `x` takes `steps`, of which only the last may complete the barrier; `complete` tells
      whether it does. */
  ghost predicate BarrierPath(cfg: Config, b: BarrierSys, x: nat, steps: seq<BarrierStep>, b': BarrierSys,
                              complete: bool)
    decreases |steps|
  {
    && BarrierShape(cfg, b)
    && if steps == [] then b' == b && !complete
       else
         && !steps[0].BarrierStart?
         && CanBarrier(cfg, b, x, steps[0])
         && if |steps| == 1 then b' == BarrierNext(cfg, b, x, steps[0]) && complete == Completes(steps[0])
            else !Completes(steps[0]) && BarrierPath(cfg, BarrierNext(cfg, b, x, steps[0]), x, steps[1..], b', complete)
  }

  lemma {:induction false} PathGrows(cfg: Config, b: BarrierSys, x: nat, steps: seq<BarrierStep>, mid: BarrierSys,
                                     step: BarrierStep)
    requires BarrierPath(cfg, b, x, steps, mid, false) && !step.BarrierStart?
    requires BarrierShape(cfg, mid) && CanBarrier(cfg, mid, x, step)
    ensures BarrierPath(cfg, b, x, steps + [step], BarrierNext(cfg, mid, x, step), Completes(step))
    decreases |steps|
  {
    if steps == [] {
      assert steps + [step] == [step];
    } else {
      var all := steps + [step];
      assert all[0] == steps[0] && all[1..] == steps[1..] + [step];
      if |steps| == 1 {
        assert steps[1..] == [];
      }
      PathGrows(cfg, BarrierNext(cfg, b, x, steps[0]), x, steps[1..], mid, step);
    }
  }

  lemma StepGoesOn(cfg: Config, b: BarrierSys, x: nat, step: BarrierStep)
    requires BarrierShape(cfg, b) && CanBarrier(cfg, b, x, step) && !step.BarrierStart?
    ensures H.GoesOn(b.nodes[x], BarrierNext(cfg, b, x, step).nodes[x])
  {
  }

  /** A rank that takes any step is not where it was. */
  lemma {:induction false} PathGoesOn(cfg: Config, b: BarrierSys, x: nat, steps: seq<BarrierStep>, b': BarrierSys,
                                      complete: bool)
    requires BarrierPath(cfg, b, x, steps, b', complete) && steps != []
    ensures x < cfg.n && |b'.nodes| == cfg.n && H.GoesOn(b.nodes[x], b'.nodes[x])
    decreases |steps|
  {
    StepGoesOn(cfg, b, x, steps[0]);
    if |steps| > 1 {
      PathGoesOn(cfg, BarrierNext(cfg, b, x, steps[0]), x, steps[1..], b', complete);
    }
  }

  /** Some step can be taken at `x` with the messages that have been noticed. */
  ghost predicate BarrierCanMove(cfg: Config, b: BarrierSys, x: nat, late: set<nat>)
    requires BarrierShape(cfg, b) && x < cfg.n
  {
    || (exists src: nat :: src < cfg.n && src !in late && CanBarrier(cfg, b, x, BarrierCount(src)))
    || CanBarrier(cfg, b, x, BarrierRaise) || CanBarrier(cfg, b, x, BarrierRoot)
    || (x >= 1 && Parent(cfg, x) !in late && CanBarrier(cfg, b, x, BarrierFall))
  }

  class BarrierState {
    const cfg: Config
    const rank: nat
    const tree: seq<nat>
    var barrierStarted: bool
    var barrierUp: bool
    var barrierReplies: nat

    ghost predicate Valid() {
      cfg.Valid() && rank < cfg.n && tree == ChildList(cfg, rank)
    }

    /** The variables of this rank are those of `b`. */
    ghost predicate Owns(b: BarrierSys)
      reads this
    {
      && Valid() && BarrierShape(cfg, b)
      && b.started[rank] == barrierStarted && b.nodes[rank].up == barrierUp && b.nodes[rank].replies == barrierReplies
    }

    /** So are the messages in flight. */
    ghost predicate Has(box: Mailbox<()>, b: BarrierSys)
      reads this, box
    {
      Owns(b) && b.chan == box.chan
    }

    constructor (cfg: Config, rank: nat)
      requires cfg.Valid() && rank < cfg.n
      ensures Valid() && this.cfg == cfg && this.rank == rank
      ensures !barrierStarted && !barrierUp && barrierReplies == 0
    {
      this.cfg, this.rank, tree := cfg, rank, ChildList(cfg, rank);
      barrierStarted, barrierUp, barrierReplies := false, false, 0;
    }

    /** CIRCLE_barrier_start. */
    method Start(box: Mailbox<()>, ghost b0: BarrierSys) returns (ghost b: BarrierSys)
      requires Has(box, b0)
      modifies this`barrierStarted
      ensures Has(box, b) && b == BarrierNext(cfg, b0, rank, BarrierStart) && barrierStarted
    {
      barrierStarted := true;
      b := BarrierNext(cfg, b0, rank, BarrierStart);
    }

    /** One more step. */
    lemma Record(b0: BarrierSys, steps0: seq<BarrierStep>, b1: BarrierSys, step: BarrierStep)
      returns (steps: seq<BarrierStep>, b: BarrierSys)
      requires BarrierPath(cfg, b0, rank, steps0, b1, false) && !step.BarrierStart?
      requires BarrierShape(cfg, b1) && CanBarrier(cfg, b1, rank, step)
      ensures steps == steps0 + [step] && b == BarrierNext(cfg, b1, rank, step)
      ensures BarrierPath(cfg, b0, rank, steps, b, Completes(step))
    {
      PathGrows(cfg, b0, rank, steps0, b1, step);
      steps, b := steps0 + [step], BarrierNext(cfg, b1, rank, step);
    }

    /** Receive the message of one child, if a child is missing and its message is there. */
    method CountOne(box: Mailbox<()>, late: set<nat>, ghost b0: BarrierSys)
      returns (ghost steps: seq<BarrierStep>, ghost b: BarrierSys)
      requires Has(box, b0) && barrierStarted
      modifies this`barrierReplies, box
      ensures Has(box, b) && BarrierPath(cfg, b0, rank, steps, b, false)
      ensures steps == [] ==>
                b == b0 && forall src: nat | src < cfg.n && src !in late :: !CanBarrier(cfg, b, rank, BarrierCount(src))
    {
      ChildListIsKids(cfg, rank);
      steps, b := [], b0;
      if barrierReplies < |tree| {
        var flag, child := box.ProbeAny(cfg.n, late, rank);
        if flag {
          steps, b := Record(b0, steps, b, BarrierCount(child));
          var _ := box.Recv(child, rank);
          barrierReplies := barrierReplies + 1;
        } else {
          assert forall src: nat | src < cfg.n && src !in late :: !box.Visible(late, src, rank);
        }
      }
    }

    method SendUp(box: Mailbox<()>, ghost b0: BarrierSys, ghost steps0: seq<BarrierStep>, ghost b1: BarrierSys)
      returns (ghost steps: seq<BarrierStep>, ghost b: BarrierSys)
      requires Has(box, b1) && BarrierPath(cfg, b0, rank, steps0, b1, false)
      requires CanBarrier(cfg, b1, rank, BarrierRaise)
      modifies this`barrierUp, box
      ensures Has(box, b) && BarrierPath(cfg, b0, rank, steps, b, false) && steps == steps0 + [BarrierRaise]
    {
      steps, b := Record(b0, steps0, b1, BarrierRaise);
      box.Send(rank, Parent(cfg, rank), ());
      barrierUp := true;
    }

    /** The barrier is complete. */
    method Complete(box: Mailbox<()>, ghost b0: BarrierSys, ghost steps0: seq<BarrierStep>, ghost b1: BarrierSys)
      returns (ghost steps: seq<BarrierStep>, ghost b: BarrierSys)
      requires Has(box, b1) && BarrierPath(cfg, b0, rank, steps0, b1, false)
      requires CanBarrier(cfg, b1, rank, if rank == 0 then BarrierRoot else BarrierFall)
      modifies this, box
      ensures Has(box, b) && BarrierPath(cfg, b0, rank, steps, b, true) && !barrierUp
    {
      if rank > 0 {
        steps, b := Record(b0, steps0, b1, BarrierFall);
        var _ := box.Recv(Parent(cfg, rank), rank);
        Scatter(box);
      } else {
        steps, b := Record(b0, steps0, b1, BarrierRoot);
        Scatter(box);
      }
    }

    /** Tell the children, and reset the state for another barrier. */
    method Scatter(box: Mailbox<()>)
      requires Valid()
      modifies this, box
      ensures box.chan == Cast(old(box.chan), rank, Kids(cfg, rank), ())
      ensures !barrierStarted && !barrierUp && barrierReplies == 0
    {
      ChildListIsKids(cfg, rank);
      box.SendToAll(rank, tree, Kids(cfg, rank), ());
      barrierStarted, barrierUp, barrierReplies := false, false, 0;
    }

    /** CIRCLE_barrier_test. */
    method Test(box: Mailbox<()>, late: set<nat>, ghost b0: BarrierSys)
      returns (complete: bool, ghost steps: seq<BarrierStep>, ghost b: BarrierSys)
      requires Has(box, b0) && (rank == 0 ==> !barrierUp)
      modifies this, box
      ensures Has(box, b) && BarrierPath(cfg, b0, rank, steps, b, complete)
      ensures steps == [] ==> !BarrierCanMove(cfg, b0, rank, late)
      ensures rank == 0 ==> !barrierUp
    {
      ChildListIsKids(cfg, rank);
      complete, steps, b := false, [], b0;
      if !barrierStarted {
        return;
      }
      steps, b := CountOne(box, late, b0);
      if !barrierUp && barrierReplies == |tree| {
        if rank > 0 {
          steps, b := SendUp(box, b0, steps, b);
        } else {
          complete := true;
        }
      }
      if rank > 0 && barrierUp && box.Visible(late, Parent(cfg, rank), rank) {
        complete := true;
      }
      if complete {
        steps, b := Complete(box, b0, steps, b);
      }
    }
  }
}
