/** CIRCLE_reduce_check (libcircle/token.c), as it changes the variables of one rank and the
    messages in flight, and the steps of the reduction that it takes.

    The count is real; the user's data appears as its number of bytes only. */
module ReduceRank {
  import opened Channels
  import opened Tree
  import opened TreeInit
  import opened Network
  import opened BackgroundReduce

  /** In cleanup a reduction may be declined and not started, and before it the other way round. */
  predicate Fits(step: ReduceStep, cleanup: bool) {
    (step.ReduceStart? ==> !cleanup) && (step.ReduceDecline? ==> cleanup)
  }

  /** Rank `x` takes `steps`. */
  ghost predicate ReducePath(cfg: Config, r: Sys, x: nat, cleanup: bool, steps: seq<ReduceStep>, r': Sys)
    decreases |steps|
  {
    && Shape(cfg, r)
    && if steps == [] then r' == r
       else
         && CanReduce(cfg, r, x, steps[0]) && Fits(steps[0], cleanup)
         && ReducePath(cfg, ReduceNext(cfg, r, x, steps[0]), x, cleanup, steps[1..], r')
  }

  lemma {:induction false} PathGrows(cfg: Config, r: Sys, x: nat, cleanup: bool, steps: seq<ReduceStep>, mid: Sys,
                                     step: ReduceStep)
    requires ReducePath(cfg, r, x, cleanup, steps, mid) && Shape(cfg, mid)
    requires CanReduce(cfg, mid, x, step) && Fits(step, cleanup)
    ensures ReducePath(cfg, r, x, cleanup, steps + [step], ReduceNext(cfg, mid, x, step))
    decreases |steps|
  {
    var all := steps + [step];
    if steps == [] {
      assert all == [step] && all[1..] == [];
    } else {
      assert all[0] == steps[0] && all[1..] == steps[1..] + [step];
      PathGrows(cfg, ReduceNext(cfg, r, x, steps[0]), x, cleanup, steps[1..], mid, step);
    }
  }

  ghost predicate NoneFinishes(steps: seq<ReduceStep>) {
    forall i | 0 <= i < |steps| :: !steps[i].ReduceFinish?
  }

  /** If the part of the rank is `done`, its last step adds `count` and sends `bytes` bytes. */
  ghost predicate Finishes(steps: seq<ReduceStep>, done: bool, count: int, bytes: nat) {
    if done then steps != [] && NoneFinishes(steps[..|steps| - 1]) && steps[|steps| - 1] == ReduceFinish(count, bytes)
    else NoneFinishes(steps)
  }

  class ReduceState {
    const cfg: Config
    const rank: nat
    const tree: seq<nat>
    const box: Mailbox<Message>
    var reduceOutstanding: bool
    var reduceReplies: nat
    var valid: bool               // reduce_buf[0]
    var sum: int                  // reduce_buf[1]

    ghost predicate Valid() {
      cfg.Valid() && rank < cfg.n && tree == ChildList(cfg, rank)
    }

    /** The variables of this rank are those of `r`. */
    ghost predicate Owns(r: Sys)
      reads this
    {
      && Valid() && Shape(cfg, r)
      && r.ranks[rank] ==
         Local(reduceOutstanding, reduceReplies, valid, sum, r.ranks[rank].epoch, r.ranks[rank].gaveEpoch)
    }

    /** So are the messages in flight. */
    ghost predicate Has(r: Sys)
      reads this, box
    {
      Owns(r) && r.chan == box.chan
    }

    constructor (cfg: Config, rank: nat, box: Mailbox<Message>)
      requires cfg.Valid() && rank < cfg.n
      ensures Valid() && this.cfg == cfg && this.rank == rank && this.box == box
      ensures !reduceOutstanding
    {
      this.cfg, this.rank, tree, this.box := cfg, rank, ChildList(cfg, rank), box;
      reduceOutstanding, reduceReplies, valid, sum := false, 0, false, 0;
    }

    lemma Record(r0: Sys, cleanup: bool, steps0: seq<ReduceStep>, r1: Sys, step: ReduceStep)
      returns (steps: seq<ReduceStep>, r: Sys)
      requires Inv(cfg, r1) && ReducePath(cfg, r0, rank, cleanup, steps0, r1)
      requires CanReduce(cfg, r1, rank, step) && Fits(step, cleanup)
      ensures steps == steps0 + [step] && r == ReduceNext(cfg, r1, rank, step)
      ensures Inv(cfg, r) && ReducePath(cfg, r0, rank, cleanup, steps, r)
    {
      PathGrows(cfg, r0, rank, cleanup, steps0, r1, step);
      StepKeepsInv(cfg, r1, rank, step);
      steps, r := steps0 + [step], ReduceNext(cfg, r1, rank, step);
    }

    /** Receive the result of one child, whole. */
    method HearChild(child: nat, ghost r0: Sys) returns (ghost r: Sys)
      requires Has(r0) && CanCount(cfg, r0, rank, child)
      requires var h := At(box.chan, child, rank)[0]; At(box.chan, child, rank) == Result(h.valid, h.sum, h.bytes)
      modifies this`reduceReplies, this`valid, this`sum, box
      ensures Has(r) && r == Count(cfg, r0, rank, child)
      ensures At(box.chan, child, rank) == []
      ensures forall c: nat | c != child :: At(box.chan, c, rank) == old(At(box.chan, c, rank))
    {
      r := Count(cfg, r0, rank, child);
      var h := box.Recv(child, rank);
      reduceReplies := reduceReplies + 1;
      if !h.valid {
        valid := false;
      } else {
        sum := sum + h.sum;
        if h.bytes > 0 {
          var _ := box.Recv(child, rank);
        }
      }
    }

    method HearAndRecord(child: nat, ghost cleanup: bool, ghost r0: Sys, ghost steps0: seq<ReduceStep>, ghost r1: Sys)
      returns (ghost steps: seq<ReduceStep>, ghost r: Sys)
      requires Has(r1) && Inv(cfg, r1) && ReducePath(cfg, r0, rank, cleanup, steps0, r1)
      requires CanCount(cfg, r1, rank, child)
      requires var h := At(box.chan, child, rank)[0]; At(box.chan, child, rank) == Result(h.valid, h.sum, h.bytes)
      modifies this`reduceReplies, this`valid, this`sum, box
      ensures Has(r) && Inv(cfg, r) && ReducePath(cfg, r0, rank, cleanup, steps, r)
      ensures steps == steps0 + [ReduceCount(child)]
      ensures At(box.chan, child, rank) == []
      ensures forall c: nat | c != child :: At(box.chan, c, rank) == old(At(box.chan, c, rank))
    {
      steps, r := Record(r0, cleanup, steps0, r1, ReduceCount(child));
      ghost var after := HearChild(child, r1);
    }

    /** The loop over the children. */
    method HearAll(late: set<nat>, ghost cleanup: bool, ghost r0: Sys)
      returns (ghost steps: seq<ReduceStep>, ghost r: Sys)
      requires Has(r0) && Inv(cfg, r0) && reduceOutstanding
      modifies this`reduceReplies, this`valid, this`sum, box
      ensures Has(r) && Inv(cfg, r) && ReducePath(cfg, r0, rank, cleanup, steps, r) && NoneFinishes(steps)
      ensures forall i | 0 <= i < |tree| && tree[i] !in late :: At(box.chan, tree[i], rank) == []
    {
      ChildListIsKids(cfg, rank);
      steps, r := [], r0;
      for i := 0 to |tree|
        invariant Has(r) && Inv(cfg, r) && ReducePath(cfg, r0, rank, cleanup, steps, r) && NoneFinishes(steps)
        invariant forall j | 0 <= j < i && tree[j] !in late :: At(box.chan, tree[j], rank) == []
      {
        var child := tree[i];
        assert child in Kids(cfg, rank);
        if box.Visible(late, child, rank) {
          ResultIsWhole(cfg, r, rank, child);
          steps, r := HearAndRecord(child, cleanup, r0, steps, r);
        }
      }
    }

    /** The header, and the payload if there is any and it is valid. */
    method SendResult(bytes: nat)
      requires Valid() && rank >= 1
      modifies box
      ensures box.chan == PostAll(old(box.chan), rank, Parent(cfg, rank), Result(valid, sum, bytes))
    {
      ghost var before := At(box.chan, rank, Parent(cfg, rank));
      box.Send(rank, Parent(cfg, rank), Header(valid, sum, bytes));
      if bytes > 0 && valid {
        box.Send(rank, Parent(cfg, rank), Payload(bytes));
        assert before + [Header(valid, sum, bytes)] + [Payload(bytes)] == before + Result(valid, sum, bytes);
      } else {
        assert before + [Header(valid, sum, bytes)] == before + Result(valid, sum, bytes);
      }
    }

    /** All children have replied: add our own count, and pass the result on.  At the root,
        `delivered` tells whether it is delivered to the user. */
    method Finish(count: int, bytes: nat, ghost r0: Sys) returns (delivered: bool, ghost r: Sys)
      requires Has(r0) && CanFinish(cfg, r0, rank)
      modifies this`reduceOutstanding, this`sum, box
      ensures Has(r) && r == BackgroundReduce.Finish(cfg, r0, rank, count, bytes) && !reduceOutstanding
      ensures delivered == (rank == 0 && valid) && sum == old(sum) + count
      ensures rank > 0 ==>
                old(At(box.chan, rank, Parent(cfg, rank))) + [Header(valid, sum, bytes)]
                <= At(box.chan, rank, Parent(cfg, rank))
    {
      r := BackgroundReduce.Finish(cfg, r0, rank, count, bytes);
      sum := sum + count;
      if rank > 0 {
        SendResult(bytes);
      }
      delivered := rank == 0 && valid;
      reduceOutstanding := false;
    }

    /** Finish; what the root delivers is the sum over all ranks. */
    method Deliver(count: int, bytes: nat, ghost cleanup: bool, ghost r0: Sys, ghost steps0: seq<ReduceStep>,
                   ghost r1: Sys)
      returns (delivered: bool, ghost steps: seq<ReduceStep>, ghost r: Sys)
      requires Has(r1) && Inv(cfg, r1) && ReducePath(cfg, r0, rank, cleanup, steps0, r1)
      requires CanFinish(cfg, r1, rank)
      modifies this`reduceOutstanding, this`sum, box
      ensures Has(r) && Inv(cfg, r) && ReducePath(cfg, r0, rank, cleanup, steps, r) && !reduceOutstanding
      ensures steps == steps0 + [ReduceFinish(count, bytes)] && sum == old(sum) + count
      ensures delivered == (rank == 0 && valid) && (delivered ==> sum == Total(r.gave))
    {
      steps, r := Record(r0, cleanup, steps0, r1, ReduceFinish(count, bytes));
      ghost var after;
      delivered, after := Finish(count, bytes, r1);
      if delivered {
        DeliveredTotal(cfg, r1, count, bytes);
      }
    }

    /** Start a reduction, or take part in the one that the parent has started. */
    method Join(ghost r0: Sys) returns (ghost r: Sys)
      requires Has(r0) && CanBegin(cfg, r0, rank)
      modifies this`reduceOutstanding, this`reduceReplies, this`valid, this`sum, box
      ensures Has(r) && r == Start(cfg, r0, rank) && reduceOutstanding
    {
      ChildListIsKids(cfg, rank);
      if rank > 0 {
        var _ := box.Recv(Parent(cfg, rank), rank);
      }
      ghost var taken := box.chan;
      reduceOutstanding, reduceReplies, valid, sum := true, 0, true, 0;
      box.SendToAll(rank, tree, Kids(cfg, rank), Begin);
      r := Start(cfg, r0, rank);
      assert taken == if rank >= 1 then Take(r0.chan, Parent(cfg, rank), rank) else r0.chan;
    }

    /** In cleanup, answer a start message with an invalid result; the number of bytes in the header
        is that of an earlier one. */
    method Refuse(bytes: nat, ghost r0: Sys) returns (ghost r: Sys)
      requires Has(r0) && rank > 0 && CanBegin(cfg, r0, rank)
      modifies this`valid, box
      ensures Has(r) && r == Decline(cfg, r0, rank, bytes)
      ensures At(box.chan, Parent(cfg, rank), rank) == old(At(box.chan, Parent(cfg, rank), rank))[1..]
    {
      r := Decline(cfg, r0, rank, bytes);
      var _ := box.Recv(Parent(cfg, rank), rank);
      valid := false;
      SendResult(bytes);
    }

    /** CIRCLE_reduce_check; `due` tells whether the interval has passed. */
    method Check(count: int, cleanup: bool, due: bool, bytes: nat, late: set<nat>, ghost r0: Sys)
      returns (delivered: bool, ghost steps: seq<ReduceStep>, ghost r: Sys)
      requires Has(r0) && Inv(cfg, r0)
      modifies this, box
      ensures Has(r) && Inv(cfg, r) && ReducePath(cfg, r0, rank, cleanup, steps, r)
      ensures old(reduceOutstanding) && reduceOutstanding ==>
                && reduceReplies != |tree|
                && forall i | 0 <= i < |tree| && tree[i] !in late :: At(box.chan, tree[i], rank) == []
      ensures !old(reduceOutstanding) ==>
                reduceOutstanding == (due && !cleanup && (rank == 0 || old(box.Visible(late, Parent(cfg, rank), rank))))
      ensures !old(reduceOutstanding) && cleanup && rank > 0 ==> !box.Visible(late, Parent(cfg, rank), rank)
      ensures Finishes(steps, old(reduceOutstanding) && !reduceOutstanding, count, bytes)
      ensures delivered == (rank == 0 && valid && old(reduceOutstanding) && !reduceOutstanding)
      ensures delivered ==> sum == Total(r.gave)
    {
      ChildListIsKids(cfg, rank);
      delivered, steps, r := false, [], r0;
      if reduceOutstanding {
        steps, r := HearAll(late, cleanup, r0);
        if reduceReplies == |tree| {
          delivered, steps, r := Deliver(count, bytes, cleanup, r0, steps, r);
        }
      } else if due || cleanup {
        if rank == 0 {
          if !cleanup {
            steps, r := Record(r0, cleanup, [], r0, ReduceStart);
            ghost var after := Join(r0);
          }
        } else if box.Visible(late, Parent(cfg, rank), rank) {
          StartIsWhole(cfg, r0, rank);
          if cleanup {
            steps, r := Record(r0, cleanup, [], r0, ReduceDecline(bytes));
            ghost var after := Refuse(bytes, r0);
          } else {
            steps, r := Record(r0, cleanup, [], r0, ReduceStart);
            ghost var after := Join(r0);
          }
        }
      }
    }
  }
}
