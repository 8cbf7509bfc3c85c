/** CIRCLE_check_for_term_allreduce (libcircle/token.c), as it changes the variables of one rank
    and the messages in flight, and the steps of the allreduce that it takes. */
module TermRank {
  import opened Channels
  import opened Tree
  import opened TreeInit
  import opened Network
  import opened Termination
  import H = Handshake

  predicate Completes(step: TermStep) {
    step.TermRoot? || step.TermFall?
  }

  /** Rank `x` takes `steps`, of which only the last may complete a round; `verdict` tells whether it
      completes one with result 1. */
  ghost predicate TermPath(cfg: Config, t: TermSys, x: nat, steps: seq<TermStep>, t': TermSys, verdict: bool)
    decreases |steps|
  {
    && TermShape(cfg, t)
    && if steps == [] then t' == t && !verdict
       else
         && CanTerm(cfg, t, x, steps[0])
         && if |steps| == 1 then t' == TermNext(cfg, t, x, steps[0]) && verdict == Verdict(cfg, t, x, steps[0])
            else !Completes(steps[0]) && TermPath(cfg, TermNext(cfg, t, x, steps[0]), x, steps[1..], t', verdict)
  }

  ghost predicate NoneCompletes(steps: seq<TermStep>) {
    forall i | 0 <= i < |steps| :: !Completes(steps[i])
  }

  ghost predicate OnlyCounts(steps: seq<TermStep>) {
    forall i | 0 <= i < |steps| :: steps[i].TermCount?
  }

  lemma {:induction false} PathEnds(cfg: Config, t: TermSys, x: nat, steps: seq<TermStep>, t': TermSys, verdict: bool)
    requires TermPath(cfg, t, x, steps, t', verdict)
    ensures TermShape(cfg, t')
    decreases |steps|
  {
    if |steps| > 1 {
      PathEnds(cfg, TermNext(cfg, t, x, steps[0]), x, steps[1..], t', verdict);
    }
  }

  lemma {:induction false} PathGrows(cfg: Config, t: TermSys, x: nat, steps: seq<TermStep>, mid: TermSys,
                                     step: TermStep)
    requires TermPath(cfg, t, x, steps, mid, false) && NoneCompletes(steps)
    requires TermShape(cfg, mid) && CanTerm(cfg, mid, x, step)
    ensures TermPath(cfg, t, x, steps + [step], TermNext(cfg, mid, x, step), Verdict(cfg, mid, x, step))
    decreases |steps|
  {
    if steps == [] {
      assert steps + [step] == [step];
    } else {
      var all := steps + [step];
      assert all[0] == steps[0] && all[1..] == steps[1..] + [step];
      if |steps| == 1 {
        assert steps[1..] == [];
      }
      PathGrows(cfg, TermNext(cfg, t, x, steps[0]), x, steps[1..], mid, step);
    }
  }

  lemma StepGoesOn(cfg: Config, t: TermSys, x: nat, step: TermStep)
    requires TermShape(cfg, t) && CanTerm(cfg, t, x, step)
    ensures H.GoesOn(t.nodes[x], TermNext(cfg, t, x, step).nodes[x])
  {
  }

  /** A rank that takes any step is not where it was. */
  lemma {:induction false} PathGoesOn(cfg: Config, t: TermSys, x: nat, steps: seq<TermStep>, t': TermSys, verdict: bool)
    requires TermPath(cfg, t, x, steps, t', verdict) && steps != []
    ensures x < cfg.n && |t'.nodes| == cfg.n && H.GoesOn(t.nodes[x], t'.nodes[x])
    decreases |steps|
  {
    StepGoesOn(cfg, t, x, steps[0]);
    if |steps| > 1 {
      PathGoesOn(cfg, TermNext(cfg, t, x, steps[0]), x, steps[1..], t', verdict);
    }
  }

  /** Nothing more can be done at `x`, but for messages that have not been noticed. */
  ghost predicate TermStuck(cfg: Config, t: TermSys, x: nat, outstanding: nat, late: set<nat>)
    requires TermShape(cfg, t) && x < cfg.n
  {
    && (forall src: nat | src < cfg.n && src !in late :: !CanTerm(cfg, t, x, TermCount(src)))
    && (outstanding == 0 ==>
          && !CanTerm(cfg, t, x, TermRaise) && !CanTerm(cfg, t, x, TermRoot)
          && (x >= 1 && Parent(cfg, x) !in late ==> !CanTerm(cfg, t, x, TermFall)))
  }

  class TermState {
    const cfg: Config
    const rank: nat
    const tree: seq<nat>       // tree.child_ranks[..tree.children]
    var termFlag: bool
    var termUp: bool
    var termReplies: nat

    ghost predicate Valid() {
      cfg.Valid() && rank < cfg.n && tree == ChildList(cfg, rank)
    }

    /** The variables of this rank are those of `t`. */
    ghost predicate Owns(t: TermSys)
      reads this
    {
      && Valid() && TermShape(cfg, t)
      && t.flags[rank] == termFlag && t.nodes[rank].up == termUp && t.nodes[rank].replies == termReplies
    }

    /** So are the messages in flight. */
    ghost predicate Has(box: Mailbox<bool>, t: TermSys)
      reads this, box
    {
      Owns(t) && t.chan == box.chan
    }

    /** The termination part of CIRCLE_init_local_state. */
    constructor (cfg: Config, rank: nat)
      requires cfg.Valid() && rank < cfg.n
      ensures Valid() && this.cfg == cfg && this.rank == rank
      ensures termFlag && !termUp && termReplies == 0
    {
      this.cfg, this.rank, tree := cfg, rank, ChildList(cfg, rank);
      termFlag, termUp, termReplies := true, false, 0;
    }

    /** The loop over the messages of children. */
    method CountAll(box: Mailbox<bool>, late: set<nat>, ghost t0: TermSys)
      returns (ghost steps: seq<TermStep>, ghost t: TermSys)
      requires Has(box, t0)
      modifies this`termFlag, this`termReplies, box
      ensures Has(box, t) && TermPath(cfg, t0, rank, steps, t, false) && OnlyCounts(steps)
      ensures forall src: nat | src < cfg.n && src !in late :: !CanTerm(cfg, t, rank, TermCount(src))
    {
      ChildListIsKids(cfg, rank);
      steps, t := [], t0;
      while termReplies < |tree|
        invariant Has(box, t) && TermPath(cfg, t0, rank, steps, t, false) && OnlyCounts(steps)
        decreases |tree| - termReplies
      {
        var flag, child := box.ProbeAny(cfg.n, late, rank);
        if !flag {
          assert forall src: nat | src < cfg.n && src !in late :: !box.Visible(late, src, rank);
          break;
        }
        steps, t := CountOne(box, child, t0, steps, t);
      }
    }

    /** Receive the flag of one child. */
    method CountOne(box: Mailbox<bool>, child: nat, ghost t0: TermSys, ghost steps0: seq<TermStep>, ghost t1: TermSys)
      returns (ghost steps: seq<TermStep>, ghost t: TermSys)
      requires Has(box, t1) && TermPath(cfg, t0, rank, steps0, t1, false) && OnlyCounts(steps0)
      requires CanTerm(cfg, t1, rank, TermCount(child))
      modifies this`termFlag, this`termReplies, box
      ensures Has(box, t) && TermPath(cfg, t0, rank, steps, t, false) && OnlyCounts(steps)
      ensures termReplies == old(termReplies) + 1
    {
      PathGrows(cfg, t0, rank, steps0, t1, TermCount(child));
      steps, t := steps0 + [TermCount(child)], TermNext(cfg, t1, rank, TermCount(child));
      var childFlag := box.Recv(child, rank);
      termFlag := termFlag && childFlag;
      termReplies := termReplies + 1;
    }

    /** Send the partial result to the parent. */
    method SendUp(box: Mailbox<bool>, ghost t0: TermSys, ghost steps0: seq<TermStep>, ghost t1: TermSys)
      returns (ghost steps: seq<TermStep>, ghost t: TermSys)
      requires Has(box, t1) && TermPath(cfg, t0, rank, steps0, t1, false) && NoneCompletes(steps0)
      requires CanTerm(cfg, t1, rank, TermRaise)
      modifies this`termFlag, this`termUp, box
      ensures Has(box, t) && TermPath(cfg, t0, rank, steps, t, false) && NoneCompletes(steps)
      ensures termUp && t == TermNext(cfg, t1, rank, TermRaise)
    {
      PathGrows(cfg, t0, rank, steps0, t1, TermRaise);
      steps, t := steps0 + [TermRaise], TermNext(cfg, t1, rank, TermRaise);
      box.Send(rank, Parent(cfg, rank), termFlag);
      termFlag := true;
      termUp := true;
    }

    /** The result comes from the parent, and goes on to the children. */
    method HearParent(box: Mailbox<bool>, ghost t0: TermSys, ghost steps0: seq<TermStep>, ghost t1: TermSys)
      returns (result: bool, ghost steps: seq<TermStep>, ghost t: TermSys)
      requires Has(box, t1) && TermPath(cfg, t0, rank, steps0, t1, false) && NoneCompletes(steps0)
      requires CanTerm(cfg, t1, rank, TermFall)
      modifies this`termUp, this`termReplies, box
      ensures Has(box, t) && TermPath(cfg, t0, rank, steps, t, result) && !NoneCompletes(steps)
    {
      PathGrows(cfg, t0, rank, steps0, t1, TermFall);
      steps, t := steps0 + [TermFall], TermNext(cfg, t1, rank, TermFall);
      assert Completes(steps[|steps0|]);
      result := box.Recv(Parent(cfg, rank), rank);
      Scatter(box, result);
    }

    /** The root has the result, and sends it to its children. */
    method Conclude(box: Mailbox<bool>, ghost t0: TermSys, ghost steps0: seq<TermStep>, ghost t1: TermSys)
      returns (result: bool, ghost steps: seq<TermStep>, ghost t: TermSys)
      requires Has(box, t1) && TermPath(cfg, t0, rank, steps0, t1, false) && NoneCompletes(steps0)
      requires CanTerm(cfg, t1, rank, TermRoot)
      modifies this`termFlag, this`termUp, this`termReplies, box
      ensures Has(box, t) && TermPath(cfg, t0, rank, steps, t, result) && !NoneCompletes(steps) && !termUp
    {
      PathGrows(cfg, t0, rank, steps0, t1, TermRoot);
      steps, t := steps0 + [TermRoot], TermNext(cfg, t1, rank, TermRoot);
      assert Completes(steps[|steps0|]);
      result := termFlag;
      termFlag := true;
      Scatter(box, result);
    }

    /** Forward the result and reset the state for another allreduce. */
    method Scatter(box: Mailbox<bool>, result: bool)
      requires Valid()
      modifies this`termUp, this`termReplies, box
      ensures box.chan == Cast(old(box.chan), rank, Kids(cfg, rank), result)
      ensures !termUp && termReplies == 0
    {
      ChildListIsKids(cfg, rank);
      box.SendToAll(rank, tree, Kids(cfg, rank), result);
      termUp := false;
      termReplies := 0;
    }

    /** CIRCLE_check_for_term_allreduce; `outstanding` is work_outstanding. */
    method CheckForTerm(box: Mailbox<bool>, outstanding: nat, late: set<nat>, ghost t0: TermSys)
      returns (terminate: bool, ghost steps: seq<TermStep>, ghost t: TermSys)
      requires Has(box, t0) && (rank == 0 ==> !termUp)
      modifies this`termFlag, this`termReplies, this`termUp, box
      ensures Has(box, t) && TermPath(cfg, t0, rank, steps, t, terminate)
      ensures outstanding > 0 ==> OnlyCounts(steps)
      ensures NoneCompletes(steps) ==> TermStuck(cfg, t, rank, outstanding, late)
      ensures rank == 0 ==> !termUp
    {
      ChildListIsKids(cfg, rank);
      terminate := false;
      steps, t := CountAll(box, late, t0);
      if outstanding > 0 {
        return;
      }
      if !termUp && termReplies == |tree| {
        if rank > 0 {
          steps, t := SendUp(box, t0, steps, t);
        } else {
          terminate, steps, t := Conclude(box, t0, steps, t);
        }
      }
      if rank > 0 && termUp && box.Visible(late, Parent(cfg, rank), rank) {
        terminate, steps, t := HearParent(box, t0, steps, t);
      }
    }
  }
}
