/** CIRCLE_bcast_abort, CIRCLE_abort_start and CIRCLE_abort_check (libcircle/token.c), as they
    change the variables of one rank and the messages in flight, and the steps that they take. */
module AbortRank {
  import opened Channels
  import opened Tree
  import opened TreeInit
  import opened Network
  import opened AbortSignal

  /** Rank `x` takes `steps`. */
  ghost predicate AbortPath(cfg: Config, a: Sys, x: nat, cleanup: bool, steps: seq<AbortStep>, a': Sys)
    decreases |steps|
  {
    && Shape(cfg, a)
    && if steps == [] then a' == a
       else
         && CanAbort(cfg, a, x, steps[0])
         && AbortPath(cfg, AbortNext(cfg, a, x, steps[0], cleanup), x, cleanup, steps[1..], a')
  }

  lemma {:induction false} PathGrows(cfg: Config, a: Sys, x: nat, cleanup: bool, steps: seq<AbortStep>, mid: Sys,
                                     step: AbortStep)
    requires AbortPath(cfg, a, x, cleanup, steps, mid) && Shape(cfg, mid) && CanAbort(cfg, mid, x, step)
    ensures AbortPath(cfg, a, x, cleanup, steps + [step], AbortNext(cfg, mid, x, step, cleanup))
    decreases |steps|
  {
    var all := steps + [step];
    if steps == [] {
      assert all == [step] && all[1..] == [];
    } else {
      assert all[0] == steps[0] && all[1..] == steps[1..] + [step];
      PathGrows(cfg, AbortNext(cfg, a, x, steps[0], cleanup), x, cleanup, steps[1..], mid, step);
    }
  }

  ghost predicate NoneHeard(steps: seq<AbortStep>) {
    forall i | 0 <= i < |steps| :: !steps[i].AbortHear?
  }

  /** The ranks whose abort request to `x` is in flight. */
  ghost function HeardFrom(cfg: Config, a: Sys, x: nat): set<nat>
    requires Shape(cfg, a)
  {
    set src: nat | src < cfg.n && CanHear(cfg, a, x, src)
  }

  class AbortState {
    const cfg: Config
    const rank: nat
    const tree: seq<nat>
    const requests: Mailbox<()>    // the messages with tag ABORT_REQUEST
    const replies: Mailbox<()>     // the messages with tag ABORT_REPLY
    var abortFlag: bool            // CIRCLE_ABORT_FLAG
    var abortState: bool
    var abortOutstanding: bool
    var awaiting: set<nat>         // whose replies the receives posted in abort_req wait for

    ghost predicate Valid() {
      cfg.Valid() && rank < cfg.n && tree == ChildList(cfg, rank) && requests != replies
    }

    /** The variables of this rank are those of `a`. */
    ghost predicate Owns(a: Sys)
      reads this
    {
      Valid() && Shape(cfg, a) && a.alarms[rank] == Alarm(abortFlag, abortState, abortOutstanding, awaiting)
    }

    /** So are the messages in flight. */
    ghost predicate Has(a: Sys)
      reads this, requests, replies
    {
      Owns(a) && a.request == requests.chan && a.reply == replies.chan
    }

    constructor (cfg: Config, rank: nat, requests: Mailbox<()>, replies: Mailbox<()>, flag: bool)
      requires cfg.Valid() && rank < cfg.n && requests != replies
      ensures Valid() && this.cfg == cfg && this.rank == rank && this.requests == requests && this.replies == replies
      ensures abortFlag == flag && !abortState && !abortOutstanding && awaiting == {}
    {
      this.cfg, this.rank, tree := cfg, rank, ChildList(cfg, rank);
      this.requests, this.replies := requests, replies;
      abortFlag, abortState, abortOutstanding, awaiting := flag, false, false, {};
    }

    /** The step of a path that a call takes. */
    lemma Record(a0: Sys, cleanup: bool, steps0: seq<AbortStep>, a1: Sys, step: AbortStep)
      returns (steps: seq<AbortStep>, a: Sys)
      requires Shape(cfg, a1) && AbortPath(cfg, a0, rank, cleanup, steps0, a1) && CanAbort(cfg, a1, rank, step)
      ensures steps == steps0 + [step] && a == AbortNext(cfg, a1, rank, step, cleanup)
      ensures Shape(cfg, a) && AbortPath(cfg, a0, rank, cleanup, steps, a)
    {
      PathGrows(cfg, a0, rank, cleanup, steps0, a1, step);
      steps, a := steps0 + [step], AbortNext(cfg, a1, rank, step, cleanup);
    }

    /** CIRCLE_bcast_abort. */
    method BcastAbort()
      modifies this`abortFlag
      ensures abortFlag
    {
      abortFlag := true;
    }

    /** The neighbours in the order in which CIRCLE_abort_start visits them. */
    function NeighbourList(): seq<nat>
      requires Valid()
    {
      (if rank > 0 then [Parent(cfg, rank)] else []) + tree
    }

    lemma NeighbourListIsNeighbours()
      requires Valid()
      ensures forall i, j | 0 <= i < j < |NeighbourList()| :: NeighbourList()[i] < NeighbourList()[j]
      ensures forall d: nat :: d in Neighbours(cfg, rank) <==> d in NeighbourList()
      ensures NeighbourList() == [] <==> Neighbours(cfg, rank) == {}
    {
      ChildListIsKids(cfg, rank);
      var list := NeighbourList();
      forall i, j | 0 <= i < j < |list| ensures list[i] < list[j] {
        if rank > 0 && i == 0 {
          assert list[j] in tree;
        }
      }
      if list != [] {
        assert list[0] in list;
      }
    }

    /** CIRCLE_abort_start. */
    method Start(cleanup: bool, ghost a0: Sys) returns (ghost a: Sys)
      requires Has(a0)
      modifies this`abortFlag, this`abortState, this`abortOutstanding, this`awaiting, requests
      ensures Has(a) && a == AbortSignal.Start(cfg, a0, rank, cleanup) && abortFlag && abortState
      ensures if !old(abortState) && !cleanup
              then && awaiting == Neighbours(cfg, rank) && abortOutstanding == (old(abortOutstanding) || awaiting != {})
                   && forall x: nat, y: nat ::
                        At(requests.chan, x, y) == old(At(requests.chan, x, y))
                                                   + if x == rank && y in Neighbours(cfg, rank) then [()] else []
              else unchanged(requests) && awaiting == old(awaiting) && abortOutstanding == old(abortOutstanding)
    {
      a := AbortSignal.Start(cfg, a0, rank, cleanup);
      abortFlag := true;
      if abortState {
        return;
      }
      abortState := true;
      if cleanup {
        return;
      }
      NeighbourListIsNeighbours();
      var list := NeighbourList();
      awaiting := Neighbours(cfg, rank);
      requests.SendToAll(rank, list, Neighbours(cfg, rank), ());
      if |list| > 0 {
        abortOutstanding := true;
      }
    }

    /** Enter the abort state if the flag is set. */
    method Begin(cleanup: bool, ghost a0: Sys) returns (ghost steps: seq<AbortStep>, ghost a: Sys)
      requires Has(a0)
      modifies this`abortFlag, this`abortState, this`abortOutstanding, this`awaiting, requests
      ensures Has(a) && AbortPath(cfg, a0, rank, cleanup, steps, a) && NoneHeard(steps)
      ensures a.reply == a0.reply && HeardFrom(cfg, a0, rank) == HeardFrom(cfg, a, rank)
      ensures cleanup ==> requests.chan == old(requests.chan)
      ensures abortFlag == old(abortFlag) && (abortFlag ==> abortState)
    {
      steps, a := [], a0;
      if abortFlag {
        steps, a := Record(a0, cleanup, steps, a, AbortStart);
        ghost var after := Start(cleanup, a0);
      }
    }

    /** Receive one abort request, if one is there, reply to it, and enter the abort state. */
    method HearRequest(cleanup: bool, late: set<nat>, ghost a0: Sys, ghost steps0: seq<AbortStep>, ghost a1: Sys)
      returns (ghost steps: seq<AbortStep>, ghost a: Sys)
      requires Has(a1) && AbortPath(cfg, a0, rank, cleanup, steps0, a1) && NoneHeard(steps0)
      requires abortFlag ==> abortState
      modifies this`abortFlag, this`abortState, this`abortOutstanding, this`awaiting, requests, replies
      ensures Has(a) && AbortPath(cfg, a0, rank, cleanup, steps, a)
      ensures (abortFlag ==> abortState) && (old(abortFlag) ==> abortFlag)
      ensures NoneHeard(steps) ==> HeardFrom(cfg, a1, rank) <= late
      ensures cleanup && requests.chan == old(requests.chan) ==> HeardFrom(cfg, a1, rank) <= late
      ensures !NoneHeard(steps) ==> abortState
    {
      steps, a := steps0, a1;
      var flag, src := requests.ProbeAny(cfg.n, late, rank);
      if flag {
        steps, a := Record(a0, cleanup, steps0, a1, AbortHear(src));
        assert steps[|steps0|].AbortHear?;
        var _ := requests.Recv(src, rank);
        replies.Send(rank, src, ());
        ghost var mid := a1.(request := requests.chan, reply := replies.chan);
        ghost var after := Start(cleanup, mid);
      } else {
        assert forall x: nat | x < cfg.n && x !in late :: !requests.Visible(late, x, rank);
      }
    }

    /** MPI_Testall on abort_req: the receives are matched by the replies that are there. */
    method TestAll(late: set<nat>, sent: bool, ghost a0: Sys, cleanup: bool, ghost steps0: seq<AbortStep>,
                   ghost a1: Sys)
      returns (flag: bool, ghost steps: seq<AbortStep>, ghost a: Sys)
      requires Has(a1) && AbortPath(cfg, a0, rank, cleanup, steps0, a1)
      modifies this`awaiting, replies
      ensures Has(a) && AbortPath(cfg, a0, rank, cleanup, steps, a) && steps0 <= steps
      ensures flag == (awaiting == {} && sent)
      ensures forall nb: nat | nb in awaiting && nb < cfg.n && nb !in late :: At(replies.chan, nb, rank) == []
      ensures a.alarms[rank].awaiting == awaiting
    {
      steps, a := steps0, a1;
      while exists nb: nat :: nb in awaiting && nb < cfg.n && replies.Visible(late, nb, rank)
        invariant Has(a) && AbortPath(cfg, a0, rank, cleanup, steps, a) && steps0 <= steps
        decreases |awaiting|
      {
        var nb: nat :| nb in awaiting && nb < cfg.n && replies.Visible(late, nb, rank);
        steps, a := Record(a0, cleanup, steps, a, AbortMatch(nb));
        var _ := replies.Recv(nb, rank);
        awaiting := awaiting - {nb};
      }
      flag := awaiting == {} && sent;
      forall nb: nat | nb in awaiting && nb < cfg.n && nb !in late ensures At(replies.chan, nb, rank) == [] {
        assert !replies.Visible(late, nb, rank);
      }
    }

    /** If abort messages are outstanding, test them. */
    method Reap(late: set<nat>, sent: bool, ghost a0: Sys, cleanup: bool, ghost steps0: seq<AbortStep>, ghost a1: Sys)
      returns (ghost steps: seq<AbortStep>, ghost a: Sys)
      requires Has(a1) && AbortPath(cfg, a0, rank, cleanup, steps0, a1)
      modifies this`awaiting, this`abortOutstanding, replies
      ensures Has(a) && AbortPath(cfg, a0, rank, cleanup, steps, a) && steps0 <= steps
      ensures abortOutstanding ==> ReplyMissing(late, sent)
    {
      steps, a := steps0, a1;
      if abortOutstanding {
        var flag;
        flag, steps, a := TestAll(late, sent, a0, cleanup, steps, a);
        if flag {
          steps, a := Record(a0, cleanup, steps, a, AbortTest);
          abortOutstanding := false;
        }
      }
    }

    /** Some request is not complete: a reply has not been noticed, or a send has not gone out. */
    ghost predicate ReplyMissing(late: set<nat>, sent: bool)
      reads this, replies
    {
      && (forall nb: nat | nb in awaiting && nb < cfg.n && nb !in late :: At(replies.chan, nb, rank) == [])
      && (awaiting != {} || !sent)
    }

    /** CIRCLE_abort_check; `sent` tells whether MPI finds the request sends complete. */
    method Check(cleanup: bool, late: set<nat>, sent: bool, ghost a0: Sys)
      returns (ghost steps: seq<AbortStep>, ghost a: Sys)
      requires Has(a0)
      modifies this, requests, replies
      ensures Has(a) && AbortPath(cfg, a0, rank, cleanup, steps, a)
      ensures (abortFlag ==> abortState) && (old(abortFlag) ==> abortFlag)
      ensures HeardFrom(cfg, a0, rank) <= late || (abortState && !NoneHeard(steps))
      ensures cleanup && requests.chan == old(requests.chan) ==> HeardFrom(cfg, a0, rank) <= late
      ensures abortOutstanding ==> ReplyMissing(late, sent)
    {
      steps, a := Begin(cleanup, a0);
      steps, a := HearRequest(cleanup, late, a0, steps, a);
      ghost var heard := steps;
      steps, a := Reap(late, sent, a0, cleanup, steps, a);
      if i :| 0 <= i < |heard| && heard[i].AbortHear? {
        assert steps[i].AbortHear?;
      }
    }
  }
}
