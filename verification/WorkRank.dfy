/** CIRCLE_workreq_check, CIRCLE_workreceipt_check and CIRCLE_request_work (libcircle/token.c), as
    they change the variables of one rank and the messages in flight, and the steps of the work
    transfer that they take.

    The queue is the sequence of its strings; `StringPool` and `Splitting` are about the bytes.
 */
module WorkRank {
  import opened Channels
  import opened Network
  import opened WorkTransfer
  import Splitting

  /** In cleanup or after an abort no items are sent and no work is requested. */
  predicate Fits(step: WorkStep, cleanup: bool, aborted: bool) {
    && (step.DoAsk? || step.DoShare? || step.DoProcess? ==> !cleanup && !aborted)
    && (step.DoSettle? ==> !cleanup)
  }

  /** Rank `x` takes `steps`. */
  ghost predicate WorkPath(n: nat, w: Sys, x: nat, cleanup: bool, aborted: bool, steps: seq<WorkStep>, w': Sys)
    decreases |steps|
  {
    && |w.desks| == n
    && if steps == [] then w' == w
       else
         && CanWork(n, w, x, steps[0]) && Fits(steps[0], cleanup, aborted)
         && WorkPath(n, WorkNext(n, w, x, steps[0], aborted), x, cleanup, aborted, steps[1..], w')
  }

  lemma {:induction false} PathGrows(n: nat, w: Sys, x: nat, cleanup: bool, aborted: bool,
                                     steps: seq<WorkStep>, mid: Sys, step: WorkStep)
    requires WorkPath(n, w, x, cleanup, aborted, steps, mid)
    requires |mid.desks| == n && CanWork(n, mid, x, step) && Fits(step, cleanup, aborted)
    ensures WorkPath(n, w, x, cleanup, aborted, steps + [step], WorkNext(n, mid, x, step, aborted))
    decreases |steps|
  {
    var all := steps + [step];
    if steps == [] {
      assert all == [step] && all[1..] == [];
    } else {
      assert all[0] == steps[0] && all[1..] == steps[1..] + [step];
      PathGrows(n, WorkNext(n, w, x, steps[0], aborted), x, cleanup, aborted, steps[1..], mid, step);
    }
  }

  lemma StepKeepsDiscipline(n: nat, w: Sys, x: nat, step: WorkStep, aborted: bool)
    requires Discipline(n, w) && CanWork(n, w, x, step)
    ensures Discipline(n, WorkNext(n, w, x, step, aborted))
  {
    match step
    case DoAsk(to) => AskKeepsDiscipline(n, w, x, to);
    case DoHearNo => HearNoKeepsDiscipline(n, w, x);
    case DoReceive => ReceiveKeepsDiscipline(n, w, x);
    case DoDrain(from) => DrainKeepsDiscipline(n, w, x, from);
    case DoRefuse => RefuseKeepsDiscipline(n, w, x, aborted);
    case DoShare(m) => ShareKeepsDiscipline(n, w, x, m);
    case DoSettle(from) => SettleKeepsDiscipline(n, w, x, from);
    case DoProcess(ops) => ProcessKeepsDiscipline(n, w, x, ops);
  }

  lemma {:induction false} PathKeepsDiscipline(n: nat, w: Sys, x: nat, cleanup: bool, aborted: bool,
                                               steps: seq<WorkStep>, w': Sys)
    requires Discipline(n, w) && WorkPath(n, w, x, cleanup, aborted, steps, w')
    ensures Discipline(n, w')
    decreases |steps|
  {
    if steps != [] {
      StepKeepsDiscipline(n, w, x, steps[0], aborted);
      PathKeepsDiscipline(n, WorkNext(n, w, x, steps[0], aborted), x, cleanup, aborted, steps[1..], w');
    }
  }

  /** What serving requests consists of. */
  ghost predicate Serves(steps: seq<WorkStep>) {
    forall i | 0 <= i < |steps| :: steps[i].DoDrain? || steps[i].DoRefuse? || steps[i].DoShare?
  }

  /** The answer to a requestor that `count` items are meant for: some of them, and "no work" exactly if there
      are none. */
  predicate Fair(step: WorkStep, count: nat) {
    if count == 0 then step == DoRefuse else step.DoShare? && 1 <= step.items <= count
  }

  /** Answer `i` is fair to a requestor that `sizes[i + 1]` items are meant for. */
  ghost predicate AllFair(answers: seq<WorkStep>, sizes: seq<nat>) {
    |answers| < |sizes| && forall i | 0 <= i < |answers| :: Fair(answers[i], sizes[i + 1])
  }

  lemma FairNext(answers: seq<WorkStep>, step: WorkStep, sizes: seq<nat>)
    requires AllFair(answers, sizes) && |answers| + 1 < |sizes| && Fair(step, sizes[|answers| + 1])
    ensures AllFair(answers + [step], sizes)
  {
  }

  /** `k` requests are received, and then they are answered one by one: with "no work" if they are turned away,
      and otherwise as `sizes` divides the `count` items of the queue, if it has any. */
  ghost predicate ServesAll(steps: seq<WorkStep>, k: nat, sizes: seq<nat>, away: bool, count: nat, equal: bool) {
    && |steps| == 2 * k
    && (forall i | 0 <= i < k :: steps[i].DoDrain?)
    && (k > 0 && !away && count > 0 ==> Splitting.Divides(sizes, count, k, equal))
    && forall i | k <= i < 2 * k ::
         if away || count == 0 then steps[i] == DoRefuse else i - k + 1 < |sizes| && Fair(steps[i], sizes[i - k + 1])
  }

  /** Some number of requests is served in this way. */
  ghost predicate ServedFully(steps: seq<WorkStep>, away: bool, count: nat, equal: bool) {
    exists k: nat, sizes: seq<nat> :: ServesAll(steps, k, sizes, away, count, equal)
  }

  /** At most one step: a request, or the receive of a reply; `abort` tells whether it is the abort
      payload. */
  ghost predicate RequestOk(n: nat, x: nat, cleanup: bool, aborted: bool, w: Sys, steps: seq<WorkStep>,
                            abort: bool, w': Sys)
    requires |w.desks| == n && x < n
  {
    && |steps| <= 1 && WorkPath(n, w, x, cleanup, aborted, steps, w')
    && (steps != [] ==> steps[0].DoAsk? || steps[0].DoHearNo? || steps[0].DoReceive?)
    && abort == (steps == [DoHearNo] && At(w.reply, w.desks[x].source, x)[0] == NoWork(true))
  }

  class WorkState {
    const size: nat
    const rank: nat
    const requests: Mailbox<()>     // the messages with tag WORK_REQUEST
    const replies: Mailbox<Reply>   // the messages with tag WORK_REPLY
    const receipts: Mailbox<()>     // the messages with tag WORK_RECEIPT
    const requestors: array<nat>
    var queue: seq<Item>
    var workRequested: bool
    var workRequestedRank: nat
    var workOutstanding: nat
    var nextProcessor: int          // negative if there is no one to ask

    ghost predicate Valid() {
      rank < size && requests != receipts && requestors.Length == size
    }

    /** The variables of this rank, with the requests that it has received and not answered, are those
        of `w`. */
    ghost predicate Owns(w: Sys, listed: seq<nat>)
      reads this
    {
      && Valid() && |w.desks| == size
      && w.desks[rank] == Desk(queue, workRequested, workRequestedRank, listed, workOutstanding)
      && (nextProcessor >= 0 ==> CanAskNext())
    }

    /** So are the messages in flight. */
    ghost predicate Has(w: Sys, listed: seq<nat>)
      reads this, requests, replies, receipts
    {
      && Owns(w, listed)
      && w.request == requests.chan && w.reply == replies.chan && w.receipt == receipts.chan
    }

    /** The work part of CIRCLE_init_local_state; `first` is a random number. */
    constructor (size: nat, rank: nat, requests: Mailbox<()>, replies: Mailbox<Reply>, receipts: Mailbox<()>,
                 queue: seq<Item>, first: nat)
      requires rank < size && requests != receipts
      requires size > 1 ==> first < size && first != rank
      ensures Valid() && this.size == size && this.rank == rank && this.queue == queue
      ensures this.requests == requests && this.replies == replies && this.receipts == receipts
      ensures !workRequested && workOutstanding == 0 && (size > 1 ==> CanAskNext())
      ensures fresh(requestors)
    {
      this.size, this.rank, this.queue := size, rank, queue;
      this.requests, this.replies, this.receipts := requests, replies, receipts;
      workRequested, workRequestedRank, workOutstanding := false, 0, 0;
      nextProcessor := if size > 1 then first else -1;
      requestors := new nat[size](_ => 0);
    }

    /** CIRCLE_get_next_proc has chosen some other rank. */
    predicate CanAskNext()
      reads this`nextProcessor
    {
      0 <= nextProcessor < size && nextProcessor != rank
    }

    // ----- receipts -----

    /** CIRCLE_workreceipt_check.  If it receives any receipt, the flag of the termination allreduce is
        cleared. */
    method ReceiptCheck(late: set<nat>, ghost aborted: bool, ghost w0: Sys)
      returns (settled: bool, ghost steps: seq<WorkStep>, ghost w: Sys)
      requires Has(w0, [])
      modifies this`workOutstanding, receipts
      ensures Has(w, []) && WorkPath(size, w0, rank, false, aborted, steps, w)
      ensures forall i | 0 <= i < |steps| :: steps[i].DoSettle?
      ensures settled == (|steps| > 0)
      ensures workOutstanding > 0 ==> forall src: nat | src < size :: !receipts.Visible(late, src, rank)
    {
      settled, steps, w := false, [], w0;
      while workOutstanding > 0
        invariant Has(w, []) && WorkPath(size, w0, rank, false, aborted, steps, w)
        invariant forall i | 0 <= i < |steps| :: steps[i].DoSettle?
        invariant settled == (|steps| > 0)
        decreases workOutstanding
      {
        var flag, src := receipts.ProbeAny(size, late, rank);
        if !flag {
          break;
        }
        PathGrows(size, w0, rank, false, aborted, steps, w, DoSettle(src));
        steps, w := steps + [DoSettle(src)], Settle(size, w, rank, src);
        var _ := receipts.Recv(src, rank);
        workOutstanding := workOutstanding - 1;
        settled := true;
      }
    }

    // ----- requests -----

    /** Receive a request and list it: there is room for it. */
    method DrainOne(src: nat, rcount: nat, ghost w0: Sys) returns (ghost w: Sys)
      requires rcount <= requestors.Length && Has(w0, requestors[..rcount]) && Discipline(size, w0)
      requires CanDrain(size, w0, rank, src)
      modifies requestors, requests
      ensures w == Drain(size, w0, rank, src) && Discipline(size, w)
      ensures rcount + 1 < requestors.Length && Has(w, requestors[..rcount + 1])
    {
      w := Drain(size, w0, rank, src);
      DrainKeepsDiscipline(size, w0, rank, src);
      RequestorsAreDistinct(size, w, rank);
      DistinctBelow(w.desks[rank].requestors, size, rank);
      var _ := requests.Recv(src, rank);
      requestors[rcount] := src;
      assert requestors[..rcount + 1] == w.desks[rank].requestors;
    }

    /** Receive all requests that are there. */
    method DrainAll(late: set<nat>, ghost cleanup: bool, ghost aborted: bool, ghost w0: Sys)
      returns (rcount: nat, ghost steps: seq<WorkStep>, ghost w: Sys)
      requires Has(w0, []) && Discipline(size, w0)
      modifies requestors, requests
      ensures rcount <= requestors.Length && Has(w, requestors[..rcount]) && Discipline(size, w)
      ensures WorkPath(size, w0, rank, cleanup, aborted, steps, w)
      ensures |steps| == rcount && forall i | 0 <= i < |steps| :: steps[i].DoDrain?
      ensures forall src: nat | src < size :: !requests.Visible(late, src, rank)
    {
      rcount, steps, w := 0, [], w0;
      assert requestors[..0] == [];
      while true
        invariant rcount <= requestors.Length && Has(w, requestors[..rcount]) && Discipline(size, w)
        invariant WorkPath(size, w0, rank, cleanup, aborted, steps, w)
        invariant |steps| == rcount && forall i | 0 <= i < |steps| :: steps[i].DoDrain?
        decreases requestors.Length - rcount
      {
        var flag, src := requests.ProbeAny(size, late, rank);
        if !flag {
          break;
        }
        PathGrows(size, w0, rank, cleanup, aborted, steps, w, DoDrain(src));
        steps := steps + [DoDrain(src)];
        w := DrainOne(src, rcount, w);
        rcount := rcount + 1;
      }
    }

    /** CIRCLE_send_no_work. */
    method SendNoWork(dest: nat, aborted: bool, ghost rest: seq<nat>, ghost w0: Sys) returns (ghost w: Sys)
      requires Has(w0, [dest] + rest)
      modifies replies
      ensures Has(w, rest) && w == Refuse(size, w0, rank, aborted)
      ensures At(replies.chan, rank, dest) == old(At(replies.chan, rank, dest)) + [NoWork(aborted)]
    {
      w := Refuse(size, w0, rank, aborted);
      assert ([dest] + rest)[1..] == rest;
      replies.Send(rank, dest, NoWork(aborted));
    }

    /** CIRCLE_send_work from the computation of the block on: `m` items fit in one message. */
    method SendItems(dest: nat, m: nat, ghost rest: seq<nat>, ghost w0: Sys) returns (ghost w: Sys)
      requires Has(w0, [dest] + rest) && 1 <= m < |queue|
      modifies this`queue, this`workOutstanding, replies
      ensures Has(w, rest) && w == Share(size, w0, rank, m) && |queue| == old(|queue|) - m
    {
      w := Share(size, w0, rank, m);
      assert ([dest] + rest)[1..] == rest;
      var keep := |queue| - m;
      replies.Send(rank, dest, Offsets(m));
      replies.Send(rank, dest, Data(queue[keep..]));
      queue := queue[..keep];
      workOutstanding := workOutstanding + 1;
    }

    /** CIRCLE_send_work: `count` items are meant for the requestor; when their bytes are too many for
        one message, fewer are sent. */
    method SendWork(dest: nat, count: nat, ghost rest: seq<nat>, ghost w0: Sys)
      returns (ghost step: WorkStep, ghost w: Sys)
      requires Has(w0, [dest] + rest) && count < |queue|
      modifies this`queue, this`workOutstanding, replies
      ensures CanWork(size, w0, rank, step) && w == WorkNext(size, w0, rank, step, false) && Has(w, rest)
      ensures Fair(step, count) && |queue| == old(|queue|) - (if count == 0 then 0 else step.items)
    {
      if count == 0 {
        step := DoRefuse;
        w := SendNoWork(dest, false, rest, w0);
      } else {
        var m: nat :| 1 <= m <= count;
        step := DoShare(m);
        w := SendItems(dest, m, rest, w0);
      }
    }

    /** "No work" to every requestor. */
    method RefuseAll(rcount: nat, aborted: bool, ghost cleanup: bool, ghost w0: Sys, ghost steps0: seq<WorkStep>,
                     ghost w1: Sys)
      returns (ghost answers: seq<WorkStep>, ghost w: Sys)
      requires rcount <= requestors.Length && Has(w1, requestors[..rcount])
      requires WorkPath(size, w0, rank, cleanup, aborted, steps0, w1)
      modifies replies
      ensures Has(w, []) && WorkPath(size, w0, rank, cleanup, aborted, steps0 + answers, w)
      ensures |answers| == rcount && forall i | 0 <= i < rcount :: answers[i] == DoRefuse
    {
      answers, w := [], w1;
      assert steps0 + answers == steps0;
      for i := 0 to rcount
        invariant Has(w, requestors[i..rcount])
        invariant WorkPath(size, w0, rank, cleanup, aborted, steps0 + answers, w)
        invariant |answers| == i && forall j | 0 <= j < i :: answers[j] == DoRefuse
      {
        w := RefuseOne(i, rcount, aborted, cleanup, w0, steps0 + answers, w);
        Splitting.Associates(steps0, answers, [DoRefuse]);
        answers := answers + [DoRefuse];
      }
    }

    method RefuseOne(i: nat, rcount: nat, aborted: bool, ghost cleanup: bool, ghost w0: Sys,
                     ghost steps0: seq<WorkStep>, ghost w1: Sys)
      returns (ghost w: Sys)
      requires i < rcount <= requestors.Length && Has(w1, requestors[i..rcount])
      requires WorkPath(size, w0, rank, cleanup, aborted, steps0, w1)
      modifies replies
      ensures Has(w, requestors[i + 1..rcount])
      ensures WorkPath(size, w0, rank, cleanup, aborted, steps0 + [DoRefuse], w)
    {
      ghost var rest := requestors[i + 1..rcount];
      assert requestors[i..rcount] == [requestors[i]] + rest;
      PathGrows(size, w0, rank, cleanup, aborted, steps0, w1, DoRefuse);
      w := SendNoWork(requestors[i], aborted, rest, w1);
    }

    /** CIRCLE_send_work_to_many. */
    method ShareAll(rcount: nat, equal: bool, random: nat, ghost w0: Sys, ghost steps0: seq<WorkStep>, ghost w1: Sys)
      returns (ghost sizes: seq<nat>, ghost answers: seq<WorkStep>, ghost w: Sys)
      requires 1 <= rcount <= requestors.Length && Has(w1, requestors[..rcount]) && queue != []
      requires WorkPath(size, w0, rank, false, false, steps0, w1)
      modifies this`queue, this`workOutstanding, replies
      ensures Has(w, []) && WorkPath(size, w0, rank, false, false, steps0 + answers, w)
      ensures Splitting.Divides(sizes, old(|queue|), rcount, equal)
      ensures |answers| == rcount && AllFair(answers, sizes)
      ensures queue != []
    {
      var shares := Splitting.Split(|queue|, rcount, equal, random);
      sizes := shares[..];
      answers, w := ServeAll(rcount, shares[..], w0, steps0, w1);
    }

    method ServeAll(rcount: nat, sizes: seq<nat>, ghost w0: Sys, ghost steps0: seq<WorkStep>, ghost w1: Sys)
      returns (ghost answers: seq<WorkStep>, ghost w: Sys)
      requires 1 <= rcount <= requestors.Length && Has(w1, requestors[..rcount])
      requires |sizes| == rcount + 1 && sizes[0] >= 1 && Splitting.Sum(sizes) == |queue|
      requires WorkPath(size, w0, rank, false, false, steps0, w1)
      modifies this`queue, this`workOutstanding, replies
      ensures Has(w, []) && WorkPath(size, w0, rank, false, false, steps0 + answers, w)
      ensures |answers| == rcount && AllFair(answers, sizes)
      ensures |queue| >= sizes[0]
    {
      answers, w := [], w1;
      assert steps0 + answers == steps0;
      Splitting.EnoughAtFirst(sizes);
      for i := 0 to rcount
        invariant Has(w, requestors[i..rcount])
        invariant WorkPath(size, w0, rank, false, false, steps0 + answers, w)
        invariant |answers| == i && AllFair(answers, sizes)
        invariant Splitting.Enough(sizes, i, |queue|)
      {
        ghost var step;
        step, w := ServeNext(i, rcount, sizes, w0, steps0 + answers, w);
        Splitting.Associates(steps0, answers, [step]);
        FairNext(answers, step, sizes);
        answers := answers + [step];
      }
      Splitting.EnoughAtLast(sizes, |queue|);
    }

    method ServeNext(i: nat, rcount: nat, sizes: seq<nat>, ghost w0: Sys, ghost steps0: seq<WorkStep>, ghost w1: Sys)
      returns (ghost step: WorkStep, ghost w: Sys)
      requires i < rcount <= requestors.Length && Has(w1, requestors[i..rcount])
      requires |sizes| == rcount + 1 && sizes[0] >= 1 && Splitting.Enough(sizes, i, |queue|)
      requires WorkPath(size, w0, rank, false, false, steps0, w1)
      modifies this`queue, this`workOutstanding, replies
      ensures Has(w, requestors[i + 1..rcount]) && WorkPath(size, w0, rank, false, false, steps0 + [step], w)
      ensures Fair(step, sizes[i + 1]) && Splitting.Enough(sizes, i + 1, |queue|)
    {
      Splitting.EnoughForNext(sizes, i, |queue|);
      step, w := ServeOne(i, rcount, sizes[i + 1], w0, steps0, w1);
    }

    method ServeOne(i: nat, rcount: nat, count: nat, ghost w0: Sys, ghost steps0: seq<WorkStep>, ghost w1: Sys)
      returns (ghost step: WorkStep, ghost w: Sys)
      requires i < rcount <= requestors.Length && Has(w1, requestors[i..rcount]) && count < |queue|
      requires WorkPath(size, w0, rank, false, false, steps0, w1)
      modifies this`queue, this`workOutstanding, replies
      ensures Has(w, requestors[i + 1..rcount]) && WorkPath(size, w0, rank, false, false, steps0 + [step], w)
      ensures Fair(step, count) && |queue| + count >= old(|queue|)
    {
      ghost var rest := requestors[i + 1..rcount];
      assert requestors[i..rcount] == [requestors[i]] + rest;
      step, w := SendWork(requestors[i], count, rest, w1);
      PathGrows(size, w0, rank, false, false, steps0, w1, step);
    }

    /** CIRCLE_workreq_check: every request that is there is answered, and items are shared whenever there are
        any to share.  `backlog` tells whether many sends are in flight, `equal` and `random` how the queue is
        split. */
    method RequestCheck(cleanup: bool, aborted: bool, backlog: bool, equal: bool, random: nat, late: set<nat>,
                        ghost w0: Sys)
      returns (ghost steps: seq<WorkStep>, ghost w: Sys)
      requires Has(w0, []) && Discipline(size, w0)
      modifies this`queue, this`workOutstanding, requestors, requests, replies
      ensures Has(w, []) && WorkPath(size, w0, rank, cleanup, aborted, steps, w) && Serves(steps)
      ensures ServedFully(steps, cleanup || aborted || backlog, old(|queue|), equal)
      ensures forall src: nat | src < size :: !requests.Visible(late, src, rank)
      ensures queue == [] <==> old(queue) == []
      ensures cleanup || aborted ==> queue == old(queue)
    {
      var rcount;
      ghost var drains, answers, sizes := [], [], [];
      rcount, drains, w := DrainAll(late, cleanup, aborted, w0);
      if rcount == 0 {
        assert requestors[..0] == [];
      } else if queue == [] || cleanup || aborted || backlog {
        answers, w := RefuseAll(rcount, aborted, cleanup, w0, drains, w);
      } else {
        sizes, answers, w := ShareAll(rcount, equal, random, w0, drains, w);
      }
      steps := drains + answers;
      assert ServesAll(steps, rcount, sizes, cleanup || aborted || backlog, old(|queue|), equal);
    }

    // ----- asking for work -----

    /** CIRCLE_work_receive: either there is no work, or the items replace the queue. */
    method WorkReceive(ghost w0: Sys) returns (abort: bool, ghost step: WorkStep, ghost w: Sys)
      requires Has(w0, []) && Discipline(size, w0)
      requires workRequested && At(replies.chan, workRequestedRank, rank) != []
      modifies this`queue, this`workRequested, replies, receipts
      ensures CanWork(size, w0, rank, step) && w == WorkNext(size, w0, rank, step, false) && Has(w, [])
      ensures step.DoHearNo? || step.DoReceive?
      ensures abort == (step.DoHearNo? && old(At(replies.chan, workRequestedRank, rank)[0]) == NoWork(true))
      ensures !workRequested
    {
      var source := workRequestedRank;
      assert DeskOk(size, w0, rank) && PairOk(w0, source, rank);
      var reply := replies.Recv(source, rank);
      match reply {
        case NoWork(a) =>
          step, w := DoHearNo, HearNo(size, w0, rank);
          abort := a;
        case Offsets(count) =>
          step, w := DoReceive, Receive(size, w0, rank);
          abort := false;
          var data := replies.Recv(source, rank);
          queue := data.items;
          receipts.Send(rank, source, ());
      }
      workRequested := false;
    }

    /** CIRCLE_request_work; `slotFree` tells whether the previous request has gone out, `next` is a
        random number. */
    method RequestWork(cleanup: bool, aborted: bool, slotFree: bool, next: nat, late: set<nat>, ghost w0: Sys)
      returns (abort: bool, ghost steps: seq<WorkStep>, ghost w: Sys)
      requires Has(w0, []) && Discipline(size, w0) && (!cleanup ==> queue == [])
      requires nextProcessor >= 0 ==> next < size && next != rank
      modifies this`queue, this`workRequested, this`workRequestedRank, this`nextProcessor, requests, replies, receipts
      ensures Has(w, []) && RequestOk(size, rank, cleanup, aborted, w0, steps, abort, w)
      ensures (nextProcessor >= 0) == old(nextProcessor >= 0)
      ensures old(workRequested) ==> (steps == [] <==> !old(replies.Visible(late, workRequestedRank, rank)))
      ensures old(workRequested) && steps != [] ==> !workRequested
      ensures !old(workRequested) ==>
                steps == if !cleanup && !aborted && slotFree && old(nextProcessor) >= 0
                         then [DoAsk(old(nextProcessor))] else []
      ensures nextProcessor == if steps != [] && steps[0].DoAsk? then next else old(nextProcessor)
    {
      abort, steps, w := false, [], w0;
      if workRequested {
        if replies.Visible(late, workRequestedRank, rank) {
          ghost var step;
          abort, step, w := WorkReceive(w0);
          steps := [step];
        }
      } else if !cleanup && !aborted && slotFree {
        if nextProcessor < 0 {
          return;
        }
        steps, w := [DoAsk(nextProcessor)], Ask(size, w0, rank, nextProcessor);
        requests.Send(rank, nextProcessor, ());
        workRequested := true;
        workRequestedRank := nextProcessor;
        nextProcessor := next;
      }
    }
  }
}
