/** One rank in the work loop (CIRCLE_work_loop in libcircle/worker.c): one pass through the main
    loop, and one through the cleanup loop, as a sequence of calls.

    What the probes of a call do not notice is in its set `late`.
 */
module WorkLoop {
  import opened Channels
  import opened Tree
  import opened TreeInit
  import opened Network
  import opened Termination
  import opened Barrier
  import W = WorkTransfer
  import A = AbortSignal
  import R = BackgroundReduce
  import T = TermRank
  import B = BarrierRank
  import AR = AbortRank
  import RR = ReduceRank
  import WR = WorkRank

  /** The variables of all ranks and the messages in flight. */
  datatype Parts = Parts(work: W.Sys, term: TermSys, barrier: BarrierSys, abort: A.Sys, reduce: R.Sys)

  ghost predicate Shape(cfg: Config, p: Parts) {
    && cfg.Valid() && |p.work.desks| == cfg.n && TermShape(cfg, p.term) && BarrierShape(cfg, p.barrier)
    && A.Shape(cfg, p.abort) && R.Shape(cfg, p.reduce)
  }

  /** The variables of rank `x` are the same. */
  ghost predicate SameVariables(cfg: Config, p: Parts, q: Parts, x: nat) {
    && Shape(cfg, p) && Shape(cfg, q) && x < cfg.n
    && q.work.desks[x] == p.work.desks[x] && q.term.nodes[x] == p.term.nodes[x] && q.term.flags[x] == p.term.flags[x]
    && q.barrier.nodes[x] == p.barrier.nodes[x] && q.barrier.started[x] == p.barrier.started[x]
    && q.abort.alarms[x] == p.abort.alarms[x] && q.reduce.ranks[x] == p.reduce.ranks[x]
  }

  /** What a call has done. */
  datatype Call =
    | Serve(served: seq<W.WorkStep>, backlog: bool, equal: bool)
    | Settle(settled: seq<W.WorkStep>)
    | Abort(aborts: seq<A.AbortStep>)
    | Reduce(reduces: seq<R.ReduceStep>)
    | Request(requests: seq<W.WorkStep>, abort: bool)
    | Process(ops: seq<W.Op>, raised: bool)
    | CheckTerm(terms: seq<TermStep>, verdict: bool)
    | StartBarrier
    | TestBarrier(barriers: seq<BarrierStep>, complete: bool)

  /** Whether an idle rank starts the barrier: it waits for nothing. */
  ghost predicate Idle(p: Parts, x: nat)
    requires x < |p.work.desks| && x < |p.reduce.ranks| && x < |p.abort.alarms|
  {
    !p.work.desks[x].requested && !p.reduce.ranks[x].outstanding && !p.abort.alarms[x].outstanding
  }

  /** The abort flag of `x` is set. */
  function Alarmed(a: A.Sys, x: nat): A.Sys
    requires x < |a.alarms|
  {
    a.(alarms := a.alarms[x := A.SetFlag(a.alarms[x])])
  }

  /** The call leads rank `x` from `p` to `q`, in the cleanup loop or in the main loop. */
  ghost predicate CallOk(cfg: Config, x: nat, cleanup: bool, p: Parts, call: Call, q: Parts)
    requires Shape(cfg, p) && x < cfg.n
  {
    var aborted := p.abort.alarms[x].flag;
    match call
    case Serve(steps, backlog, equal) =>
      && q == p.(work := q.work) && WR.WorkPath(cfg.n, p.work, x, cleanup, aborted, steps, q.work) && WR.Serves(steps)
      && WR.ServedFully(steps, cleanup || aborted || backlog, |p.work.desks[x].queue|, equal)
    case Settle(steps) =>
      && !cleanup && WR.WorkPath(cfg.n, p.work, x, false, aborted, steps, q.work)
      && (forall i | 0 <= i < |steps| :: steps[i].DoSettle?)
      && q == p.(work := q.work, term := if steps == [] then p.term else p.term.(flags := p.term.flags[x := false]))
    case Abort(steps) =>
      q == p.(abort := q.abort) && AR.AbortPath(cfg, p.abort, x, cleanup, steps, q.abort)
    case Reduce(steps) =>
      q == p.(reduce := q.reduce) && RR.ReducePath(cfg, p.reduce, x, cleanup, steps, q.reduce)
    case Request(steps, abort) =>
      && WR.RequestOk(cfg.n, x, cleanup, aborted, p.work, steps, abort, q.work)
      && q == p.(work := q.work, abort := if abort then Alarmed(p.abort, x) else p.abort)
    case Process(ops, aborts) =>
      && !cleanup && !aborted && W.CanProcess(cfg.n, p.work, x)
      && q == p.(work := W.Process(cfg.n, p.work, x, ops), abort := if aborts then Alarmed(p.abort, x) else p.abort)
    case CheckTerm(steps, verdict) =>
      && !cleanup && (p.work.desks[x].queue == [] || aborted)
      && q == p.(term := q.term) && T.TermPath(cfg, p.term, x, steps, q.term, verdict)
      && (p.work.desks[x].outstanding > 0 ==> T.OnlyCounts(steps))
    case StartBarrier =>
      && cleanup && Idle(p, x) && q == p.(barrier := BarrierNext(cfg, p.barrier, x, Barrier.BarrierStart))
    case TestBarrier(steps, complete) =>
      cleanup && q == p.(barrier := q.barrier) && B.BarrierPath(cfg, p.barrier, x, steps, q.barrier, complete)
  }

  ghost predicate Follows(cfg: Config, x: nat, cleanup: bool, p: Parts, call: Call, q: Parts) {
    Shape(cfg, p) && x < cfg.n && CallOk(cfg, x, cleanup, p, call, q)
  }

  /** The call, which has led from `p` to `q`, has left nothing undone but what the probes have not
      noticed: the messages from the ranks in `late`, and if not `sent` that a send has gone out. */
  ghost predicate Thorough(cfg: Config, x: nat, cleanup: bool, p: Parts, call: Call, q: Parts,
                           late: set<nat>, sent: bool) {
    && Shape(cfg, p) && Shape(cfg, q) && x < cfg.n
    && match call
       case Serve(_, _, _) => NoneFrom(cfg, q.work.request, x, late)
       case Settle(_) => q.work.desks[x].outstanding > 0 ==> NoneFrom(cfg, q.work.receipt, x, late)
       case Abort(_) =>
         && (cleanup && q.abort.request == p.abort.request ==> AR.HeardFrom(cfg, p.abort, x) <= late)
         && (q.abort.alarms[x].outstanding ==> AbortWaits(cfg, q.abort, x, late, sent))
         && (q.abort.alarms[x].flag || !(AR.HeardFrom(cfg, p.abort, x) <= late) ==> q.abort.alarms[x].state)
       case Reduce(_) => ReduceWaits(cfg, x, cleanup, p.reduce, q.reduce, late)
       case Request(_, _) => ReplyHeard(p.work, q.work, x, late)
       case Process(_, _) => true
       case CheckTerm(steps, _) =>
         T.NoneCompletes(steps) ==> T.TermStuck(cfg, q.term, x, q.work.desks[x].outstanding, late)
       case StartBarrier => q.barrier.started[x]
       case TestBarrier(steps, _) => steps == [] ==> !B.BarrierCanMove(cfg, p.barrier, x, late)
  }

  /** What a call does and what it leaves. */
  ghost predicate Did(cfg: Config, x: nat, cleanup: bool, p: Parts, call: Call, q: Parts, late: set<nat>, sent: bool) {
    Follows(cfg, x, cleanup, p, call, q) && Thorough(cfg, x, cleanup, p, call, q, late, sent)
  }

  /** No message to `x` is in flight, except from the ranks in `late`. */
  ghost predicate NoneFrom<M>(cfg: Config, ch: Chan<M>, x: nat, late: set<nat>) {
    forall src: nat | src < cfg.n && src !in late :: At(ch, src, x) == []
  }

  /** A reply is missing, or a request has not gone out. */
  ghost predicate AbortWaits(cfg: Config, a: A.Sys, x: nat, late: set<nat>, sent: bool)
    requires x < |a.alarms|
  {
    && (forall nb: nat | nb in a.alarms[x].awaiting && nb < cfg.n && nb !in late :: At(a.reply, nb, x) == [])
    && (a.alarms[x].awaiting != {} || !sent)
  }

  /** A rank with a reduction under way has not all results of its children, and in cleanup one without
      any has no start message. */
  ghost predicate ReduceWaits(cfg: Config, x: nat, cleanup: bool, r: R.Sys, r': R.Sys, late: set<nat>)
    requires R.Shape(cfg, r) && R.Shape(cfg, r') && x < cfg.n
  {
    && (r.ranks[x].outstanding && r'.ranks[x].outstanding ==>
          && r'.ranks[x].replies != |Kids(cfg, x)|
          && forall c | c in Kids(cfg, x) && c !in late :: At(r'.chan, c, x) == [])
    && (!r.ranks[x].outstanding && cleanup && x >= 1 && Parent(cfg, x) !in late ==>
          At(r'.chan, Parent(cfg, x), x) == [])
  }

  /** A reply that is there is received. */
  ghost predicate ReplyHeard(w: W.Sys, w': W.Sys, x: nat, late: set<nat>)
    requires x < |w.desks| && x < |w'.desks|
  {
    var src := w.desks[x].source;
    w.desks[x].requested && src !in late && At(w.reply, src, x) != [] ==> !w'.desks[x].requested
  }

  /** What a pass depends on besides the state: which messages the probes do not notice, and the
      answers of MPI, the clock, the random numbers and the user. */
  datatype Inputs = Inputs(
    lateRequests: set<nat>, lateReceipts: set<nat>, lateReplies: set<nat>,
    lateAborts: set<nat>, lateReduces: set<nat>, lateTerms: set<nat>, lateBarriers: set<nat>,
    backlog: bool,        // many sends are in flight
    sent: bool,           // the abort requests have gone out
    slotFree: bool,       // the last work request has gone out
    sendsDone: bool,      // no other send is in flight
    equal: bool,          // CIRCLE_SPLIT_EQUAL
    random: nat,
    next: nat,
    reduceEnabled: bool,
    due: bool,            // it is time for a reduction
    count: int,           // the objects processed so far
    bytes: nat,
    ops: seq<W.Op>,       // what the process callback does to the queue
    aborts: bool)         // whether it calls for an abort

  // ----- one rank -----

  class Rank {
    const cfg: Config
    const rank: nat
    const term: T.TermState
    const barrier: B.BarrierState
    const abort: AR.AbortState
    const reduce: RR.ReduceState
    const work: WR.WorkState
    const terms: Mailbox<bool>
    const barriers: Mailbox<()>

    ghost predicate Valid() {
      && cfg.Valid() && rank < cfg.n
      && term.cfg == barrier.cfg == abort.cfg == reduce.cfg == cfg
      && term.rank == barrier.rank == abort.rank == reduce.rank == work.rank == rank && work.size == cfg.n
      && barriers != abort.requests && barriers != abort.replies
      && barriers != work.requests && barriers != work.receipts
      && abort.requests != work.requests && abort.requests != work.receipts
      && abort.replies != work.requests && abort.replies != work.receipts
    }

    ghost function Repr(): set<object> {
      {term, barrier, abort, reduce, work, terms, barriers, abort.requests, abort.replies, reduce.box,
       work.requests, work.replies, work.receipts, work.requestors}
    }

    /** The messages in flight are those of `p`. */
    ghost predicate Sees(p: Parts)
      reads terms, barriers, abort.requests, abort.replies, reduce.box, work.requests, work.replies, work.receipts
    {
      && terms.chan == p.term.chan && barriers.chan == p.barrier.chan
      && abort.requests.chan == p.abort.request && abort.replies.chan == p.abort.reply
      && reduce.box.chan == p.reduce.chan
      && work.requests.chan == p.work.request && work.replies.chan == p.work.reply
      && work.receipts.chan == p.work.receipt
    }

    /** The variables of this rank and the messages in flight are those of `p`. */
    ghost predicate Has(p: Parts)
      reads Repr()
    {
      && Valid() && Shape(cfg, p)
      && term.Has(terms, p.term) && barrier.Has(barriers, p.barrier)
      && abort.Has(p.abort) && reduce.Has(p.reduce) && work.Has(p.work, [])
    }

    /** The variables of this rank are those of `p`. */
    ghost predicate Owns(p: Parts)
      reads term, barrier, abort, reduce, work
    {
      && Valid() && Shape(cfg, p)
      && term.Owns(p.term) && barrier.Owns(p.barrier) && abort.Owns(p.abort) && reduce.Owns(p.reduce)
      && work.Owns(p.work, [])
    }

    /** Other ranks have sent and received messages. */
    lemma StillHas(p: Parts, q: Parts)
      requires Owns(p) && Sees(q) && SameVariables(cfg, p, q, rank)
      ensures Has(q)
    {
    }

    constructor (term: T.TermState, barrier: B.BarrierState, abort: AR.AbortState, reduce: RR.ReduceState,
                 work: WR.WorkState, terms: Mailbox<bool>, barriers: Mailbox<()>, ghost p: Parts)
      requires Shape(term.cfg, p)
      requires term.Has(terms, p.term) && barrier.Has(barriers, p.barrier)
      requires abort.Has(p.abort) && reduce.Has(p.reduce) && work.Has(p.work, [])
      requires barrier.cfg == abort.cfg == reduce.cfg == term.cfg && work.size == term.cfg.n
      requires barrier.rank == abort.rank == reduce.rank == work.rank == term.rank
      requires barriers != abort.requests && barriers != abort.replies
      requires barriers != work.requests && barriers != work.receipts
      requires abort.requests != work.requests && abort.requests != work.receipts
      requires abort.replies != work.requests && abort.replies != work.receipts
      ensures Has(p)
    {
      cfg, rank := term.cfg, term.rank;
      this.term, this.barrier, this.abort, this.reduce, this.work := term, barrier, abort, reduce, work;
      this.terms, this.barriers := terms, barriers;
    }

    // ----- the calls -----

    method ServeRequests(cleanup: bool, backlog: bool, equal: bool, random: nat, late: set<nat>, ghost p: Parts)
      returns (ghost call: Call, ghost q: Parts)
      requires Has(p) && W.Discipline(cfg.n, p.work)
      modifies work`queue, work`workOutstanding, work.requestors, work.requests, work.replies
      ensures Has(q) && call.Serve? && call.backlog == backlog && call.equal == equal
      ensures Did(cfg, rank, cleanup, p, call, q, late, true)
    {
      ghost var steps, w;
      steps, w := work.RequestCheck(cleanup, abort.abortFlag, backlog, equal, random, late, p.work);
      call, q := Serve(steps, backlog, equal), p.(work := w);
      work.requests.NoneVisible(cfg.n, late, rank);
    }

    method SettleReceipts(late: set<nat>, ghost p: Parts) returns (ghost call: Call, ghost q: Parts)
      requires Has(p)
      modifies work`workOutstanding, work.receipts, term`termFlag
      ensures Has(q) && call.Settle?
      ensures Did(cfg, rank, false, p, call, q, late, true)
    {
      ghost var steps, w;
      var settled;
      settled, steps, w := work.ReceiptCheck(late, abort.abortFlag, p.work);
      call, q := Settle(steps), p.(work := w);
      if settled {
        q := ClearFlag(q);
      }
      if work.workOutstanding > 0 {
        work.receipts.NoneVisible(cfg.n, late, rank);
      }
    }

    /** A receipt forces a fresh allreduce. */
    method ClearFlag(ghost p: Parts) returns (ghost q: Parts)
      requires Has(p)
      modifies term`termFlag
      ensures Has(q) && q == p.(term := p.term.(flags := p.term.flags[rank := false]))
    {
      term.termFlag := false;
      q := p.(term := p.term.(flags := p.term.flags[rank := false]));
    }

    method CheckAbort(cleanup: bool, late: set<nat>, sent: bool, ghost p: Parts)
      returns (ghost call: Call, ghost q: Parts)
      requires Has(p)
      modifies abort, abort.requests, abort.replies
      ensures Has(q) && call.Abort?
      ensures Did(cfg, rank, cleanup, p, call, q, late, sent)
      ensures AR.HeardFrom(cfg, p.abort, rank) <= late || (abort.abortState && !AR.NoneHeard(call.aborts))
      ensures abort.abortFlag ==> abort.abortState
    {
      ghost var steps, a;
      steps, a := abort.Check(cleanup, late, sent, p.abort);
      call, q := Abort(steps), p.(abort := a);
    }

    method CheckReduce(count: int, cleanup: bool, due: bool, bytes: nat, late: set<nat>, ghost p: Parts)
      returns (ghost call: Call, ghost q: Parts)
      requires Has(p) && R.Inv(cfg, p.reduce)
      modifies reduce, reduce.box
      ensures Has(q) && call.Reduce?
      ensures Did(cfg, rank, cleanup, p, call, q, late, true)
      ensures RR.Finishes(call.reduces, old(reduce.reduceOutstanding) && !reduce.reduceOutstanding, count, bytes)
    {
      ChildListIsKids(cfg, rank);
      ghost var steps, r;
      var delivered;
      delivered, steps, r := reduce.Check(count, cleanup, due, bytes, late, p.reduce);
      call, q := Reduce(steps), p.(reduce := r);
    }

    /** A random rank to ask the next time, if there is another rank. */
    ghost predicate GoodNext(next: nat) {
      cfg.n > 1 ==> next < cfg.n && next != rank
    }

    method RequestWork(cleanup: bool, slotFree: bool, next: nat, late: set<nat>, ghost p: Parts)
      returns (ghost call: Call, ghost q: Parts)
      requires Has(p) && W.Discipline(cfg.n, p.work) && (!cleanup ==> work.queue == []) && GoodNext(next)
      modifies work, work.requests, work.replies, work.receipts, abort
      ensures Has(q) && call.Request?
      ensures Did(cfg, rank, cleanup, p, call, q, late, true)
    {
      ghost var steps;
      var heard;
      heard, steps, q := HearOrAsk(cleanup, slotFree, next, late, p);
      call := Request(steps, heard);
      if heard {
        q := BcastAbort(q);
      }
    }

    method HearOrAsk(cleanup: bool, slotFree: bool, next: nat, late: set<nat>, ghost p: Parts)
      returns (heard: bool, ghost steps: seq<W.WorkStep>, ghost q: Parts)
      requires Has(p) && W.Discipline(cfg.n, p.work) && (!cleanup ==> work.queue == []) && GoodNext(next)
      modifies work, work.requests, work.replies, work.receipts
      ensures Has(q) && q == p.(work := q.work)
      ensures WR.RequestOk(cfg.n, rank, cleanup, p.abort.alarms[rank].flag, p.work, steps, heard, q.work)
      ensures ReplyHeard(p.work, q.work, rank, late)
    {
      ghost var w;
      heard, steps, w := work.RequestWork(cleanup, abort.abortFlag, slotFree, next, late, p.work);
      q := p.(work := w);
    }

    /** The abort flag is set: by CIRCLE_bcast_abort, or because a work reply has brought the abort
        payload. */
    method BcastAbort(ghost p: Parts) returns (ghost q: Parts)
      requires Has(p)
      modifies abort`abortFlag
      ensures Has(q) && q == p.(abort := Alarmed(p.abort, rank))
    {
      abort.BcastAbort();
      q := p.(abort := Alarmed(p.abort, rank));
    }

    /** The user's process callback. */
    method ProcessItem(ops: seq<W.Op>, aborts: bool, ghost p: Parts) returns (ghost call: Call, ghost q: Parts)
      requires Has(p) && work.queue != [] && !abort.abortFlag
      modifies work`queue, abort`abortFlag
      ensures Has(q) && call == Process(ops, aborts)
      ensures Did(cfg, rank, false, p, call, q, {}, true)
    {
      call, q := Process(ops, aborts), p.(work := W.Process(cfg.n, p.work, rank, ops));
      work.queue := W.Callback(work.queue, ops).0;
      if aborts {
        q := BcastAbort(q);
      }
    }

    method CheckTermination(late: set<nat>, ghost p: Parts) returns (terminate: bool, ghost call: Call, ghost q: Parts)
      requires Has(p) && (work.queue == [] || abort.abortFlag) && (rank == 0 ==> !term.termUp)
      modifies term, terms
      ensures Has(q) && call.CheckTerm? && call.verdict == terminate
      ensures Did(cfg, rank, false, p, call, q, late, true)
    {
      ghost var steps, t;
      terminate, steps, t := term.CheckForTerm(terms, work.workOutstanding, late, p.term);
      call, q := CheckTerm(steps, terminate), p.(term := t);
    }

    method BeginBarrier(ghost p: Parts) returns (ghost call: Call, ghost q: Parts)
      requires Has(p) && !work.workRequested && !reduce.reduceOutstanding && !abort.abortOutstanding
      modifies barrier`barrierStarted
      ensures Has(q) && call.StartBarrier?
      ensures Did(cfg, rank, true, p, call, q, {}, true)
    {
      ghost var b := barrier.Start(barriers, p.barrier);
      call, q := StartBarrier, p.(barrier := b);
    }

    method CheckBarrier(late: set<nat>, ghost p: Parts) returns (complete: bool, ghost call: Call, ghost q: Parts)
      requires Has(p) && (rank == 0 ==> !barrier.barrierUp)
      modifies barrier, barriers
      ensures Has(q) && call.TestBarrier? && call.complete == complete
      ensures Did(cfg, rank, true, p, call, q, late, true)
    {
      ghost var steps, b;
      complete, steps, b := barrier.Test(barriers, late, p.barrier);
      call, q := TestBarrier(steps, complete), p.(barrier := b);
    }
  }
}
