/** One pass through the main loop of a rank, and one through its cleanup loop (CIRCLE_work_loop in
    libcircle/worker.c), while the other ranks act. */
module Passes {
  import opened Tree
  import W = WorkTransfer
  import R = BackgroundReduce
  import opened Protocol
  import opened Invariant
  import opened Moves
  import opened Lift
  import opened Interleaving
  import L = WorkLoop

  /** Nothing stays unnoticed in a pass: the probes see every message, and MPI finds the sends of abort
      requests complete when their replies have come. */
  predicate Alert(inp: L.Inputs) {
    && inp.lateRequests == {} && inp.lateReceipts == {} && inp.lateReplies == {} && inp.lateAborts == {}
    && inp.lateReduces == {} && inp.lateTerms == {} && inp.lateBarriers == {}
    && inp.sent
  }

  /** In every reachable state a call finds what it needs. */
  lemma ReadyToRun(cfg: Config, s: State)
    requires Reachable(cfg, s)
    ensures W.Discipline(cfg.n, s.work) && R.Inv(cfg, s.reduce)
    ensures !s.term.nodes[0].up && !s.barrier.nodes[0].up
  {
    ReachableInv(cfg, s);
  }

  // ----- the other ranks -----

  /** The other ranks act.  What they do is any number of steps of theirs, of which this rank sees the
      messages: callers know no more than is stated here, whatever the body does. */
  method Yield(r: L.Rank, ghost s: State, ghost p: L.Parts) returns (ghost t: State)
    requires PartsOf(s) == p && r.Has(p)
    modifies r.terms, r.barriers, r.abort.requests, r.abort.replies, r.reduce.box
    modifies r.work.requests, r.work.replies, r.work.receipts
    ensures Meanwhile(r.cfg, s, r.rank, t) && r.Sees(PartsOf(t))
    ensures unchanged(r.term) && unchanged(r.barrier)
    ensures unchanged(r.abort) && unchanged(r.reduce) && unchanged(r.work)
  {
    t := s;
    NothingMeanwhile(r.cfg, s, r.rank);
  }

  /** The state after a pause is reachable, and the rank is where it was. */
  lemma StillThere(cfg: Config, x: nat, cleanup: bool, s: State, t: State)
    requires Stands(cfg, x, cleanup, s, false) && Meanwhile(cfg, s, x, t)
    ensures Stands(cfg, x, cleanup, t, false) && SameRank(cfg, s, t, x)
    ensures W.Discipline(cfg.n, t.work) && R.Inv(cfg, t.reduce)
    ensures x == 0 ==> !t.term.nodes[0].up && !t.barrier.nodes[0].up
  {
    MeanwhileLeavesAlone(cfg, s, x, t);
    MeanwhileLeads(cfg, s, x, t);
    LeadsToReachable(cfg, s, t);
    ReadyToRun(cfg, t);
  }

  lemma PausesTrace(cfg: Config, x: nat, cleanup: bool, alert: bool, s: State, pass: seq<Moment>, p: L.Parts,
                    mid: State)
    requires Trace(cfg, x, cleanup, alert, s, pass, p, false) && Meanwhile(cfg, EndOf(s, pass), x, mid)
    ensures Paused(cfg, x, cleanup, alert, s, pass, mid) && SameRank(cfg, EndOf(s, pass), mid, x)
    ensures PartsOf(EndOf(s, pass)) == p && x < cfg.n
    ensures W.Discipline(cfg.n, mid.work) && R.Inv(cfg, mid.reduce)
    ensures x == 0 ==> !mid.term.nodes[0].up && !mid.barrier.nodes[0].up
  {
    StillThere(cfg, x, cleanup, EndOf(s, pass), mid);
  }

  method Pause(r: L.Rank, ghost cleanup: bool, ghost alert: bool, ghost s: State, ghost pass: seq<Moment>,
               ghost p: L.Parts)
    returns (ghost mid: State)
    requires Trace(r.cfg, r.rank, cleanup, alert, s, pass, p, false) && r.Has(p)
    modifies r.terms, r.barriers, r.abort.requests, r.abort.replies, r.reduce.box
    modifies r.work.requests, r.work.replies, r.work.receipts
    ensures Paused(r.cfg, r.rank, cleanup, alert, s, pass, mid) && r.Has(PartsOf(mid))
    ensures unchanged(r.abort) && unchanged(r.reduce) && unchanged(r.work)
    ensures W.Discipline(r.cfg.n, mid.work) && R.Inv(r.cfg, mid.reduce)
    ensures r.rank == 0 ==> !mid.term.nodes[0].up && !mid.barrier.nodes[0].up
  {
    mid := Yield(r, EndOf(s, pass), p);
    PausesTrace(r.cfg, r.rank, cleanup, alert, s, pass, p, mid);
    r.StillHas(p, PartsOf(mid));
  }

  /** Only a check for termination and a test of the barrier take a rank out of its loop. */
  lemma Stays(call: L.Call)
    ensures !call.CheckTerm? && !call.TestBarrier? ==> !Leaves(call)
    ensures call.CheckTerm? ==> Leaves(call) == call.verdict
    ensures call.TestBarrier? ==> Leaves(call) == call.complete
  {
  }

  // ----- the calls of a pass -----

  method Serving(r: L.Rank, cleanup: bool, inp: L.Inputs, ghost s: State, ghost pass: seq<Moment>, ghost p: L.Parts)
    returns (ghost m: Moment, ghost q: L.Parts)
    requires Trace(r.cfg, r.rank, cleanup, Alert(inp), s, pass, p, false) && r.Has(p)
    modifies r.Repr()
    ensures Trace(r.cfg, r.rank, cleanup, Alert(inp), s, pass + [m], q, false)
    ensures r.Has(q)
    ensures ServesAs(m.call, inp)
  {
    ghost var mid := Pause(r, cleanup, Alert(inp), s, pass, p);
    ghost var call;
    call, q := r.ServeRequests(cleanup, inp.backlog, inp.equal, inp.random, inp.lateRequests, PartsOf(mid));
    Stays(call);
    m := Grow(r.cfg, r.rank, cleanup, Alert(inp), s, pass, mid, call, q, inp.lateRequests, true);
  }

  method Settling(r: L.Rank, inp: L.Inputs, ghost s: State, ghost pass: seq<Moment>, ghost p: L.Parts)
    returns (ghost m: Moment, ghost q: L.Parts)
    requires Trace(r.cfg, r.rank, false, Alert(inp), s, pass, p, false) && r.Has(p)
    modifies r.Repr()
    ensures Trace(r.cfg, r.rank, false, Alert(inp), s, pass + [m], q, false)
    ensures r.Has(q)
    ensures m.call.Settle?
  {
    ghost var mid := Pause(r, false, Alert(inp), s, pass, p);
    ghost var call;
    call, q := r.SettleReceipts(inp.lateReceipts, PartsOf(mid));
    Stays(call);
    m := Grow(r.cfg, r.rank, false, Alert(inp), s, pass, mid, call, q, inp.lateReceipts, true);
  }

  method Aborting(r: L.Rank, cleanup: bool, inp: L.Inputs, ghost s: State, ghost pass: seq<Moment>, ghost p: L.Parts)
    returns (ghost m: Moment, ghost q: L.Parts)
    requires Trace(r.cfg, r.rank, cleanup, Alert(inp), s, pass, p, false) && r.Has(p)
    modifies r.Repr()
    ensures Trace(r.cfg, r.rank, cleanup, Alert(inp), s, pass + [m], q, false)
    ensures r.Has(q)
    ensures m.call.Abort?
  {
    ghost var mid := Pause(r, cleanup, Alert(inp), s, pass, p);
    ghost var call;
    call, q := r.CheckAbort(cleanup, inp.lateAborts, inp.sent, PartsOf(mid));
    Stays(call);
    m := Grow(r.cfg, r.rank, cleanup, Alert(inp), s, pass, mid, call, q, inp.lateAborts, inp.sent);
  }

  method Reducing(r: L.Rank, cleanup: bool, inp: L.Inputs, ghost s: State, ghost pass: seq<Moment>, ghost p: L.Parts)
    returns (ghost m: Moment, ghost q: L.Parts)
    requires Trace(r.cfg, r.rank, cleanup, Alert(inp), s, pass, p, false) && r.Has(p)
    modifies r.Repr()
    ensures Trace(r.cfg, r.rank, cleanup, Alert(inp), s, pass + [m], q, false)
    ensures r.Has(q)
    ensures m.call.Reduce?
  {
    ghost var mid := Pause(r, cleanup, Alert(inp), s, pass, p);
    ghost var call;
    call, q := r.CheckReduce(inp.count, cleanup, inp.due, inp.bytes, inp.lateReduces, PartsOf(mid));
    Stays(call);
    m := Grow(r.cfg, r.rank, cleanup, Alert(inp), s, pass, mid, call, q, inp.lateReduces, true);
  }

  method Requesting(r: L.Rank, cleanup: bool, inp: L.Inputs, ghost s: State, ghost pass: seq<Moment>, ghost p: L.Parts)
    returns (ghost m: Moment, ghost q: L.Parts)
    requires Trace(r.cfg, r.rank, cleanup, Alert(inp), s, pass, p, false) && r.Has(p)
    requires r.GoodNext(inp.next) && (!cleanup ==> r.work.queue == [])
    modifies r.Repr()
    ensures Trace(r.cfg, r.rank, cleanup, Alert(inp), s, pass + [m], q, false)
    ensures r.Has(q)
    ensures m.call.Request?
  {
    ghost var mid := Pause(r, cleanup, Alert(inp), s, pass, p);
    ghost var call;
    call, q := r.RequestWork(cleanup, inp.slotFree, inp.next, inp.lateReplies, PartsOf(mid));
    Stays(call);
    m := Grow(r.cfg, r.rank, cleanup, Alert(inp), s, pass, mid, call, q, inp.lateReplies, true);
  }

  method Processing(r: L.Rank, inp: L.Inputs, ghost s: State, ghost pass: seq<Moment>, ghost p: L.Parts)
    returns (ghost m: Moment, ghost q: L.Parts)
    requires Trace(r.cfg, r.rank, false, Alert(inp), s, pass, p, false) && r.Has(p)
    requires r.work.queue != [] && !r.abort.abortFlag
    modifies r.Repr()
    ensures Trace(r.cfg, r.rank, false, Alert(inp), s, pass + [m], q, false)
    ensures r.Has(q)
    ensures m.call.Process? && m.call.ops == inp.ops
  {
    ghost var mid := Pause(r, false, Alert(inp), s, pass, p);
    ghost var call;
    call, q := r.ProcessItem(inp.ops, inp.aborts, PartsOf(mid));
    Stays(call);
    m := Grow(r.cfg, r.rank, false, Alert(inp), s, pass, mid, call, q, {}, true);
  }

  method Terminating(r: L.Rank, inp: L.Inputs, ghost s: State, ghost pass: seq<Moment>, ghost p: L.Parts)
    returns (terminate: bool, ghost m: Moment, ghost q: L.Parts)
    requires Trace(r.cfg, r.rank, false, Alert(inp), s, pass, p, false) && r.Has(p)
    requires r.work.queue == [] || r.abort.abortFlag
    modifies r.Repr()
    ensures Trace(r.cfg, r.rank, false, Alert(inp), s, pass + [m], q, terminate)
    ensures r.Has(q)
    ensures m.call.CheckTerm?
  {
    ghost var mid := Pause(r, false, Alert(inp), s, pass, p);
    ghost var call;
    terminate, call, q := r.CheckTermination(inp.lateTerms, PartsOf(mid));
    Stays(call);
    m := Grow(r.cfg, r.rank, false, Alert(inp), s, pass, mid, call, q, inp.lateTerms, true);
  }

  method Starting(r: L.Rank, inp: L.Inputs, ghost s: State, ghost pass: seq<Moment>, ghost p: L.Parts)
    returns (ghost m: Moment, ghost q: L.Parts)
    requires Trace(r.cfg, r.rank, true, Alert(inp), s, pass, p, false) && r.Has(p)
    requires !r.work.workRequested && !r.reduce.reduceOutstanding && !r.abort.abortOutstanding
    modifies r.Repr()
    ensures Trace(r.cfg, r.rank, true, Alert(inp), s, pass + [m], q, false)
    ensures r.Has(q)
    ensures m.call.StartBarrier?
  {
    ghost var mid := Pause(r, true, Alert(inp), s, pass, p);
    ghost var call;
    call, q := r.BeginBarrier(PartsOf(mid));
    Stays(call);
    m := Grow(r.cfg, r.rank, true, Alert(inp), s, pass, mid, call, q, {}, true);
  }

  method Testing(r: L.Rank, inp: L.Inputs, ghost s: State, ghost pass: seq<Moment>, ghost p: L.Parts)
    returns (complete: bool, ghost m: Moment, ghost q: L.Parts)
    requires Trace(r.cfg, r.rank, true, Alert(inp), s, pass, p, false) && r.Has(p)
    modifies r.Repr()
    ensures Trace(r.cfg, r.rank, true, Alert(inp), s, pass + [m], q, complete)
    ensures r.Has(q)
    ensures m.call.TestBarrier?
  {
    ghost var mid := Pause(r, true, Alert(inp), s, pass, p);
    ghost var call;
    complete, call, q := r.CheckBarrier(inp.lateBarriers, PartsOf(mid));
    Stays(call);
    m := Grow(r.cfg, r.rank, true, Alert(inp), s, pass, mid, call, q, inp.lateBarriers, true);
  }

  // ----- the main loop -----

  /** Requests are served as the inputs say. */
  predicate ServesAs(call: L.Call, inp: L.Inputs) {
    call.Serve? && call.backlog == inp.backlog && call.equal == inp.equal
  }

  /** The calls made in every pass through the main loop, in order. */
  predicate UpkeepOrder(pass: seq<Moment>, inp: L.Inputs) {
    && |pass| == (if inp.reduceEnabled then 4 else 3)
    && ServesAs(pass[0].call, inp) && pass[1].call.Settle? && pass[2].call.Abort?
    && (inp.reduceEnabled ==> pass[3].call.Reduce?)
  }

  /** Then one call for work, exactly if the queue of `x`, in the state `p` that the calls have led to, is
      empty. */
  ghost predicate Fed(p: L.Parts, upkeep: seq<Moment>, fed: seq<Moment>, x: nat) {
    && x < |p.work.desks|
    && if p.work.desks[x].queue == [] then |fed| == |upkeep| + 1 && upkeep <= fed && fed[|upkeep|].call.Request?
       else fed == upkeep
  }

  /** And finally an item is processed, exactly if there is one and `x` has not aborted, with a callback
      that does `ops`; otherwise termination is checked. */
  ghost predicate Acted(p: L.Parts, ops: seq<W.Op>, fed: seq<Moment>, pass: seq<Moment>, x: nat) {
    && x < |p.work.desks| && x < |p.abort.alarms|
    && |pass| == |fed| + 1 && fed <= pass
    && if p.work.desks[x].queue != [] && !p.abort.alarms[x].flag then
         pass[|fed|].call.Process? && pass[|fed|].call.ops == ops
       else pass[|fed|].call.CheckTerm?
  }

  method ReduceIfEnabled(r: L.Rank, cleanup: bool, inp: L.Inputs, ghost s: State, ghost pass: seq<Moment>,
                         ghost p: L.Parts)
    returns (ghost longer: seq<Moment>, ghost q: L.Parts)
    requires Trace(r.cfg, r.rank, cleanup, Alert(inp), s, pass, p, false) && r.Has(p)
    modifies r.Repr()
    ensures Trace(r.cfg, r.rank, cleanup, Alert(inp), s, longer, q, false) && r.Has(q)
    ensures if inp.reduceEnabled then |longer| == |pass| + 1 && pass <= longer && longer[|pass|].call.Reduce?
            else longer == pass
  {
    longer, q := pass, p;
    if inp.reduceEnabled {
      ghost var m;
      m, q := Reducing(r, cleanup, inp, s, pass, p);
      longer := pass + [m];
    }
  }

  method ServeAndSettle(r: L.Rank, inp: L.Inputs, ghost s: State, ghost p: L.Parts)
    returns (ghost pass: seq<Moment>, ghost q: L.Parts)
    requires Trace(r.cfg, r.rank, false, Alert(inp), s, [], p, false) && r.Has(p)
    modifies r.Repr()
    ensures Trace(r.cfg, r.rank, false, Alert(inp), s, pass, q, false) && r.Has(q)
    ensures |pass| == 2 && ServesAs(pass[0].call, inp) && pass[1].call.Settle?
  {
    ghost var m0, q0 := Serving(r, false, inp, s, [], p);
    ghost var m1, q1 := Settling(r, inp, s, [] + [m0], q0);
    pass, q := [] + [m0] + [m1], q1;
  }

  method Upkeep(r: L.Rank, inp: L.Inputs, ghost s: State, ghost p: L.Parts)
    returns (ghost pass: seq<Moment>, ghost q: L.Parts)
    requires Trace(r.cfg, r.rank, false, Alert(inp), s, [], p, false) && r.Has(p)
    modifies r.Repr()
    ensures Trace(r.cfg, r.rank, false, Alert(inp), s, pass, q, false) && r.Has(q)
    ensures UpkeepOrder(pass, inp)
  {
    ghost var first, q1 := ServeAndSettle(r, inp, s, p);
    ghost var m, q2 := Aborting(r, false, inp, s, first, q1);
    pass, q := ReduceIfEnabled(r, false, inp, s, first + [m], q2);
  }

  /** Ask for work, or look for an answer, if and only if the queue is empty. */
  method Feed(r: L.Rank, inp: L.Inputs, ghost s: State, ghost pass: seq<Moment>, ghost p: L.Parts)
    returns (ghost longer: seq<Moment>, ghost q: L.Parts)
    requires Trace(r.cfg, r.rank, false, Alert(inp), s, pass, p, false) && r.Has(p) && r.GoodNext(inp.next)
    modifies r.Repr()
    ensures Trace(r.cfg, r.rank, false, Alert(inp), s, longer, q, false) && r.Has(q)
    ensures Fed(p, pass, longer, r.rank)
  {
    longer, q := pass, p;
    if r.work.queue == [] {
      ghost var m;
      m, q := Requesting(r, false, inp, s, pass, p);
      longer := pass + [m];
    }
  }

  lemma LastCall(p: L.Parts, ops: seq<W.Op>, fed: seq<Moment>, m: Moment, x: nat)
    requires x < |p.work.desks| && x < |p.abort.alarms|
    requires if p.work.desks[x].queue != [] && !p.abort.alarms[x].flag then m.call.Process? && m.call.ops == ops
             else m.call.CheckTerm?
    ensures Acted(p, ops, fed, fed + [m], x)
  {
  }

  /** The last call of a pass. */
  method ProcessOrCheck(r: L.Rank, inp: L.Inputs, ghost s: State, ghost pass: seq<Moment>, ghost p: L.Parts)
    returns (terminate: bool, ghost m: Moment, ghost q: L.Parts)
    requires Trace(r.cfg, r.rank, false, Alert(inp), s, pass, p, false) && r.Has(p)
    modifies r.Repr()
    ensures Trace(r.cfg, r.rank, false, Alert(inp), s, pass + [m], q, terminate) && r.Has(q)
    ensures if old(r.work.queue != [] && !r.abort.abortFlag) then m.call.Process? && m.call.ops == inp.ops
            else m.call.CheckTerm?
  {
    if r.work.queue != [] && !r.abort.abortFlag {
      terminate := false;
      m, q := Processing(r, inp, s, pass, p);
    } else {
      terminate, m, q := Terminating(r, inp, s, pass, p);
    }
  }

  /** Process an item, or check for termination. */
  method Act(r: L.Rank, inp: L.Inputs, ghost s: State, ghost pass: seq<Moment>, ghost p: L.Parts)
    returns (terminate: bool, ghost longer: seq<Moment>, ghost q: L.Parts)
    requires Trace(r.cfg, r.rank, false, Alert(inp), s, pass, p, false) && r.Has(p)
    modifies r.Repr()
    ensures Trace(r.cfg, r.rank, false, Alert(inp), s, longer, q, terminate) && r.Has(q)
    ensures Acted(p, inp.ops, pass, longer, r.rank)
  {
    ghost var m;
    terminate, m, q := ProcessOrCheck(r, inp, s, pass, p);
    LastCall(p, inp.ops, pass, m, r.rank);
    longer := pass + [m];
  }

  /** One pass through the main loop, from any reachable state on, while the other ranks act.  `upkeep`
      and `fed` are its first calls. */
  method MainPass(r: L.Rank, inp: L.Inputs, ghost s: State)
    returns (terminate: bool, ghost upkeep: seq<Moment>, ghost fed: seq<Moment>, ghost pass: seq<Moment>)
    requires Stands(r.cfg, r.rank, false, s, false) && r.Has(PartsOf(s)) && r.GoodNext(inp.next)
    modifies r.Repr()
    ensures var t := EndOf(s, pass);
            Trace(r.cfg, r.rank, false, Alert(inp), s, pass, PartsOf(t), terminate) && r.Has(PartsOf(t))
    ensures UpkeepOrder(upkeep, inp)
    ensures Fed(PartsOf(EndOf(s, upkeep)), upkeep, fed, r.rank)
    ensures Acted(PartsOf(EndOf(s, fed)), inp.ops, fed, pass, r.rank)
  {
    ghost var p, q, q';
    upkeep, p := Upkeep(r, inp, s, PartsOf(s));
    EndsIn(r.cfg, r.rank, false, Alert(inp), s, upkeep, p, false);
    fed, q := Feed(r, inp, s, upkeep, p);
    EndsIn(r.cfg, r.rank, false, Alert(inp), s, fed, q, false);
    terminate, pass, q' := Act(r, inp, s, fed, q);
    EndsIn(r.cfg, r.rank, false, Alert(inp), s, pass, q', terminate);
  }

  lemma EndsIn(cfg: Config, x: nat, cleanup: bool, alert: bool, s: State, pass: seq<Moment>, p: L.Parts, left: bool)
    ensures Trace(cfg, x, cleanup, alert, s, pass, p, left) ==> PartsOf(EndOf(s, pass)) == p
  {
  }

  // ----- the cleanup loop -----

  /** The calls of a pass through the cleanup loop, in order: the barrier is started exactly if `x`, in
      state `p`, waits for nothing and its sends are done, ... */
  ghost predicate Started(p: L.Parts, started: seq<Moment>, x: nat, sendsDone: bool) {
    && x < |p.work.desks| && x < |p.reduce.ranks| && x < |p.abort.alarms|
    && if L.Idle(p, x) && sendsDone then |started| == 1 && started[0].call.StartBarrier? else started == []
  }

  /** ... and it is tested; ... */
  ghost predicate BarrierOrder(p: L.Parts, tried: seq<Moment>, x: nat, sendsDone: bool) {
    && tried != [] && Started(p, tried[..|tried| - 1], x, sendsDone)
    && tried[|tried| - 1].call.TestBarrier?
  }

  /** ... and unless it is complete everything is received that may still come in: work requests and the
      background reduction first, ... */
  predicate DrainsFirst(tried: seq<Moment>, served: seq<Moment>, reduceEnabled: bool) {
    && |served| == |tried| + (if reduceEnabled then 2 else 1) && tried <= served
    && served[|tried|].call.Serve? && (reduceEnabled ==> served[|tried| + 1].call.Reduce?)
  }

  /** ... and then work replies and abort messages. */
  predicate DrainsLast(served: seq<Moment>, pass: seq<Moment>) {
    && |pass| == |served| + 2 && served <= pass
    && pass[|served|].call.Request? && pass[|served| + 1].call.Abort?
  }

  /** Start the barrier if the rank waits for nothing. */
  method StartIfIdle(r: L.Rank, inp: L.Inputs, ghost s: State, ghost p: L.Parts)
    returns (ghost pass: seq<Moment>, ghost q: L.Parts)
    requires Trace(r.cfg, r.rank, true, Alert(inp), s, [], p, false) && r.Has(p)
    modifies r.Repr()
    ensures Trace(r.cfg, r.rank, true, Alert(inp), s, pass, q, false) && r.Has(q)
    ensures Started(p, pass, r.rank, inp.sendsDone)
  {
    pass, q := [], p;
    if !r.work.workRequested && !r.reduce.reduceOutstanding && !r.abort.abortOutstanding && inp.sendsDone {
      ghost var m;
      m, q := Starting(r, inp, s, [], p);
      pass := [] + [m];
    }
  }

  method TryBarrier(r: L.Rank, inp: L.Inputs, ghost s: State, ghost p: L.Parts)
    returns (complete: bool, ghost pass: seq<Moment>, ghost q: L.Parts)
    requires Trace(r.cfg, r.rank, true, Alert(inp), s, [], p, false) && r.Has(p)
    modifies r.Repr()
    ensures Trace(r.cfg, r.rank, true, Alert(inp), s, pass, q, complete) && r.Has(q)
    ensures BarrierOrder(p, pass, r.rank, inp.sendsDone)
  {
    ghost var started, q1 := StartIfIdle(r, inp, s, p);
    ghost var m;
    complete, m, q := Testing(r, inp, s, started, q1);
    pass := started + [m];
    assert pass[..|started|] == started;
  }

  lemma ServedFirst(tried: seq<Moment>, first: seq<Moment>, longer: seq<Moment>, reduceEnabled: bool)
    requires |first| == |tried| + 1 && tried <= first && first[|tried|].call.Serve?
    ensures reduceEnabled && |longer| == |first| + 1 && first <= longer && longer[|first|].call.Reduce? ==>
              DrainsFirst(tried, longer, true)
    ensures !reduceEnabled && longer == first ==> DrainsFirst(tried, longer, false)
  {
  }

  /** Serve requests, and the reduction if there is one. */
  method DrainFirst(r: L.Rank, inp: L.Inputs, ghost s: State, ghost pass: seq<Moment>, ghost p: L.Parts)
    returns (ghost longer: seq<Moment>, ghost q: L.Parts)
    requires Trace(r.cfg, r.rank, true, Alert(inp), s, pass, p, false) && r.Has(p)
    modifies r.Repr()
    ensures Trace(r.cfg, r.rank, true, Alert(inp), s, longer, q, false) && r.Has(q)
    ensures DrainsFirst(pass, longer, inp.reduceEnabled)
  {
    ghost var m, q1 := Serving(r, true, inp, s, pass, p);
    ghost var first := pass + [m];
    longer, q := ReduceIfEnabled(r, true, inp, s, first, q1);
    ServedFirst(pass, first, longer, inp.reduceEnabled);
  }

  /** Receive a work reply and abort messages. */
  method DrainLast(r: L.Rank, inp: L.Inputs, ghost s: State, ghost pass: seq<Moment>, ghost p: L.Parts)
    returns (ghost longer: seq<Moment>, ghost q: L.Parts)
    requires Trace(r.cfg, r.rank, true, Alert(inp), s, pass, p, false) && r.Has(p) && r.GoodNext(inp.next)
    modifies r.Repr()
    ensures Trace(r.cfg, r.rank, true, Alert(inp), s, longer, q, false) && r.Has(q)
    ensures DrainsLast(pass, longer)
  {
    ghost var m, q1 := Requesting(r, true, inp, s, pass, p);
    ghost var m', q2 := Aborting(r, true, inp, s, pass + [m], q1);
    longer, q := pass + [m] + [m'], q2;
  }

  /** One pass through the cleanup loop, from any reachable state on, while the other ranks act.  `tried`
      and `served` are its first calls. */
  method CleanupPass(r: L.Rank, inp: L.Inputs, ghost s: State)
    returns (complete: bool, ghost tried: seq<Moment>, ghost served: seq<Moment>, ghost pass: seq<Moment>)
    requires Stands(r.cfg, r.rank, true, s, false) && r.Has(PartsOf(s)) && r.GoodNext(inp.next)
    modifies r.Repr()
    ensures var t := EndOf(s, pass);
            Trace(r.cfg, r.rank, true, Alert(inp), s, pass, PartsOf(t), complete) && r.Has(PartsOf(t))
    ensures BarrierOrder(PartsOf(s), tried, r.rank, inp.sendsDone)
    ensures if complete then pass == tried
            else DrainsFirst(tried, served, inp.reduceEnabled) && DrainsLast(served, pass)
  {
    ghost var q;
    complete, tried, q := TryBarrier(r, inp, s, PartsOf(s));
    pass, served := tried, [];
    if !complete {
      served, q := DrainFirst(r, inp, s, tried, q);
      pass, q := DrainLast(r, inp, s, served, q);
    }
    EndsIn(r.cfg, r.rank, true, Alert(inp), s, pass, q, complete);
  }
}
