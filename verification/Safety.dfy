/** What the invariant means for a caller of the library: the safety results of tree mode. */
module Safety {
  import opened Channels
  import opened Tree
  import H = Handshake
  import W = WorkTransfer
  import A = AbortSignal
  import R = BackgroundReduce
  import D = Declines
  import opened Protocol
  import opened Invariant
  import opened Moves

  // ----- termination -----

  /** No reply that carries items and no receipt is in flight between any two ranks. */
  ghost predicate NoTransfers(cfg: Config, s: State) {
    && (forall x: nat, y: nat | x < cfg.n && y < cfg.n ::
          && |At(s.work.reply, x, y)| <= 1
          && forall i | 0 <= i < |At(s.work.reply, x, y)| :: At(s.work.reply, x, y)[i].NoWork?)
    && Silent(cfg.n, s.work.receipt)
  }

  /** When some rank has received TERMINATE: no rank anywhere has items that it would
      process, no transfer and no receipt is in flight, and every account is settled; and
      so it remains. */
  lemma TerminationSafety(cfg: Config, s: State, p: nat)
    requires Reachable(cfg, s) && p < cfg.n && s.phase[p] != Working
    ensures forall x: nat | x < cfg.n :: s.work.desks[x].queue == [] || Aborted(cfg, s, x)
    ensures forall x: nat | x < cfg.n :: s.work.desks[x].outstanding == 0
    ensures NoTransfers(cfg, s)
  {
    ReachableInv(cfg, s);
    forall x: nat | x < cfg.n
      ensures s.work.desks[x].queue == [] || Aborted(cfg, s, x)
      ensures s.work.desks[x].outstanding == 0
    {
      assert !Owing(cfg, s, x);
    }
    forall x: nat, y: nat | x < cfg.n && y < cfg.n
      ensures |At(s.work.reply, x, y)| <= 1 && At(s.work.receipt, y, x) == []
      ensures forall i | 0 <= i < |At(s.work.reply, x, y)| :: At(s.work.reply, x, y)[i].NoWork?
    {
      assert W.PairOk(s.work, x, y);
      if |At(s.work.reply, x, y)| >= 2 || At(s.work.receipt, y, x) != [] {
        InFlightIsOutstanding(cfg, s, x, y);
      }
    }
  }

  // ----- exactly once -----

  lemma {:induction false} EmptyUnion(m: seq<multiset<W.Item>>)
    requires forall i | 0 <= i < |m| :: m[i] == multiset{}
    ensures W.Union(m) == multiset{}
  {
    if m != [] {
      EmptyUnion(m[..|m| - 1]);
    }
  }

  /** At any moment of any run: the items created are those processed, those in queues and
      those on their way to a rank. */
  lemma ItemsConserved(cfg: Config, s: State)
    requires Reachable(cfg, s)
    ensures s.work.created == s.work.processed + W.Union(W.HeldBy(s.work))
  {
    ReachableInv(cfg, s);
  }

  /** If no rank has aborted when some rank has received TERMINATE, every item ever created
      has been processed exactly once. */
  lemma ProcessedExactlyOnce(cfg: Config, s: State, p: nat)
    requires Reachable(cfg, s) && p < cfg.n && s.phase[p] != Working
    requires forall x: nat | x < cfg.n :: !Aborted(cfg, s, x)
    ensures s.work.processed == s.work.created
  {
    ReachableInv(cfg, s);
    TerminationSafety(cfg, s, p);
    forall y: nat | y < cfg.n ensures W.HeldBy(s.work)[y] == multiset{} {
      assert W.DeskOk(cfg.n, s.work, y);
    }
    EmptyUnion(W.HeldBy(s.work));
  }

  // ----- requests and replies -----

  lemma ReachableWork(cfg: Config, s: State)
    requires Reachable(cfg, s)
    ensures W.Inv(cfg.n, s.work)
  {
    ReachableInv(cfg, s);
  }

  /** A rank has at most one request that is not answered, wherever the request or its
      answer is; its answers arrive in whole frames; and while it waits its queue is empty,
      so that a transfer that overwrites the queue destroys no item. */
  lemma RequestDiscipline(cfg: Config, s: State, y: nat)
    requires Reachable(cfg, s) && y < cfg.n
    ensures s.work.desks[y].requested ==> s.work.desks[y].source < cfg.n && s.work.desks[y].queue == []
    ensures forall x: nat | x < cfg.n :: W.FrameOk(At(s.work.reply, x, y))
    ensures forall x: nat | x < cfg.n ::
              W.Pending(s.work, x, y) == if s.work.desks[y].requested && s.work.desks[y].source == x then 1 else 0
  {
    ReachableWork(cfg, s);
    OneUnansweredRequest(cfg.n, s.work, y);
  }

  lemma OneUnansweredRequest(n: nat, w: W.Sys, y: nat)
    requires W.Discipline(n, w) && y < n
    ensures w.desks[y].requested ==> w.desks[y].source < n && w.desks[y].queue == []
    ensures forall x: nat | x < n :: W.FrameOk(At(w.reply, x, y))
    ensures forall x: nat | x < n ::
              W.Pending(w, x, y) == if w.desks[y].requested && w.desks[y].source == x then 1 else 0
  {
    assert W.DeskOk(n, w, y);
    forall x: nat | x < n
      ensures W.FrameOk(At(w.reply, x, y))
      ensures W.Pending(w, x, y) == if w.desks[y].requested && w.desks[y].source == x then 1 else 0
    {
      assert W.PairOk(w, x, y);
    }
  }

  /** The list of requestors has no duplicates and never holds the rank itself, so that
      the array of `size` entries is large enough. */
  lemma RequestorsFit(cfg: Config, s: State, x: nat)
    requires Reachable(cfg, s) && x < cfg.n
    ensures |s.work.desks[x].requestors| <= cfg.n - 1
    ensures forall i, j | 0 <= i < j < |s.work.desks[x].requestors| ::
              s.work.desks[x].requestors[i] != s.work.desks[x].requestors[j]
  {
    ReachableWork(cfg, s);
    W.RequestorsAreDistinct(cfg.n, s.work, x);
    W.DistinctBelow(s.work.desks[x].requestors, cfg.n, x);
  }

  // ----- receives from any source -----

  /** While a rank gathers its children, whatever MPI_ANY_SOURCE finds comes from a child that
      has not been counted in this round, and is the only message on that edge. */
  lemma AnySourceIsAChild(cfg: Config, s: State, p: nat, src: nat)
    requires Reachable(cfg, s) && p < cfg.n && src < cfg.n
    requires s.term.nodes[p].replies < |Kids(cfg, p)| && At(s.term.chan, src, p) != []
    ensures src in Kids(cfg, p) && |At(s.term.chan, src, p)| == 1
    ensures s.term.nodes[src].up && s.term.nodes[src].round == s.term.nodes[p].round
    ensures src !in H.CountedKids(cfg, s.term.nodes, s.term.chan, p)
  {
    ReachableInv(cfg, s);
    H.CountsChild(cfg, s.term.nodes, s.term.chan, p, src);
  }

  /** The same for the barrier. */
  lemma AnySourceIsABarrierChild(cfg: Config, s: State, p: nat, src: nat)
    requires Reachable(cfg, s) && p < cfg.n && src < cfg.n
    requires s.barrier.nodes[p].replies < |Kids(cfg, p)| && At(s.barrier.chan, src, p) != []
    ensures src in Kids(cfg, p) && |At(s.barrier.chan, src, p)| == 1
    ensures s.barrier.nodes[src].up && s.barrier.nodes[src].round == s.barrier.nodes[p].round
    ensures src !in H.CountedKids(cfg, s.barrier.nodes, s.barrier.chan, p)
  {
    ReachableInv(cfg, s);
    H.CountsChild(cfg, s.barrier.nodes, s.barrier.chan, p, src);
  }

  /** At most one TERM and one BARRIER message is in flight on any tree edge, in either
      direction, and none anywhere else. */
  lemma OneMessagePerEdge(cfg: Config, s: State, a: nat, b: nat)
    requires Reachable(cfg, s) && a < cfg.n && b < cfg.n
    ensures |At(s.term.chan, a, b)| + |At(s.term.chan, b, a)|
            <= if a in Kids(cfg, b) || b in Kids(cfg, a) then 1 else 0
    ensures |At(s.barrier.chan, a, b)| + |At(s.barrier.chan, b, a)|
            <= if a in Kids(cfg, b) || b in Kids(cfg, a) then 1 else 0
  {
    ReachableInv(cfg, s);
    if a in Kids(cfg, b) {
      assert H.EdgeOk(cfg, s.term.nodes, s.term.chan, a) && H.EdgeOk(cfg, s.barrier.nodes, s.barrier.chan, a);
    } else if b in Kids(cfg, a) {
      assert H.EdgeOk(cfg, s.term.nodes, s.term.chan, b) && H.EdgeOk(cfg, s.barrier.nodes, s.barrier.chan, b);
    } else {
      assert !H.IsEdge(cfg, a, b) && !H.IsEdge(cfg, b, a);
    }
  }

  // ----- cleanup -----

  /** No message of this invocation is in flight, except for barrier messages. */
  ghost predicate NothingInFlight(cfg: Config, s: State) {
    && Silent(cfg.n, s.work.request) && Silent(cfg.n, s.work.reply) && Silent(cfg.n, s.work.receipt)
    && Silent(cfg.n, s.term.chan)
    && Silent(cfg.n, s.abort.request) && Silent(cfg.n, s.abort.reply)
    && Silent(cfg.n, s.reduce.chan)
  }

  /** Once every rank is past the main loop, no termination message is in flight. */
  lemma NoTermMessages(cfg: Config, s: State)
    requires Inv(cfg, s) && forall p: nat | p < cfg.n :: s.phase[p] != Working
    ensures Silent(cfg.n, s.term.chan)
  {
    forall a: nat, b: nat | a < cfg.n && b < cfg.n ensures At(s.term.chan, a, b) == [] {
      if a in Kids(cfg, b) {
        assert H.EdgeOk(cfg, s.term.nodes, s.term.chan, a) && VerdictOk(cfg, s, a);
      } else if b in Kids(cfg, a) {
        assert H.EdgeOk(cfg, s.term.nodes, s.term.chan, b) && VerdictOk(cfg, s, b);
      } else {
        assert !H.IsEdge(cfg, a, b);
      }
    }
  }

  /** Once no rank waits for a work reply, no work message is in flight and no request is listed. */
  lemma NoWorkMessages(n: nat, w: W.Sys)
    requires W.Discipline(n, w) && forall p: nat | p < n :: !w.desks[p].requested
    ensures Silent(n, w.request) && Silent(n, w.reply)
    ensures forall x: nat | x < n :: w.desks[x].requestors == []
  {
    forall x: nat, y: nat | x < n && y < n
      ensures At(w.request, y, x) == [] && At(w.reply, x, y) == []
    {
      assert W.PairOk(w, x, y);
    }
    forall x: nat | x < n ensures w.desks[x].requestors == [] {
      if w.desks[x].requestors != [] {
        W.FirstRequestorWaits(n, w, x);
      }
    }
  }

  /** When the barrier has completed at some rank, every rank has started it, and nothing of
      this invocation is left in flight: every send that is still tracked has been matched. */
  lemma CleanupQuiescence(cfg: Config, s: State, p: nat)
    requires Reachable(cfg, s) && p < cfg.n && s.phase[p] == Finished
    ensures forall x: nat | x < cfg.n :: HasStarted(cfg, s, x)
    ensures forall x: nat | x < cfg.n :: s.work.desks[x].requestors == [] && s.work.desks[x].outstanding == 0
    ensures NothingInFlight(cfg, s)
  {
    ReachableInv(cfg, s);
    TerminationSafety(cfg, s, p);
    forall x: nat | x < cfg.n ensures s.phase[x] != Working && NothingPending(cfg, s, x) {
      assert HasStarted(cfg, s, x) && BarrierOk(cfg, s, x);
    }
    NoTermMessages(cfg, s);
    NoMoreMessages(cfg, s);
  }

  lemma NoMoreMessages(cfg: Config, s: State)
    requires Parts(cfg, s) && forall x: nat | x < cfg.n :: NothingPending(cfg, s, x)
    ensures Silent(cfg.n, s.work.request) && Silent(cfg.n, s.work.reply)
    ensures Silent(cfg.n, s.abort.request) && Silent(cfg.n, s.abort.reply) && Silent(cfg.n, s.reduce.chan)
    ensures forall x: nat | x < cfg.n :: s.work.desks[x].requestors == []
  {
    forall x: nat | x < cfg.n
      ensures !s.work.desks[x].requested && !s.abort.alarms[x].outstanding && !s.reduce.ranks[x].outstanding
    {
      assert NothingPending(cfg, s, x);
    }
    NoWorkMessages(cfg.n, s.work);
    A.NobodyWaiting(cfg, s.abort);
    R.NobodyBusy(cfg, s.reduce);
  }

  /** The barrier completes from the root down: a rank's cleanup loop ends after its parent's. */
  lemma FinishedGoesDown(cfg: Config, s: State, c: nat)
    requires Reachable(cfg, s) && 1 <= c < cfg.n && s.phase[c] == Finished
    ensures s.phase[Parent(cfg, c)] == Finished
  {
    ReachableInv(cfg, s);
    assert H.EdgeOk(cfg, s.barrier.nodes, s.barrier.chan, c);
    assert BarrierOk(cfg, s, c) && BarrierOk(cfg, s, Parent(cfg, c));
  }

  // ----- background reduction -----

  /** A result that the root delivers as valid is the sum of one contribution of every rank,
      each made in this very reduction; a rank that declined would show. */
  lemma DeliveryIsComplete(cfg: Config, s: State, count: int, bytes: nat)
    requires Reachable(cfg, s) && R.CanFinish(cfg, s.reduce, 0) && s.reduce.ranks[0].valid
    ensures var r := R.Finish(cfg, s.reduce, 0, count, bytes);
            && r.ranks[0].sum == Total(r.gave)
            && forall y: nat | y < cfg.n :: r.ranks[y].gaveEpoch == s.reduce.ranks[0].epoch
  {
    ReachableInv(cfg, s);
    R.DeliveredTotal(cfg, s.reduce, count, bytes);
  }

  lemma TakesShows(cfg: Config, s: State, step: Step, s': State)
    requires D.Shows(cfg, s.reduce) && Takes(cfg, s, step, s')
    ensures D.Shows(cfg, s'.reduce)
  {
    if step.OnReduce? {
      D.StepShows(cfg, s.reduce, step.x, step.reduce);
    }
  }

  lemma {:induction false} RunShows(cfg: Config, run: seq<State>, steps: seq<Step>, i: nat)
    requires Run(cfg, run, steps) && D.Shows(cfg, run[0].reduce) && i <= |steps|
    ensures D.Shows(cfg, run[i].reduce)
  {
    if i > 0 {
      var before, step, after := run[i - 1], steps[i - 1], run[i];
      assert StepAt(cfg, run, steps, i - 1);
      RunShows(cfg, run, steps, i - 1);
      TakesShows(cfg, before, step, after);
    }
  }

  lemma ReachableShows(cfg: Config, s: State)
    requires Reachable(cfg, s)
    ensures D.Shows(cfg, s.reduce)
  {
    var run: seq<State>, steps: seq<Step> :| Run(cfg, run, steps) && Initial(cfg, run[0]) && run[|steps|] == s;
    D.InitialShows(cfg, run[0].reduce);
    RunShows(cfg, run, steps, |steps|);
  }

  /** The root delivers a valid result exactly if every other rank has contributed to this very
      reduction. */
  lemma ValidExactlyIfAllGave(cfg: Config, s: State)
    requires Reachable(cfg, s) && R.CanFinish(cfg, s.reduce, 0)
    ensures s.reduce.ranks[0].valid <==>
            forall y: nat | 1 <= y < cfg.n :: s.reduce.ranks[y].gaveEpoch == s.reduce.ranks[0].epoch
  {
    ReachableShows(cfg, s);
    D.ValidIfAllGave(cfg, s.reduce);
  }

  lemma TakesMisses(cfg: Config, s: State, step: Step, s': State, y: nat, e: nat)
    requires R.Inv(cfg, s.reduce) && y >= 1 && D.Missed(s.reduce, y, e) && Takes(cfg, s, step, s')
    ensures R.Inv(cfg, s'.reduce) && D.Missed(s'.reduce, y, e)
  {
    if step.OnReduce? {
      R.StepKeepsInv(cfg, s.reduce, step.x, step.reduce);
      D.MissedStays(cfg, s.reduce, step.x, step.reduce, y, e);
    }
  }

  lemma RunMisses(cfg: Config, run: seq<State>, steps: seq<Step>, y: nat, e: nat, i: nat, j: nat)
    requires Run(cfg, run, steps) && i <= j <= |steps|
    requires R.Inv(cfg, run[i].reduce) && y >= 1 && D.Missed(run[i].reduce, y, e)
    ensures R.Inv(cfg, run[j].reduce) && D.Missed(run[j].reduce, y, e)
  {
    var misses := (s: State) => R.Inv(cfg, s.reduce) && D.Missed(s.reduce, y, e);
    forall a: State, step: Step, b: State | misses(a) && Takes(cfg, a, step, b) ensures misses(b) {
      TakesMisses(cfg, a, step, b, y, e);
    }
    KeptFrom(cfg, run, steps, (step: Step) => true, misses, i, j);
  }

  /** A rank that has declined to take part in a reduction shows: the root delivers no valid result
      of it. */
  lemma DeclinedShows(cfg: Config, run: seq<State>, steps: seq<Step>, i: nat, j: nat, y: nat, bytes: nat)
    requires Run(cfg, run, steps) && Reachable(cfg, run[0])
    requires i < j <= |steps| && steps[i] == OnReduce(y, R.ReduceDecline(bytes)) && StepAt(cfg, run, steps, i)
    requires Shape(cfg, run[j]) && R.CanFinish(cfg, run[j].reduce, 0)
    requires run[j].reduce.ranks[0].epoch == run[i + 1].reduce.ranks[y].epoch
    ensures !run[j].reduce.ranks[0].valid
  {
    var e := run[i + 1].reduce.ranks[y].epoch;
    DeclineIsMissed(cfg, run, steps, i, y, bytes);
    RunMisses(cfg, run, steps, y, e, i + 1, j);
    D.MissedIsNotDelivered(cfg, run[j].reduce, y);
  }

  lemma DeclineIsMissed(cfg: Config, run: seq<State>, steps: seq<Step>, i: nat, y: nat, bytes: nat)
    requires Run(cfg, run, steps) && Reachable(cfg, run[0])
    requires i < |steps| && steps[i] == OnReduce(y, R.ReduceDecline(bytes)) && StepAt(cfg, run, steps, i)
    ensures 1 <= y < cfg.n && R.Inv(cfg, run[i + 1].reduce)
    ensures D.Missed(run[i + 1].reduce, y, run[i + 1].reduce.ranks[y].epoch)
  {
    ReachableInv(cfg, run[0]);
    RunKeepsInv(cfg, run, steps, i);
    D.DeclineMisses(cfg, run[i].reduce, y, bytes);
    R.DeclineKeepsInv(cfg, run[i].reduce, y, bytes);
  }
}
