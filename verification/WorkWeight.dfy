/** How much is left to do while no callback enqueues anything more: every step that moves, delivers or
    dequeues items, or settles an account, takes something from the total, and none adds to it. */
module WorkWeight {
  import opened Channels
  import opened Tree
  import opened WorkTransfer
  import Ending

  /** What is on its way to rank `z` from the rank it has asked. */
  ghost function Arriving(w: Sys, z: nat): seq<Reply>
    requires z < |w.desks|
  {
    if w.desks[z].requested then At(w.reply, w.desks[z].source, z) else []
  }

  /** The items in its queue and on their way to it. */
  ghost function Items(w: Sys, z: nat): nat
    requires z < |w.desks|
  {
    |w.desks[z].queue| + Ending.Incoming(Arriving(w, z))
  }

  /** Every item may have to be sent before it is dequeued, which costs a transfer and its receipt; a rank
      without items may get some. */
  ghost function Weight(w: Sys, z: nat): nat
    requires z < |w.desks|
  {
    4 * Items(w, z) + (if Items(w, z) == 0 then 3 else 0) + w.desks[z].outstanding + Carried(Arriving(w, z))
  }

  // ----- callbacks -----

  /** A callback that enqueues nothing leaves what it does not dequeue; if it calls for a dequeue at all,
      the queue gets shorter. */
  lemma {:induction false} OnlyDequeues(q: seq<Item>, ops: seq<Op>)
    requires Callback(q, ops).1 == multiset{}
    ensures |Callback(q, ops).0| <= |q|
    ensures q != [] && Dequeue in ops ==> |Callback(q, ops).0| < |q|
    decreases |ops|
  {
    if ops != [] {
      OnlyDequeues(if ops[0].Dequeue? && q != [] then q[..|q| - 1] else q, ops[1..]);
    }
  }

  // ----- one step -----

  lemma AskWeighs(n: nat, w: Sys, y: nat, x: nat, z: nat)
    requires Discipline(n, w) && CanAsk(n, w, y, x) && z < n
    ensures Weight(Ask(n, w, y, x), z) == Weight(w, z)
  {
    assert PairOk(w, x, y);
  }

  lemma RefuseWeighs(n: nat, w: Sys, x: nat, abort: bool, z: nat)
    requires Discipline(n, w) && CanRefuse(n, w, x) && z < n
    ensures Weight(Refuse(n, w, x, abort), z) == Weight(w, z)
  {
    FirstRequestorWaits(n, w, x);
  }

  lemma HearNoWeighs(n: nat, w: Sys, y: nat, z: nat)
    requires Discipline(n, w) && CanHearNo(n, w, y) && z < n
    ensures Weight(HearNo(n, w, y), z) == Weight(w, z)
  {
    assert DeskOk(n, w, y) && PairOk(w, w.desks[y].source, y);
  }

  lemma ReceiveWeighs(n: nat, w: Sys, y: nat, z: nat)
    requires Discipline(n, w) && CanReceive(n, w, y) && z < n
    ensures Weight(Receive(n, w, y), z) + (if z == y then 1 else 0) <= Weight(w, z)
  {
    assert DeskOk(n, w, y) && PairOk(w, w.desks[y].source, y);
  }

  lemma ProcessWeighs(n: nat, w: Sys, x: nat, ops: seq<Op>, z: nat)
    requires Discipline(n, w) && CanProcess(n, w, x) && z < n && Process(n, w, x, ops).created == w.created
    ensures var w' := Process(n, w, x, ops);
            Weight(w', z) + (if z == x && |w'.desks[x].queue| != |w.desks[x].queue| then 1 else 0) <= Weight(w, z)
  {
    NothingCreated(n, w, x, ops);
    OnlyDequeues(w.desks[x].queue, ops);
    assert DeskOk(n, w, x);
  }

  lemma NothingCreated(n: nat, w: Sys, x: nat, ops: seq<Op>)
    requires |w.desks| == n && CanProcess(n, w, x) && Process(n, w, x, ops).created == w.created
    ensures Callback(w.desks[x].queue, ops).1 == multiset{}
  {
    var created := Callback(w.desks[x].queue, ops).1;
    assert |w.created + created| == |w.created| + |created|;
  }

  /** What the sender of a transfer loses is more than its requestor gains. */
  lemma ShareWeighs(n: nat, w: Sys, x: nat, m: nat, z: nat)
    requires Discipline(n, w) && CanShare(n, w, x, m) && z < n
    ensures var w', y := Share(n, w, x, m), w.desks[x].requestors[0];
            && y != x && y < n
            && Weight(w', z) == Weight(w, z) + (if z == x then 1 - 4 * m else if z == y then 4 * m - 2 else 0)
  {
    FirstRequestorWaits(n, w, x);
    assert DeskOk(n, w, x);
  }

  // ----- the total -----

  ghost function Weights(w: Sys): (v: seq<int>)
    ensures |v| == |w.desks| && forall z: nat | z < |w.desks| :: v[z] == Weight(w, z) >= 0
  {
    seq(|w.desks|, z requires 0 <= z < |w.desks| => Weight(w, z))
  }

  ghost function TotalWeight(w: Sys): nat {
    TotalIsPositive(Weights(w));
    Total(Weights(w))
  }

  ghost function Accounts(w: Sys): (v: seq<int>)
    ensures |v| == |w.desks| && forall z: nat | z < |w.desks| :: v[z] == w.desks[z].outstanding
  {
    seq(|w.desks|, z requires 0 <= z < |w.desks| => w.desks[z].outstanding)
  }

  lemma WeightBound(n: nat, w: Sys, z: nat)
    requires Discipline(n, w) && z < n
    ensures Weight(w, z) <= 5 * |Held(w, z)| + 3 + w.desks[z].outstanding
  {
    if w.desks[z].requested {
      assert DeskOk(n, w, z) && PairOk(w, w.desks[z].source, z);
    }
  }

  lemma {:induction false} FirstWeights(n: nat, w: Sys, m: nat)
    requires Discipline(n, w) && m <= n
    ensures Total(Weights(w)[..m]) <= 5 * |Union(HeldBy(w)[..m])| + 3 * m + Total(Accounts(w)[..m])
  {
    if m > 0 {
      FirstWeights(n, w, m - 1);
      WeightBound(n, w, m - 1);
      assert Weights(w)[..m][..m - 1] == Weights(w)[..m - 1];
      assert HeldBy(w)[..m][..m - 1] == HeldBy(w)[..m - 1];
      assert Accounts(w)[..m][..m - 1] == Accounts(w)[..m - 1];
    }
  }

  /** At most five for each item that is left, three for each rank, and one for each transfer that has not
      been acknowledged. */
  lemma WeightsBound(n: nat, w: Sys)
    requires Inv(n, w)
    ensures TotalWeight(w) <= 5 * (|w.created| - |w.processed|) + 3 * n + Total(Accounts(w))
  {
    FirstWeights(n, w, n);
    assert Weights(w)[..n] == Weights(w) && HeldBy(w)[..n] == HeldBy(w) && Accounts(w)[..n] == Accounts(w);
    assert |w.processed + Union(HeldBy(w))| == |w.processed| + |Union(HeldBy(w))|;
  }

  lemma {:induction false} TotalUpdate(v: seq<int>, p: nat, k: int)
    requires p < |v|
    ensures Total(v[p := k]) == Total(v) - v[p] + k
  {
    var last := |v| - 1;
    if p < last {
      TotalUpdate(v[..last], p, k);
      assert v[p := k][..last] == v[..last][p := k];
    } else {
      assert v[p := k][..last] == v[..last];
    }
  }

  lemma ShareLightens(n: nat, w: Sys, x: nat, m: nat)
    requires Discipline(n, w) && CanShare(n, w, x, m)
    ensures TotalWeight(Share(n, w, x, m)) == TotalWeight(w) - 1
  {
    var before, after, y := Weights(w), Weights(Share(n, w, x, m)), w.desks[x].requestors[0];
    ShareWeighs(n, w, x, m, x);
    var mid := before[x := after[x]];
    forall z: nat | z < n ensures after[z] == mid[y := after[y]][z] {
      ShareWeighs(n, w, x, m, z);
    }
    assert after == mid[y := after[y]];
    ShareWeighs(n, w, x, m, y);
    TotalUpdate(before, x, after[x]);
    TotalUpdate(mid, y, after[y]);
  }

  /** All other steps, which take something from the rank itself if from any. */
  lemma OtherStepWeighs(n: nat, w: Sys, x: nat, step: WorkStep, abort: bool, z: nat)
    requires Discipline(n, w) && x < n && CanWork(n, w, x, step) && !step.DoShare? && z < n
    requires WorkNext(n, w, x, step, abort).created == w.created
    ensures var w' := WorkNext(n, w, x, step, abort);
            Weight(w', z) + (if z == x && Lightens(w, x, step, w') then 1 else 0) <= Weight(w, z)
  {
    match step
    case DoAsk(to) => AskWeighs(n, w, x, to, z);
    case DoHearNo => HearNoWeighs(n, w, x, z);
    case DoReceive => ReceiveWeighs(n, w, x, z);
    case DoDrain(from) =>
    case DoRefuse => RefuseWeighs(n, w, x, abort, z);
    case DoSettle(from) =>
    case DoProcess(ops) => ProcessWeighs(n, w, x, ops, z);
  }

  predicate Lightens(w: Sys, x: nat, step: WorkStep, w': Sys) {
    || step.DoShare? || step.DoReceive? || step.DoSettle?
    || (step.DoProcess? && x < |w.desks| && x < |w'.desks| && |w'.desks[x].queue| != |w.desks[x].queue|)
  }

  /** While nothing is created, no step adds to the total. */
  lemma StepWeighs(n: nat, w: Sys, x: nat, step: WorkStep, abort: bool)
    requires Discipline(n, w) && x < n && CanWork(n, w, x, step)
    requires WorkNext(n, w, x, step, abort).created == w.created
    ensures var w' := WorkNext(n, w, x, step, abort);
            TotalWeight(w') + (if Lightens(w, x, step, w') then 1 else 0) <= TotalWeight(w)
  {
    var w' := WorkNext(n, w, x, step, abort);
    if step.DoShare? {
      ShareLightens(n, w, x, step.items);
    } else {
      var before, after := Weights(w), Weights(w');
      forall z: nat | z < n ensures after[z] + (if z == x && Lightens(w, x, step, w') then 1 else 0) <= before[z] {
        OtherStepWeighs(n, w, x, step, abort, z);
      }
      TotalGrows(after, before, x);
    }
  }

  // ----- steps that take nothing away -----

  /** Nothing has been moved: the queues are as long as they were, the accounts are the same, and what is
      on its way still is. */
  ghost predicate SameWork(n: nat, w: Sys, w': Sys) {
    && |w.desks| == |w'.desks| == n && w'.receipt == w.receipt
    && (forall z: nat | z < n ::
          |w'.desks[z].queue| == |w.desks[z].queue| && w'.desks[z].outstanding == w.desks[z].outstanding)
    && forall y: nat, z: nat | y < n && z < n :: |At(w.reply, y, z)| == 2 ==> |At(w'.reply, y, z)| == 2
  }

  lemma SameOn(n: nat, w: Sys, mid: Sys, w': Sys)
    ensures SameWork(n, w, mid) && SameWork(n, mid, w') ==> SameWork(n, w, w')
  {
  }

  lemma StepLeavesSame(n: nat, w: Sys, x: nat, step: WorkStep, abort: bool)
    requires Discipline(n, w) && x < n && CanWork(n, w, x, step)
    requires !Lightens(w, x, step, WorkNext(n, w, x, step, abort))
    ensures SameWork(n, w, WorkNext(n, w, x, step, abort))
  {
    if step.DoRefuse? {
      FirstRequestorWaits(n, w, x);
    } else if step.DoHearNo? {
      assert DeskOk(n, w, x) && PairOk(w, w.desks[x].source, x);
    }
  }
}
