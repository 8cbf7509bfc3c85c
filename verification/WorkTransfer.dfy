/** Work stealing: requests, replies and receipts (tags WORK_REQUEST, WORK_REPLY and
    WORK_RECEIPT), and the queues the items live in.

    `created` and `processed` are history variables: the items ever enqueued and ever
    dequeued by user callbacks.
 */
module WorkTransfer {
  import opened Channels
  import CStrings
  import opened Tree

  type Item = CStrings.Item

  /** A message with tag WORK_REPLY.  A transfer is two messages: the offsets, whose first
      integer is the number of items, and then the data. */
  datatype Reply =
    | NoWork(abort: bool)
    | Offsets(count: nat)
    | Data(items: seq<Item>)

  /** The work-transfer state of one rank. */
  datatype Desk = Desk(
    queue: seq<Item>,       // bottom of the stack first
    requested: bool,        // work_requested
    source: nat,            // work_requested_rank
    requestors: seq<nat>,   // requests received and not answered yet
    outstanding: nat)       // work_outstanding

  datatype Sys = Sys(
    desks: seq<Desk>,
    request: Chan<()>,
    reply: Chan<Reply>,
    receipt: Chan<()>,
    created: multiset<Item>,
    processed: multiset<Item>)

  // ----- user callbacks -----

  /** What a callback may do with the queue through its handle. */
  datatype Op = Enqueue(item: Item) | Dequeue

  /** The queue after a callback, and the items it enqueued and dequeued.
      Enqueueing a string that is too long and dequeueing from an empty queue fail and change
      nothing. */
  function Callback(q: seq<Item>, ops: seq<Op>): (r: (seq<Item>, multiset<Item>, multiset<Item>))
    ensures multiset(q) + r.1 == multiset(r.0) + r.2
    decreases |ops|
  {
    if ops == [] then (q, multiset{}, multiset{})
    else match ops[0]
      case Enqueue(item) =>
        if |item| >= CStrings.MAX_STRING_LEN then Callback(q, ops[1..])
        else
          var r := Callback(q + [item], ops[1..]);
          (r.0, multiset{item} + r.1, r.2)
      case Dequeue =>
        if q == [] then Callback(q, ops[1..])
        else
          var last := |q| - 1;
          assert multiset(q) == multiset(q[..last]) + multiset{q[last]} by {
            assert q == q[..last] + [q[last]];
          }
          var r := Callback(q[..last], ops[1..]);
          assert multiset(q) + r.1 == (multiset(q[..last]) + r.1) + multiset{q[last]};
          assert multiset(r.0) + (multiset{q[last]} + r.2) == (multiset(r.0) + r.2) + multiset{q[last]};
          (r.0, r.1, multiset{q[last]} + r.2)
  }

  // ----- the atomic steps -----

  ghost predicate CanAsk(n: nat, w: Sys, y: nat, x: nat)
    requires |w.desks| == n
  {
    x < n && y < n && x != y && !w.desks[y].requested && w.desks[y].queue == []
  }

  /** `y` asks `x` for work. */
  ghost function Ask(n: nat, w: Sys, y: nat, x: nat): Sys
    requires |w.desks| == n && CanAsk(n, w, y, x)
  {
    w.(desks := w.desks[y := w.desks[y].(requested := true, source := x)],
       request := Post(w.request, y, x, ()))
  }

  ghost predicate CanDrain(n: nat, w: Sys, x: nat, y: nat)
    requires |w.desks| == n
  {
    x < n && y < n && At(w.request, y, x) != []
  }

  /** `x` receives a request of `y` and lists it. */
  ghost function Drain(n: nat, w: Sys, x: nat, y: nat): Sys
    requires |w.desks| == n && CanDrain(n, w, x, y)
  {
    w.(desks := w.desks[x := w.desks[x].(requestors := w.desks[x].requestors + [y])],
       request := Take(w.request, y, x))
  }

  ghost predicate CanRefuse(n: nat, w: Sys, x: nat)
    requires |w.desks| == n
  {
    x < n && w.desks[x].requestors != []
  }

  /** `x` answers its first requestor with "no work", or with the abort payload. */
  ghost function Refuse(n: nat, w: Sys, x: nat, abort: bool): Sys
    requires |w.desks| == n && CanRefuse(n, w, x)
  {
    var d := w.desks[x];
    w.(desks := w.desks[x := d.(requestors := d.requestors[1..])],
       reply := Post(w.reply, x, d.requestors[0], NoWork(abort)))
  }

  ghost predicate CanShare(n: nat, w: Sys, x: nat, m: nat)
    requires |w.desks| == n
  {
    x < n && w.desks[x].requestors != [] && 1 <= m < |w.desks[x].queue|
  }

  /** `x` sends its last `m` items to its first requestor. */
  ghost function Share(n: nat, w: Sys, x: nat, m: nat): Sys
    requires |w.desks| == n && CanShare(n, w, x, m)
  {
    var d := w.desks[x];
    var keep := |d.queue| - m;
    w.(desks := w.desks[x := d.(queue := d.queue[..keep],
                                requestors := d.requestors[1..],
                                outstanding := d.outstanding + 1)],
       reply := Post(Post(w.reply, x, d.requestors[0], Offsets(m)), x, d.requestors[0], Data(d.queue[keep..])))
  }

  ghost predicate CanHearNo(n: nat, w: Sys, y: nat)
    requires |w.desks| == n
  {
    && y < n && w.desks[y].requested
    && var r := At(w.reply, w.desks[y].source, y);
       r != [] && r[0].NoWork?
  }

  /** `y` receives "no work". */
  ghost function HearNo(n: nat, w: Sys, y: nat): Sys
    requires |w.desks| == n && CanHearNo(n, w, y)
  {
    w.(desks := w.desks[y := w.desks[y].(requested := false)],
       reply := Take(w.reply, w.desks[y].source, y))
  }

  ghost predicate CanReceive(n: nat, w: Sys, y: nat)
    requires |w.desks| == n
  {
    && y < n && w.desks[y].requested
    && var r := At(w.reply, w.desks[y].source, y);
       |r| >= 2 && r[0].Offsets? && r[1].Data?
  }

  /** `y` receives items: they replace its queue, and it sends a receipt. */
  ghost function Receive(n: nat, w: Sys, y: nat): Sys
    requires |w.desks| == n && CanReceive(n, w, y)
  {
    var d := w.desks[y];
    w.(desks := w.desks[y := d.(queue := At(w.reply, d.source, y)[1].items, requested := false)],
       reply := Take(Take(w.reply, d.source, y), d.source, y),
       receipt := Post(w.receipt, y, d.source, ()))
  }

  ghost predicate CanSettle(n: nat, w: Sys, x: nat, y: nat)
    requires |w.desks| == n
  {
    x < n && y < n && w.desks[x].outstanding > 0 && At(w.receipt, y, x) != []
  }

  /** `x` receives a receipt of `y`. */
  ghost function Settle(n: nat, w: Sys, x: nat, y: nat): Sys
    requires |w.desks| == n && CanSettle(n, w, x, y)
  {
    w.(desks := w.desks[x := w.desks[x].(outstanding := w.desks[x].outstanding - 1)],
       receipt := Take(w.receipt, y, x))
  }

  ghost predicate CanProcess(n: nat, w: Sys, x: nat)
    requires |w.desks| == n
  {
    x < n && w.desks[x].queue != []
  }

  /** `x` runs the process callback. */
  ghost function Process(n: nat, w: Sys, x: nat, ops: seq<Op>): Sys
    requires |w.desks| == n && CanProcess(n, w, x)
  {
    var r := Callback(w.desks[x].queue, ops);
    w.(desks := w.desks[x := w.desks[x].(queue := r.0)],
       created := w.created + r.1,
       processed := w.processed + r.2)
  }

  datatype WorkStep =
    // CIRCLE_request_work and CIRCLE_work_receive
    | DoAsk(to: nat)
    | DoHearNo
    | DoReceive
    // CIRCLE_workreq_check, CIRCLE_send_no_work and CIRCLE_send_work
    | DoDrain(from: nat)
    | DoRefuse
    | DoShare(items: nat)
    // CIRCLE_workreceipt_check
    | DoSettle(from: nat)
    // the process callback
    | DoProcess(ops: seq<Op>)

  ghost predicate CanWork(n: nat, w: Sys, x: nat, step: WorkStep)
    requires |w.desks| == n
  {
    match step
    case DoAsk(to) => CanAsk(n, w, x, to)
    case DoHearNo => CanHearNo(n, w, x)
    case DoReceive => CanReceive(n, w, x)
    case DoDrain(from) => CanDrain(n, w, x, from)
    case DoRefuse => CanRefuse(n, w, x)
    case DoShare(m) => CanShare(n, w, x, m)
    case DoSettle(from) => CanSettle(n, w, x, from)
    case DoProcess(_) => CanProcess(n, w, x)
  }

  /** `aborted` is the abort flag of `x`. */
  ghost function WorkNext(n: nat, w: Sys, x: nat, step: WorkStep, aborted: bool): (w': Sys)
    requires |w.desks| == n && CanWork(n, w, x, step)
    ensures |w'.desks| == n
  {
    match step
    case DoAsk(to) => Ask(n, w, x, to)
    case DoHearNo => HearNo(n, w, x)
    case DoReceive => Receive(n, w, x)
    case DoDrain(from) => Drain(n, w, x, from)
    case DoRefuse => Refuse(n, w, x, aborted)
    case DoShare(m) => Share(n, w, x, m)
    case DoSettle(from) => Settle(n, w, x, from)
    case DoProcess(ops) => Process(n, w, x, ops)
  }

  // ----- the invariant -----

  /** The reply stream of a link: nothing, one "no work", or one whole transfer. */
  ghost predicate FrameOk(r: seq<Reply>) {
    || r == []
    || (|r| == 1 && r[0].NoWork?)
    || (|r| == 2 && r[0].Offsets? && r[1].Data? && r[0].count == |r[1].items| > 0)
  }

  function Frames(r: seq<Reply>): nat {
    if r == [] then 0 else 1
  }

  /** 1 if the stream holds a transfer of items. */
  function Carried(r: seq<Reply>): nat {
    if |r| == 2 then 1 else 0
  }

  /** Requests of `y` to `x` in flight, listed by `x`, or answered and the answer in flight. */
  ghost function Pending(w: Sys, x: nat, y: nat): nat
    requires x < |w.desks|
  {
    |At(w.request, y, x)| + multiset(w.desks[x].requestors)[y] + Frames(At(w.reply, x, y))
  }

  ghost predicate PairOk(w: Sys, x: nat, y: nat)
    requires x < |w.desks| && y < |w.desks|
  {
    && FrameOk(At(w.reply, x, y))
    && Pending(w, x, y) == if w.desks[y].requested && w.desks[y].source == x then 1 else 0
  }

  ghost predicate DeskOk(n: nat, w: Sys, y: nat)
    requires |w.desks| == n && y < n
  {
    && (forall i | 0 <= i < |w.desks[y].requestors| :: w.desks[y].requestors[i] < n)
    && (w.desks[y].requested ==>
          w.desks[y].source < n && w.desks[y].source != y && w.desks[y].queue == [])
  }

  /** Transfers from `x` to the ranks below `m` in flight, plus their receipts in flight. */
  ghost function Tally(reply: Chan<Reply>, receipt: Chan<()>, x: nat, m: nat): nat {
    if m == 0 then 0
    else Tally(reply, receipt, x, m - 1) + Carried(At(reply, x, m - 1)) + |At(receipt, m - 1, x)|
  }

  ghost predicate TallyOk(n: nat, w: Sys, x: nat)
    requires |w.desks| == n && x < n
  {
    w.desks[x].outstanding == Tally(w.reply, w.receipt, x, n)
  }

  ghost predicate Discipline(n: nat, w: Sys) {
    && |w.desks| == n
    && (forall y: nat | y < n :: DeskOk(n, w, y))
    && (forall x: nat, y: nat | x < n && y < n :: PairOk(w, x, y))
  }

  ghost predicate Ledger(n: nat, w: Sys) {
    && |w.desks| == n
    && (forall x: nat | x < n :: TallyOk(n, w, x))
  }

  /** The items rank `y` is accountable for: those in its queue and those on their way to it. */
  ghost function Held(w: Sys, y: nat): multiset<Item>
    requires y < |w.desks|
  {
    var d := w.desks[y];
    multiset(d.queue) + if d.requested then InFlight(At(w.reply, d.source, y)) else multiset{}
  }

  ghost function InFlight(r: seq<Reply>): multiset<Item> {
    if |r| == 2 && r[1].Data? then multiset(r[1].items) else multiset{}
  }

  ghost function HeldBy(w: Sys): (s: seq<multiset<Item>>)
    ensures |s| == |w.desks| && forall y: nat | y < |w.desks| :: s[y] == Held(w, y)
  {
    seq(|w.desks|, y requires 0 <= y < |w.desks| => Held(w, y))
  }

  function Union(s: seq<multiset<Item>>): multiset<Item> {
    if s == [] then multiset{} else Union(s[..|s| - 1]) + s[|s| - 1]
  }

  /** No item is lost and none is duplicated. */
  ghost predicate Conserved(n: nat, w: Sys) {
    && |w.desks| == n
    && w.created == w.processed + Union(HeldBy(w))
  }

  ghost predicate Inv(n: nat, w: Sys) {
    Discipline(n, w) && Ledger(n, w) && Conserved(n, w)
  }

  // ----- sums -----

  lemma {:induction false} TallyDelta(reply: Chan<Reply>, receipt: Chan<()>, reply': Chan<Reply>, receipt': Chan<()>,
                                      x: nat, m: nat, y: nat, d: int)
    requires forall z: nat | z < m && z != y ::
               At(reply', x, z) == At(reply, x, z) && At(receipt', z, x) == At(receipt, z, x)
    requires y < m ==> Carried(At(reply', x, y)) + |At(receipt', y, x)|
                       == Carried(At(reply, x, y)) + |At(receipt, y, x)| + d
    ensures Tally(reply', receipt', x, m) == Tally(reply, receipt, x, m) + if y < m then d else 0
  {
    if m > 0 {
      TallyDelta(reply, receipt, reply', receipt', x, m - 1, y, d);
    }
  }

  lemma {:induction false} TallyCovers(reply: Chan<Reply>, receipt: Chan<()>, x: nat, m: nat, y: nat)
    requires y < m
    ensures Tally(reply, receipt, x, m) >= Carried(At(reply, x, y)) + |At(receipt, y, x)|
  {
    if y < m - 1 {
      TallyCovers(reply, receipt, x, m - 1, y);
    }
  }

  lemma {:induction false} UnionUpdate(s: seq<multiset<Item>>, y: nat, v: multiset<Item>)
    requires y < |s|
    ensures Union(s[y := v]) + s[y] == Union(s) + v
  {
    var last := |s| - 1;
    if y < last {
      UnionUpdate(s[..last], y, v);
      assert s[y := v][..last] == s[..last][y := v];
      assert (Union(s[..last][y := v]) + s[last]) + s[y] == (Union(s[..last][y := v]) + s[y]) + s[last];
    } else {
      assert s[y := v][..last] == s[..last];
    }
  }

  /** Items that leave `x` and reach `y` leave the union as it was. */
  lemma UnionMove(s: seq<multiset<Item>>, s': seq<multiset<Item>>, x: nat, y: nat, moved: multiset<Item>)
    requires |s'| == |s| && x < |s| && y < |s| && x != y
    requires forall z: nat | z < |s| && z != x && z != y :: s'[z] == s[z]
    requires s'[y] == s[y] + moved && s[x] == s'[x] + moved
    ensures Union(s') == Union(s)
  {
    var mid := s[x := s'[x]];
    assert s' == mid[y := s'[y]];
    UnionUpdate(s, x, s'[x]);
    UnionUpdate(mid, y, s'[y]);
    forall it: Item ensures Union(s')[it] == Union(s)[it] {
      assert (Union(mid) + s[x])[it] == (Union(s) + s'[x])[it];
      assert (Union(s') + mid[y])[it] == (Union(mid) + s'[y])[it];
    }
  }

  // ----- preservation of the request/reply discipline -----

  lemma HeadOfList(s: seq<nat>)
    requires s != []
    ensures multiset(s) == multiset{s[0]} + multiset(s[1..])
  {
    assert s == [s[0]] + s[1..];
  }

  /** The first requestor is a rank that waits for this answer, and for nothing else. */
  lemma FirstRequestorWaits(n: nat, w: Sys, x: nat)
    requires Discipline(n, w) && x < n && w.desks[x].requestors != []
    ensures var y := w.desks[x].requestors[0];
            && y < n && y != x && w.desks[y].requested && w.desks[y].source == x
            && w.desks[y].queue == [] && At(w.reply, x, y) == []
  {
    var y := w.desks[x].requestors[0];
    assert DeskOk(n, w, x);
    assert DeskOk(n, w, y);
    assert PairOk(w, x, y);
    assert multiset(w.desks[x].requestors)[y] >= 1;
  }

  /** Every listed requestor waits for the answer of `x`: it is listed once, nothing of it is in flight to
      `x`, nothing is in flight to it, and no other rank has a request of it. */
  lemma ListedRequestorsWait(n: nat, w: Sys, x: nat, i: nat)
    requires Discipline(n, w) && x < n && i < |w.desks[x].requestors|
    ensures var y := w.desks[x].requestors[i];
            && y < n && y != x && w.desks[y].requested && w.desks[y].source == x && w.desks[y].queue == []
            && multiset(w.desks[x].requestors)[y] == 1
            && At(w.request, y, x) == [] && At(w.reply, x, y) == []
            && forall z: nat | z < n && z != x :: Pending(w, z, y) == 0
  {
    var y := w.desks[x].requestors[i];
    assert DeskOk(n, w, x);
    assert DeskOk(n, w, y) && PairOk(w, x, y);
    assert multiset(w.desks[x].requestors)[y] >= 1;
    forall z: nat | z < n && z != x ensures Pending(w, z, y) == 0 {
      assert PairOk(w, z, y);
    }
  }

  lemma AskKeepsPair(n: nat, w: Sys, y: nat, x: nat, a: nat, b: nat)
    requires Discipline(n, w) && CanAsk(n, w, y, x) && a < n && b < n
    ensures PairOk(Ask(n, w, y, x), a, b)
  {
    assert PairOk(w, a, b) && DeskOk(n, w, y);
  }

  lemma AskKeepsDiscipline(n: nat, w: Sys, y: nat, x: nat)
    requires Discipline(n, w) && CanAsk(n, w, y, x)
    ensures Discipline(n, Ask(n, w, y, x))
  {
    var w' := Ask(n, w, y, x);
    assert DeskOk(n, w, y);
    forall z: nat | z < n ensures DeskOk(n, w', z) {
      assert DeskOk(n, w, z);
    }
    forall a: nat, b: nat | a < n && b < n ensures PairOk(w', a, b) {
      AskKeepsPair(n, w, y, x, a, b);
    }
  }

  lemma DrainKeepsPair(n: nat, w: Sys, x: nat, y: nat, a: nat, b: nat)
    requires Discipline(n, w) && CanDrain(n, w, x, y) && a < n && b < n
    ensures PairOk(Drain(n, w, x, y), a, b)
  {
    assert PairOk(w, a, b) && DeskOk(n, w, x);
  }

  lemma DrainKeepsDiscipline(n: nat, w: Sys, x: nat, y: nat)
    requires Discipline(n, w) && CanDrain(n, w, x, y)
    ensures Discipline(n, Drain(n, w, x, y))
  {
    var w' := Drain(n, w, x, y);
    assert DeskOk(n, w, x);
    forall z: nat | z < n ensures DeskOk(n, w', z) {
      assert DeskOk(n, w, z);
    }
    forall a: nat, b: nat | a < n && b < n ensures PairOk(w', a, b) {
      DrainKeepsPair(n, w, x, y, a, b);
    }
  }

  lemma RefuseKeepsPair(n: nat, w: Sys, x: nat, abort: bool, a: nat, b: nat)
    requires Discipline(n, w) && CanRefuse(n, w, x) && a < n && b < n
    ensures PairOk(Refuse(n, w, x, abort), a, b)
  {
    assert PairOk(w, a, b);
    FirstRequestorWaits(n, w, x);
    HeadOfList(w.desks[x].requestors);
    assert a == x ==> multiset(w.desks[a].requestors)[b]
                      == multiset(w.desks[x].requestors[1..])[b] + (if b == w.desks[x].requestors[0] then 1 else 0);
  }

  lemma RefuseKeepsDiscipline(n: nat, w: Sys, x: nat, abort: bool)
    requires Discipline(n, w) && CanRefuse(n, w, x)
    ensures Discipline(n, Refuse(n, w, x, abort))
  {
    var w' := Refuse(n, w, x, abort);
    assert DeskOk(n, w, x);
    forall z: nat | z < n ensures DeskOk(n, w', z) {
      assert DeskOk(n, w, z);
    }
    forall a: nat, b: nat | a < n && b < n ensures PairOk(w', a, b) {
      RefuseKeepsPair(n, w, x, abort, a, b);
    }
  }

  lemma ShareKeepsPair(n: nat, w: Sys, x: nat, m: nat, a: nat, b: nat)
    requires Discipline(n, w) && CanShare(n, w, x, m) && a < n && b < n
    ensures PairOk(Share(n, w, x, m), a, b)
  {
    assert PairOk(w, a, b);
    FirstRequestorWaits(n, w, x);
    HeadOfList(w.desks[x].requestors);
    assert a == x ==> multiset(w.desks[a].requestors)[b]
                      == multiset(w.desks[x].requestors[1..])[b] + (if b == w.desks[x].requestors[0] then 1 else 0);
  }

  lemma ShareKeepsDiscipline(n: nat, w: Sys, x: nat, m: nat)
    requires Discipline(n, w) && CanShare(n, w, x, m)
    ensures Discipline(n, Share(n, w, x, m))
  {
    var w' := Share(n, w, x, m);
    assert DeskOk(n, w, x);
    forall z: nat | z < n ensures DeskOk(n, w', z) {
      assert DeskOk(n, w, z);
    }
    forall a: nat, b: nat | a < n && b < n ensures PairOk(w', a, b) {
      ShareKeepsPair(n, w, x, m, a, b);
    }
  }

  lemma HearNoKeepsPair(n: nat, w: Sys, y: nat, a: nat, b: nat)
    requires Discipline(n, w) && CanHearNo(n, w, y) && a < n && b < n
    ensures PairOk(HearNo(n, w, y), a, b)
  {
    assert PairOk(w, a, b) && DeskOk(n, w, y);
  }

  lemma HearNoKeepsDiscipline(n: nat, w: Sys, y: nat)
    requires Discipline(n, w) && CanHearNo(n, w, y)
    ensures Discipline(n, HearNo(n, w, y))
  {
    var w' := HearNo(n, w, y);
    assert DeskOk(n, w, y);
    forall z: nat | z < n ensures DeskOk(n, w', z) {
      assert DeskOk(n, w, z);
    }
    forall a: nat, b: nat | a < n && b < n ensures PairOk(w', a, b) {
      HearNoKeepsPair(n, w, y, a, b);
    }
  }

  lemma ReceiveKeepsPair(n: nat, w: Sys, y: nat, a: nat, b: nat)
    requires Discipline(n, w) && CanReceive(n, w, y) && a < n && b < n
    ensures PairOk(Receive(n, w, y), a, b)
  {
    assert PairOk(w, a, b) && DeskOk(n, w, y);
  }

  lemma ReceiveKeepsDiscipline(n: nat, w: Sys, y: nat)
    requires Discipline(n, w) && CanReceive(n, w, y)
    ensures Discipline(n, Receive(n, w, y))
  {
    var w' := Receive(n, w, y);
    assert DeskOk(n, w, y);
    forall z: nat | z < n ensures DeskOk(n, w', z) {
      assert DeskOk(n, w, z);
    }
    forall a: nat, b: nat | a < n && b < n ensures PairOk(w', a, b) {
      ReceiveKeepsPair(n, w, y, a, b);
    }
  }

  lemma SettleKeepsPair(n: nat, w: Sys, x: nat, y: nat, a: nat, b: nat)
    requires Discipline(n, w) && CanSettle(n, w, x, y) && a < n && b < n
    ensures PairOk(Settle(n, w, x, y), a, b)
  {
    assert PairOk(w, a, b) && DeskOk(n, w, x);
  }

  lemma SettleKeepsDiscipline(n: nat, w: Sys, x: nat, y: nat)
    requires Discipline(n, w) && CanSettle(n, w, x, y)
    ensures Discipline(n, Settle(n, w, x, y))
  {
    var w' := Settle(n, w, x, y);
    assert DeskOk(n, w, x);
    forall z: nat | z < n ensures DeskOk(n, w', z) {
      assert DeskOk(n, w, z);
    }
    forall a: nat, b: nat | a < n && b < n ensures PairOk(w', a, b) {
      SettleKeepsPair(n, w, x, y, a, b);
    }
  }

  lemma ProcessKeepsPair(n: nat, w: Sys, x: nat, ops: seq<Op>, a: nat, b: nat)
    requires Discipline(n, w) && CanProcess(n, w, x) && a < n && b < n
    ensures PairOk(Process(n, w, x, ops), a, b)
  {
    assert PairOk(w, a, b) && DeskOk(n, w, x);
  }

  lemma ProcessKeepsDiscipline(n: nat, w: Sys, x: nat, ops: seq<Op>)
    requires Discipline(n, w) && CanProcess(n, w, x)
    ensures Discipline(n, Process(n, w, x, ops))
  {
    var w' := Process(n, w, x, ops);
    assert DeskOk(n, w, x);
    forall z: nat | z < n ensures DeskOk(n, w', z) {
      assert DeskOk(n, w, z);
    }
    forall a: nat, b: nat | a < n && b < n ensures PairOk(w', a, b) {
      ProcessKeepsPair(n, w, x, ops, a, b);
    }
  }

  // ----- preservation of the ledger of outstanding transfers -----

  /** A step that changes the streams between `x` and `y` only, and by `d` transfers or receipts. */
  lemma LedgerDelta(n: nat, w: Sys, w': Sys, x: nat, y: nat, d: int)
    requires Ledger(n, w) && |w'.desks| == n && x < n && y < n
    requires forall a: nat, b: nat | a < n && b < n && (a != x || b != y) ::
               At(w'.reply, a, b) == At(w.reply, a, b) && At(w'.receipt, b, a) == At(w.receipt, b, a)
    requires Carried(At(w'.reply, x, y)) + |At(w'.receipt, y, x)|
             == Carried(At(w.reply, x, y)) + |At(w.receipt, y, x)| + d
    requires forall a: nat | a < n ::
               w'.desks[a].outstanding == w.desks[a].outstanding + if a == x then d else 0
    ensures Ledger(n, w')
  {
    forall a: nat | a < n ensures TallyOk(n, w', a) {
      assert TallyOk(n, w, a);
      TallyDelta(w.reply, w.receipt, w'.reply, w'.receipt, a, n, y, if a == x then d else 0);
    }
  }

  // ----- every step keeps the whole invariant -----

  lemma AskKeepsInv(n: nat, w: Sys, y: nat, x: nat)
    requires Inv(n, w) && CanAsk(n, w, y, x)
    ensures Inv(n, Ask(n, w, y, x))
  {
    var w' := Ask(n, w, y, x);
    AskKeepsDiscipline(n, w, y, x);
    LedgerDelta(n, w, w', x, y, 0);
    assert PairOk(w, x, y);
    assert HeldBy(w') == HeldBy(w);
  }

  lemma DrainKeepsInv(n: nat, w: Sys, x: nat, y: nat)
    requires Inv(n, w) && CanDrain(n, w, x, y)
    ensures Inv(n, Drain(n, w, x, y))
  {
    var w' := Drain(n, w, x, y);
    DrainKeepsDiscipline(n, w, x, y);
    LedgerDelta(n, w, w', x, y, 0);
    assert HeldBy(w') == HeldBy(w);
  }

  lemma RefuseHeld(n: nat, w: Sys, x: nat, abort: bool, z: nat)
    requires Discipline(n, w) && CanRefuse(n, w, x) && z < n
    ensures Held(Refuse(n, w, x, abort), z) == Held(w, z)
  {
    FirstRequestorWaits(n, w, x);
    assert DeskOk(n, w, z);
  }

  lemma RefuseKeepsInv(n: nat, w: Sys, x: nat, abort: bool)
    requires Inv(n, w) && CanRefuse(n, w, x)
    ensures Inv(n, Refuse(n, w, x, abort))
  {
    var w' := Refuse(n, w, x, abort);
    FirstRequestorWaits(n, w, x);
    RefuseKeepsDiscipline(n, w, x, abort);
    LedgerDelta(n, w, w', x, w.desks[x].requestors[0], 0);
    forall z: nat | z < n ensures Held(w', z) == Held(w, z) {
      RefuseHeld(n, w, x, abort, z);
    }
    assert HeldBy(w') == HeldBy(w);
  }

  lemma ShareKeepsInv(n: nat, w: Sys, x: nat, m: nat)
    requires Inv(n, w) && CanShare(n, w, x, m)
    ensures Inv(n, Share(n, w, x, m))
  {
    var w' := Share(n, w, x, m);
    var y := w.desks[x].requestors[0];
    FirstRequestorWaits(n, w, x);
    ShareKeepsDiscipline(n, w, x, m);
    LedgerDelta(n, w, w', x, y, 1);
    ShareConserves(n, w, x, m);
  }

  lemma ShareTakes(n: nat, w: Sys, x: nat, m: nat)
    requires Discipline(n, w) && CanShare(n, w, x, m)
    ensures Held(w, x) == Held(Share(n, w, x, m), x) + multiset(w.desks[x].queue[|w.desks[x].queue| - m..])
  {
    var d := w.desks[x];
    var keep := |d.queue| - m;
    assert DeskOk(n, w, x);
    assert d.queue == d.queue[..keep] + d.queue[keep..];
  }

  lemma ShareHeld(n: nat, w: Sys, x: nat, m: nat, z: nat)
    requires Discipline(n, w) && CanShare(n, w, x, m) && z < n && z != x
    ensures Held(Share(n, w, x, m), z) == Held(w, z) +
                                          if z == w.desks[x].requestors[0]
                                          then multiset(w.desks[x].queue[|w.desks[x].queue| - m..]) else multiset{}
  {
    var y, w' := w.desks[x].requestors[0], Share(n, w, x, m);
    FirstRequestorWaits(n, w, x);
    if z == y {
      var sent := w.desks[x].queue[|w.desks[x].queue| - m..];
      assert At(w'.reply, x, y) == [Offsets(m), Data(sent)];
      assert InFlight(At(w'.reply, x, y)) == multiset(sent);
    } else {
      assert At(w'.reply, w.desks[z].source, z) == At(w.reply, w.desks[z].source, z);
    }
  }

  lemma ShareConserves(n: nat, w: Sys, x: nat, m: nat)
    requires Discipline(n, w) && CanShare(n, w, x, m)
    ensures Union(HeldBy(Share(n, w, x, m))) == Union(HeldBy(w))
  {
    var w' := Share(n, w, x, m);
    var y := w.desks[x].requestors[0];
    var moved := multiset(w.desks[x].queue[|w.desks[x].queue| - m..]);
    FirstRequestorWaits(n, w, x);
    ShareTakes(n, w, x, m);
    forall z: nat | z < n && z != x
      ensures Held(w', z) == Held(w, z) + if z == y then moved else multiset{}
    {
      ShareHeld(n, w, x, m, z);
    }
    UnionMove(HeldBy(w), HeldBy(w'), x, y, moved);
  }

  lemma HearNoKeepsInv(n: nat, w: Sys, y: nat)
    requires Inv(n, w) && CanHearNo(n, w, y)
    ensures Inv(n, HearNo(n, w, y))
  {
    var w' := HearNo(n, w, y);
    assert DeskOk(n, w, y);
    assert PairOk(w, w.desks[y].source, y);
    HearNoKeepsDiscipline(n, w, y);
    LedgerDelta(n, w, w', w.desks[y].source, y, 0);
    assert HeldBy(w') == HeldBy(w);
  }

  lemma ReceiveHeld(n: nat, w: Sys, y: nat, z: nat)
    requires Discipline(n, w) && CanReceive(n, w, y) && z < n
    ensures Held(Receive(n, w, y), z) == Held(w, z)
  {
    assert DeskOk(n, w, y) && DeskOk(n, w, z);
    assert PairOk(w, w.desks[y].source, y);
  }

  lemma ReceiveKeepsInv(n: nat, w: Sys, y: nat)
    requires Inv(n, w) && CanReceive(n, w, y)
    ensures Inv(n, Receive(n, w, y))
  {
    var w' := Receive(n, w, y);
    assert DeskOk(n, w, y);
    assert PairOk(w, w.desks[y].source, y);
    ReceiveKeepsDiscipline(n, w, y);
    LedgerDelta(n, w, w', w.desks[y].source, y, 0);
    forall z: nat | z < n ensures Held(w', z) == Held(w, z) {
      ReceiveHeld(n, w, y, z);
    }
    assert HeldBy(w') == HeldBy(w);
  }

  lemma SettleKeepsInv(n: nat, w: Sys, x: nat, y: nat)
    requires Inv(n, w) && CanSettle(n, w, x, y)
    ensures Inv(n, Settle(n, w, x, y))
  {
    var w' := Settle(n, w, x, y);
    SettleKeepsDiscipline(n, w, x, y);
    LedgerDelta(n, w, w', x, y, -1);
    assert HeldBy(w') == HeldBy(w);
  }

  lemma ProcessKeepsInv(n: nat, w: Sys, x: nat, ops: seq<Op>)
    requires Inv(n, w) && CanProcess(n, w, x)
    ensures Inv(n, Process(n, w, x, ops))
  {
    var w' := Process(n, w, x, ops);
    assert DeskOk(n, w, x);
    ProcessKeepsDiscipline(n, w, x, ops);
    LedgerDelta(n, w, w', x, x, 0);
    var s, s' := HeldBy(w), HeldBy(w');
    assert s' == s[x := Held(w', x)];
    UnionUpdate(s, x, Held(w', x));
    assert Held(w, x) == multiset(w.desks[x].queue) && Held(w', x) == multiset(Callback(w.desks[x].queue, ops).0);
    ProcessBalance(w.created, w.processed, Union(s), Union(s'),
                   Held(w, x), Held(w', x), Callback(w.desks[x].queue, ops).1, Callback(w.desks[x].queue, ops).2);
  }

  lemma ProcessBalance(c: multiset<Item>, p: multiset<Item>, all: multiset<Item>, all': multiset<Item>,
                       h: multiset<Item>, h': multiset<Item>, more: multiset<Item>, less: multiset<Item>)
    requires c == p + all && all' + h == all + h' && h + more == h' + less
    ensures c + more == (p + less) + all'
  {
    forall it: Item
      ensures (c + more)[it] == ((p + less) + all')[it]
    {
      assert (all' + h)[it] == (all + h')[it];
      assert (h + more)[it] == (h' + less)[it];
    }
  }

  /** The state before the work loop: the create callbacks have filled the queues. */
  ghost predicate Initial(n: nat, w: Sys) {
    && |w.desks| == n
    && (forall x: nat | x < n :: w.desks[x] == Desk(w.desks[x].queue, false, w.desks[x].source, [], 0))
    && w.request == map[] && w.reply == map[] && w.receipt == map[]
    && w.created == Union(HeldBy(w)) && w.processed == multiset{}
  }

  lemma {:induction false} NoMessagesNoTally(reply: Chan<Reply>, receipt: Chan<()>, x: nat, m: nat)
    requires forall z: nat | z < m :: Carried(At(reply, x, z)) == 0 && At(receipt, z, x) == []
    ensures Tally(reply, receipt, x, m) == 0
  {
    if m > 0 {
      NoMessagesNoTally(reply, receipt, x, m - 1);
    }
  }

  lemma InitialInv(n: nat, w: Sys)
    requires Initial(n, w)
    ensures Inv(n, w)
  {
    forall x: nat | x < n ensures TallyOk(n, w, x) {
      NoMessagesNoTally(w.reply, w.receipt, x, n);
    }
  }

  // ----- the list of requestors -----

  function UpTo(n: nat): (s: set<nat>)
    ensures |s| == n && forall i :: i in s <==> 0 <= i < n
  {
    if n == 0 then {} else UpTo(n - 1) + {n - 1}
  }

  /** Distinct ranks below `n`, none of which is `x`, are fewer than `n`. */
  lemma DistinctBelow(s: seq<nat>, n: nat, x: nat)
    requires x < n
    requires forall i | 0 <= i < |s| :: s[i] < n && s[i] != x
    requires forall i, j | 0 <= i < j < |s| :: s[i] != s[j]
    ensures |s| < n
  {
    var members := set i: nat | i < |s| :: s[i];
    MembersCard(s);
    SubsetCard(members, UpTo(n) - {x});
  }

  lemma {:induction false} MembersCard(s: seq<nat>)
    requires forall i, j | 0 <= i < j < |s| :: s[i] != s[j]
    ensures |set i: nat | i < |s| :: s[i]| == |s|
  {
    if s != [] {
      var t := s[..|s| - 1];
      MembersCard(t);
      assert (set i: nat | i < |s| :: s[i]) == (set i: nat | i < |t| :: t[i]) + {s[|s| - 1]};
    }
  }

  lemma RequestorsAreDistinct(n: nat, w: Sys, x: nat)
    requires Discipline(n, w) && x < n
    ensures var rs := w.desks[x].requestors;
            && (forall i | 0 <= i < |rs| :: rs[i] < n && rs[i] != x)
            && (forall i, j | 0 <= i < j < |rs| :: rs[i] != rs[j])
  {
    var rs := w.desks[x].requestors;
    assert DeskOk(n, w, x);
    forall i | 0 <= i < |rs| ensures rs[i] < n && rs[i] != x && multiset(rs)[rs[i]] == 1 {
      assert PairOk(w, x, rs[i]) && DeskOk(n, w, rs[i]);
      assert multiset(rs)[rs[i]] >= 1;
    }
    forall i, j | 0 <= i < j < |rs| ensures rs[i] != rs[j] {
      if rs[i] == rs[j] {
        TwiceInSeq(rs, i, j);
      }
    }
  }

  lemma TwiceInSeq(s: seq<nat>, i: nat, j: nat)
    requires i < j < |s| && s[i] == s[j]
    ensures multiset(s)[s[i]] >= 2
  {
    assert s == s[..j] + [s[j]] + s[j + 1..];
    assert s[..j][i] == s[i];
  }
}
