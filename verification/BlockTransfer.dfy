/** The bytes of a work transfer refine its items: what CIRCLE_send_work_to_many and
    CIRCLE_work_receive do to a string pool are the steps that `WorkTransfer` takes on the queue. */
module BlockTransfer {
  import opened Channels
  import opened CStrings
  import opened StringPool
  import Splitting
  import W = WorkTransfer
  import WR = WorkRank

  /** The queue of rank `x` is what the pool holds. */
  ghost predicate Matches(pool: Pool, n: nat, w: W.Sys, x: nat)
    reads pool, pool.base, pool.strings
  {
    pool.Valid() && |w.desks| == n && x < n && w.desks[x].queue == pool.Items()
  }

  /** The messages that a reply is sent as. */
  ghost function RepliesOf(wire: Wire): seq<W.Reply>
    requires Splitting.WireOk(wire)
  {
    match wire
    case Code(code) => [W.NoWork(code == PAYLOAD_ABORT)]
    case Transfer(offsets, data) => [W.Offsets(offsets[0]), W.Data(Decode(offsets, data))]
  }

  /** The step that sends a reply: the number of items is the one that the back-off has arrived at. */
  ghost function StepOf(wire: Wire): W.WorkStep
    requires Splitting.WireOk(wire)
  {
    if wire.Code? then W.DoRefuse else W.DoShare(wire.offsets[0])
  }

  /** Taking the last items off a sequence. */
  lemma TopOff<T>(before: seq<T>, kept: seq<T>, top: seq<T>)
    requires before == kept + top
    ensures before[..|before| - |top|] == kept && before[|before| - |top|..] == top
  {
  }

  /** `kept` is what the reply leaves of the queue, and it fits the number of items that it names. */
  ghost predicate Leaves(queue: seq<Item>, wire: Wire, kept: seq<Item>) {
    && Splitting.WireOk(wire) && queue == kept + Splitting.ItemsOf(wire)
    && (wire.Code? ==> wire.code == 0)
    && (wire.Transfer? ==> kept != [] && 1 <= |Splitting.ItemsOf(wire)| == wire.offsets[0])
  }

  /** What a reply to the first requestor does. */
  ghost predicate Replies(w: W.Sys, x: nat, wire: Wire, kept: seq<Item>, w': W.Sys)
    requires x < |w.desks| && w.desks[x].requestors != [] && Splitting.WireOk(wire)
  {
    var dest := w.desks[x].requestors[0];
    && |w'.desks| == |w.desks| && w'.desks[x].queue == kept && w'.desks[x].requestors == w.desks[x].requestors[1..]
    && At(w'.reply, x, dest) == At(w.reply, x, dest) + RepliesOf(wire)
  }

  lemma CodeIsRefusal(n: nat, w: W.Sys, x: nat, wire: Wire, kept: seq<Item>)
    requires |w.desks| == n && x < n && w.desks[x].requestors != []
    requires Leaves(w.desks[x].queue, wire, kept) && wire.Code?
    ensures W.CanRefuse(n, w, x) && Replies(w, x, wire, kept, W.Refuse(n, w, x, false))
  {
    assert PAYLOAD_ABORT != 0;
    TopOff(w.desks[x].queue, kept, []);
  }

  lemma TransferIsShare(n: nat, w: W.Sys, x: nat, wire: Wire, kept: seq<Item>)
    requires |w.desks| == n && x < n && w.desks[x].requestors != []
    requires Leaves(w.desks[x].queue, wire, kept) && wire.Transfer?
    ensures W.CanShare(n, w, x, wire.offsets[0])
    ensures Replies(w, x, wire, kept, W.Share(n, w, x, wire.offsets[0]))
  {
    TopOff(w.desks[x].queue, kept, Splitting.ItemsOf(wire));
    SharePosts(n, w, x, wire.offsets[0]);
  }

  lemma SharePosts(n: nat, w: W.Sys, x: nat, m: nat)
    requires |w.desks| == n && W.CanShare(n, w, x, m)
    ensures var w' := W.Share(n, w, x, m); var q := w.desks[x].queue; var dest := w.desks[x].requestors[0];
            At(w'.reply, x, dest) == At(w.reply, x, dest) + [W.Offsets(m), W.Data(q[|q| - m..])]
  {
  }

  /** A reply to the first requestor is a step. */
  lemma SendIsStep(n: nat, x: nat, w0: W.Sys, steps0: seq<W.WorkStep>, w: W.Sys, wire: Wire, kept: seq<Item>)
    returns (steps: seq<W.WorkStep>, w': W.Sys)
    requires |w.desks| == n && x < n && w.desks[x].requestors != [] && Leaves(w.desks[x].queue, wire, kept)
    requires WR.WorkPath(n, w0, x, false, false, steps0, w) && WR.Serves(steps0)
    ensures WR.WorkPath(n, w0, x, false, false, steps, w') && WR.Serves(steps)
    ensures steps == steps0 + [StepOf(wire)] && Replies(w, x, wire, kept, w')
  {
    if wire.Code? {
      CodeIsRefusal(n, w, x, wire, kept);
    } else {
      TransferIsShare(n, w, x, wire, kept);
    }
    WR.PathGrows(n, w0, x, false, false, steps0, w, StepOf(wire));
    steps, w' := steps0 + [StepOf(wire)], W.WorkNext(n, w, x, StepOf(wire), false);
  }

  /** Each step is the one that sends the reply. */
  ghost predicate Recorded(wires: seq<Wire>, steps: seq<W.WorkStep>) {
    && |wires| == |steps|
    && forall i {:trigger wires[i]} | 0 <= i < |wires| :: Splitting.WireOk(wires[i]) && steps[i] == StepOf(wires[i])
  }

  lemma RecordNext(wires: seq<Wire>, steps: seq<W.WorkStep>, wire: Wire)
    requires Recorded(wires, steps) && Splitting.WireOk(wire)
    ensures Recorded(wires + [wire], steps + [StepOf(wire)])
  {
  }

  /** The replies are as CIRCLE_send_work makes them without an abort. */
  ghost predicate Proper(wires: seq<Wire>) {
    && Splitting.AllOk(wires)
    && forall i {:trigger wires[i]} | 0 <= i < |wires| ::
         && (wires[i].Code? ==> wires[i].code == 0)
         && (wires[i].Transfer? ==> 1 <= |Splitting.ItemsOf(wires[i])| == wires[i].offsets[0])
  }

  lemma ServedIsProper(b: seq<char>, offs: seq<nat>, wires: seq<Wire>, sizes: seq<nat>)
    requires Splitting.Served(b, offs, wires, sizes, false) && Splitting.AllOk(wires)
    ensures Proper(wires)
  {
    forall i | 0 <= i < |wires|
      ensures wires[i].Code? ==> wires[i].code == 0
      ensures wires[i].Transfer? ==> 1 <= |Splitting.ItemsOf(wires[i])| == wires[i].offsets[0]
    {
      assert Splitting.ServedAfter(b, offs, wires[..i], sizes[i + 1], false, wires[i]);
    }
  }

  /** `steps`, one for each reply, answer the first requestors of rank `x` and leave `kept` in its queue. */
  ghost predicate Answered(n: nat, x: nat, w0: W.Sys, wires: seq<Wire>, kept: seq<Item>, steps: seq<W.WorkStep>,
                           w: W.Sys) {
    && |w0.desks| == |w.desks| == n && x < n && |wires| <= |w0.desks[x].requestors|
    && WR.WorkPath(n, w0, x, false, false, steps, w) && WR.Serves(steps) && Recorded(wires, steps)
    && w.desks[x].queue == kept && w.desks[x].requestors == w0.desks[x].requestors[|wires|..]
  }

  lemma AnswerNext(n: nat, x: nat, w0: W.Sys, wires: seq<Wire>, wire: Wire, kept: seq<Item>, q: seq<Item>,
                   steps: seq<W.WorkStep>, w: W.Sys)
    returns (steps': seq<W.WorkStep>, w': W.Sys)
    requires Answered(n, x, w0, wires, q, steps, w) && |wires| < |w0.desks[x].requestors|
    requires Leaves(q, wire, kept)
    ensures Answered(n, x, w0, wires + [wire], kept, steps', w')
  {
    steps', w' := SendIsStep(n, x, w0, steps, w, wire, kept);
    RecordNext(wires, steps, wire);
  }

  /** Replies that carry the top of the queue, one to each of the first requestors, are steps. */
  lemma {:induction false} RepliesAreSteps(n: nat, x: nat, w0: W.Sys, wires: seq<Wire>, kept: seq<Item>)
    returns (steps: seq<W.WorkStep>, w: W.Sys)
    requires |w0.desks| == n && x < n && |wires| <= |w0.desks[x].requestors| && Proper(wires) && kept != []
    requires w0.desks[x].queue == kept + Splitting.Carried(wires)
    ensures Answered(n, x, w0, wires, kept, steps, w)
    decreases |wires|
  {
    if wires == [] {
      steps, w := [], w0;
      assert kept + [] == kept;
    } else {
      var earlier, last := wires[..|wires| - 1], wires[|wires| - 1];
      var q := kept + Splitting.ItemsOf(last);
      Splitting.Associates(kept, Splitting.ItemsOf(last), Splitting.Carried(earlier));
      steps, w := RepliesAreSteps(n, x, w0, earlier, q);
      assert wires == earlier + [last];
      steps, w := AnswerNext(n, x, w0, earlier, last, kept, q, steps, w);
    }
  }

  /** CIRCLE_send_work_to_many on the pool: one step for each requestor.  Each gets all items that the split
      means for it, or if they are too long, as many as the back-off arrives at. */
  method SendToMany(pool: Pool, rcount: nat, equal: bool, random: nat, ghost n: nat, ghost x: nat, ghost w0: W.Sys)
    returns (wires: seq<Wire>, ghost sizes: seq<nat>, ghost steps: seq<W.WorkStep>, ghost w: W.Sys)
    requires Matches(pool, n, w0, x) && pool.count >= 1 && pool.strings.Length <= INT32_MAX
    requires |w0.desks[x].requestors| == rcount >= 1
    modifies pool`count
    ensures Matches(pool, n, w, x) && pool.count >= 1
    ensures |wires| == rcount && Answered(n, x, w0, wires, pool.Items(), steps, w) && w.desks[x].requestors == []
    ensures Splitting.Divides(sizes, old(pool.count), rcount, equal)
    ensures Splitting.Served(pool.base[..], old(pool.strings[..pool.count]), wires, sizes, false)
  {
    wires, sizes := Splitting.SendWorkToMany(pool, rcount, equal, random, false);
    ServedIsProper(pool.base[..], old(pool.strings[..pool.count]), wires, sizes);
    steps, w := RepliesAreSteps(n, x, w0, wires, pool.Items());
  }

  /** CIRCLE_work_receive of a transfer: the pool, which is empty, becomes the queue after the receive. */
  method ReceiveItems(pool: Pool, wire: Wire, ghost n: nat, ghost y: nat, ghost w: W.Sys)
    requires Matches(pool, n, w, y) && pool.count == 0 && w.desks[y].requested
    requires wire.Transfer? && Splitting.WireOk(wire)
    requires At(w.reply, w.desks[y].source, y) == RepliesOf(wire)
    modifies pool`base, pool`head, pool`strings, pool`count, pool.base, pool.strings
    ensures W.CanReceive(n, w, y) && Matches(pool, n, W.Receive(n, w, y), y)
  {
    pool.ReceiveBlock(wire.offsets, wire.data);
  }
}
