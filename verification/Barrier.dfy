/** The cleanup barrier (tag BARRIER): the handshake over the tree, with empty messages. */
module Barrier {
  import opened Channels
  import opened Tree
  import H = Handshake

  /** The handshake plus `barrier_started` of every rank. */
  datatype BarrierSys = BarrierSys(nodes: seq<H.Node>, started: seq<bool>, chan: Chan<()>)

  datatype BarrierStep =
    // CIRCLE_barrier_start
    | BarrierStart
    // CIRCLE_barrier_test
    | BarrierCount(from: nat)
    | BarrierRaise
    | BarrierRoot
    | BarrierFall

  ghost predicate BarrierShape(cfg: Config, b: BarrierSys) {
    H.Shape(cfg, b.nodes) && |b.started| == cfg.n
  }

  /** What the step needs of the barrier itself. */
  ghost predicate CanBarrier(cfg: Config, b: BarrierSys, x: nat, step: BarrierStep)
    requires BarrierShape(cfg, b)
  {
    && x < cfg.n
    && (!step.BarrierStart? ==> b.started[x])
    && match step
       case BarrierStart => true
       case BarrierCount(from) => H.CanCount(cfg, b.nodes, b.chan, x, from)
       case BarrierRaise => x >= 1 && H.Ready(cfg, b.nodes, x)
       case BarrierRoot => x == 0 && H.Ready(cfg, b.nodes, x)
       case BarrierFall => H.CanFall(cfg, b.nodes, b.chan, x)
  }

  ghost function BarrierNext(cfg: Config, b: BarrierSys, x: nat, step: BarrierStep): (b': BarrierSys)
    requires BarrierShape(cfg, b) && CanBarrier(cfg, b, x, step)
    ensures BarrierShape(cfg, b')
  {
    match step
    case BarrierStart => b.(started := b.started[x := true])
    case BarrierCount(from) => b.(nodes := b.nodes[x := H.Count(b.nodes[x])], chan := Take(b.chan, from, x))
    case BarrierRaise => b.(nodes := b.nodes[x := H.Raise(b.nodes[x])], chan := Post(b.chan, x, Parent(cfg, x), ()))
    case BarrierRoot =>
      BarrierSys(b.nodes[0 := H.Complete(b.nodes[0])], b.started[0 := false], Cast(b.chan, 0, Kids(cfg, 0), ()))
    case BarrierFall =>
      BarrierSys(b.nodes[x := H.Complete(b.nodes[x])], b.started[x := false],
                 Cast(Take(b.chan, Parent(cfg, x), x), x, Kids(cfg, x), ()))
  }
}
