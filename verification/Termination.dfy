/** The termination allreduce (tag TERM): the handshake over the tree, with the AND of the
    `term_flag` of all ranks. */
module Termination {
  import opened Channels
  import opened Tree
  import H = Handshake

  /** The handshake plus `term_flag` of every rank. */
  datatype TermSys = TermSys(nodes: seq<H.Node>, flags: seq<bool>, chan: Chan<bool>)

  datatype TermStep =
    // CIRCLE_check_for_term_allreduce
    | TermCount(from: nat)
    | TermRaise
    | TermRoot
    | TermFall

  ghost predicate TermShape(cfg: Config, t: TermSys) {
    H.Shape(cfg, t.nodes) && |t.flags| == cfg.n
  }

  /** What the step needs of the allreduce itself. */
  ghost predicate CanTerm(cfg: Config, t: TermSys, x: nat, step: TermStep)
    requires TermShape(cfg, t)
  {
    && x < cfg.n
    && match step
       case TermCount(from) => H.CanCount(cfg, t.nodes, t.chan, x, from)
       case TermRaise => x >= 1 && H.Ready(cfg, t.nodes, x)
       case TermRoot => x == 0 && H.Ready(cfg, t.nodes, x)
       case TermFall => H.CanFall(cfg, t.nodes, t.chan, x)
  }

  ghost function TermNext(cfg: Config, t: TermSys, x: nat, step: TermStep): (t': TermSys)
    requires TermShape(cfg, t) && CanTerm(cfg, t, x, step)
    ensures TermShape(cfg, t')
  {
    match step
    case TermCount(from) =>
      TermSys(t.nodes[x := H.Count(t.nodes[x])],
              t.flags[x := t.flags[x] && At(t.chan, from, x)[0]],
              Take(t.chan, from, x))
    case TermRaise =>
      TermSys(t.nodes[x := H.Raise(t.nodes[x])],
              t.flags[x := true],
              Post(t.chan, x, Parent(cfg, x), t.flags[x]))
    case TermRoot =>
      TermSys(t.nodes[0 := H.Complete(t.nodes[0])],
              t.flags[0 := true],
              Cast(t.chan, 0, Kids(cfg, 0), t.flags[0]))
    case TermFall =>
      var p := Parent(cfg, x);
      TermSys(t.nodes[x := H.Complete(t.nodes[x])],
              t.flags,
              Cast(Take(t.chan, p, x), x, Kids(cfg, x), At(t.chan, p, x)[0]))
  }

  /** The step completes a round at `x`, with result 1. */
  ghost predicate Verdict(cfg: Config, t: TermSys, x: nat, step: TermStep)
    requires TermShape(cfg, t) && CanTerm(cfg, t, x, step)
  {
    || (step.TermRoot? && t.flags[0])
    || (step.TermFall? && At(t.chan, Parent(cfg, x), x)[0])
  }
}
