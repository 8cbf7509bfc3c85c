/** The gather-then-scatter handshake over the tree.

    The termination allreduce (tag TERM) and the cleanup barrier (tag BARRIER) run the
    same handshake: a rank counts one message from each child, sends one message to its
    parent, waits for the parent's answer, forwards it to its children, and starts again.
    Children are received with MPI_ANY_SOURCE, so that nothing but this invariant keeps a
    rank from counting its parent's answer, or a message of another round, as a child's.

    `round` counts the rounds a rank has completed.  It is a history variable: no step
    consults it.
 */
module Handshake {
  import opened Channels
  import opened Tree

  datatype Node = Node(up: bool, replies: nat, round: nat)

  const START := Node(false, 0, 0)

  /** Where child `c` and its parent stand in the current round. */
  datatype EdgePhase =
    | Waiting  // the child has not sent to its parent
    | Rising   // the child's message is in flight
    | Counted  // the parent has received the child's message
    | Falling  // the parent's answer is in flight

  ghost predicate Shape(cfg: Config, nodes: seq<Node>) {
    cfg.Valid() && |nodes| == cfg.n
  }

  ghost function Phase<M>(cfg: Config, nodes: seq<Node>, ch: Chan<M>, c: nat): EdgePhase
    requires Shape(cfg, nodes) && 1 <= c < cfg.n
  {
    var p := Parent(cfg, c);
    if !nodes[c].up then Waiting
    else if nodes[p].round == nodes[c].round + 1 then Falling
    else if At(ch, c, p) != [] then Rising
    else Counted
  }

  /** Exactly the messages the phase calls for are in flight on the edge above `c`. */
  ghost predicate EdgeOk<M>(cfg: Config, nodes: seq<Node>, ch: Chan<M>, c: nat)
    requires Shape(cfg, nodes) && 1 <= c < cfg.n
  {
    var p := Parent(cfg, c);
    var ph := Phase(cfg, nodes, ch, c);
    && |At(ch, c, p)| == (if ph == Rising then 1 else 0)
    && |At(ch, p, c)| == (if ph == Falling then 1 else 0)
    && nodes[p].round == nodes[c].round + (if ph == Falling then 1 else 0)
  }

  /** The children whose message rank `p` has received in this round. */
  ghost function CountedKids<M>(cfg: Config, nodes: seq<Node>, ch: Chan<M>, p: nat): set<nat>
    requires Shape(cfg, nodes)
  {
    set c | c in Kids(cfg, p) && Phase(cfg, nodes, ch, c) == Counted
  }

  ghost predicate IsEdge(cfg: Config, a: nat, b: nat)
    requires cfg.Valid()
  {
    a in Kids(cfg, b) || b in Kids(cfg, a)
  }

  ghost predicate NodeOk<M>(cfg: Config, nodes: seq<Node>, ch: Chan<M>, p: nat)
    requires Shape(cfg, nodes) && p < cfg.n
  {
    && nodes[p].replies == |CountedKids(cfg, nodes, ch, p)|
    && (nodes[p].up ==> nodes[p].replies == |Kids(cfg, p)|)
  }

  ghost predicate Inv<M>(cfg: Config, nodes: seq<Node>, ch: Chan<M>) {
    && Shape(cfg, nodes)
    && !nodes[0].up
    && (forall c: nat | 1 <= c < cfg.n :: EdgeOk(cfg, nodes, ch, c))
    && (forall p: nat | p < cfg.n :: NodeOk(cfg, nodes, ch, p))
    && (forall a: nat, b: nat | a < cfg.n && b < cfg.n && !IsEdge(cfg, a, b) :: At(ch, a, b) == [])
  }

  // ----- the four atomic steps -----

  /** Receive one message with MPI_ANY_SOURCE while children are missing. */
  ghost predicate CanCount<M>(cfg: Config, nodes: seq<Node>, ch: Chan<M>, p: nat, src: nat)
    requires Shape(cfg, nodes)
  {
    p < cfg.n && src < cfg.n && nodes[p].replies < |Kids(cfg, p)| && At(ch, src, p) != []
  }

  /** All children are counted and nothing has been sent to the parent yet. */
  ghost predicate Ready(cfg: Config, nodes: seq<Node>, p: nat)
    requires Shape(cfg, nodes)
  {
    p < cfg.n && !nodes[p].up && nodes[p].replies == |Kids(cfg, p)|
  }

  /** The parent's answer has arrived. */
  ghost predicate CanFall<M>(cfg: Config, nodes: seq<Node>, ch: Chan<M>, p: nat)
    requires Shape(cfg, nodes)
  {
    1 <= p < cfg.n && nodes[p].up && At(ch, Parent(cfg, p), p) != []
  }

  function Count(nd: Node): Node {
    nd.(replies := nd.replies + 1)
  }

  function Raise(nd: Node): Node {
    nd.(up := true)
  }

  function Complete(nd: Node): Node {
    Node(false, 0, nd.round + 1)
  }

  /** The node has gone on: to a later round, to having sent up, or to more replies. */
  predicate GoesOn(k: Node, k': Node) {
    || k'.round > k.round
    || (k'.round == k.round && k'.up && !k.up)
    || (k'.round == k.round && k'.up == k.up && k'.replies > k.replies)
  }

  // ----- consequences of the invariant -----

  /** A receive from any source finds a child that has not been counted, in the round the
      receiver is in: never the parent, and never a message of another round. */
  lemma CountsChild<M>(cfg: Config, nodes: seq<Node>, ch: Chan<M>, p: nat, src: nat)
    requires Inv(cfg, nodes, ch) && CanCount(cfg, nodes, ch, p, src)
    ensures src in Kids(cfg, p)
    ensures Phase(cfg, nodes, ch, src) == Rising && |At(ch, src, p)| == 1
    ensures !nodes[p].up && nodes[src].round == nodes[p].round
  {
    assert NodeOk(cfg, nodes, ch, p);
    assert IsEdge(cfg, src, p);
    assert p != 0 ==> EdgeOk(cfg, nodes, ch, p);
    assert EdgeOk(cfg, nodes, ch, src);
  }

  /** At a rank that has sent to its parent, every child is counted. */
  lemma UpMeansCounted<M>(cfg: Config, nodes: seq<Node>, ch: Chan<M>, p: nat, c: nat)
    requires Inv(cfg, nodes, ch) && p < cfg.n && c in Kids(cfg, p)
    requires nodes[p].replies == |Kids(cfg, p)|
    ensures Phase(cfg, nodes, ch, c) == Counted
  {
    assert NodeOk(cfg, nodes, ch, p);
    SubsetOfSameSize(CountedKids(cfg, nodes, ch, p), Kids(cfg, p));
    assert c in CountedKids(cfg, nodes, ch, p);
  }

  /** When the root is ready, every other rank has sent to its parent and been counted. */
  lemma {:induction false} RootReadyMeansAllCounted<M>(cfg: Config, nodes: seq<Node>, ch: Chan<M>, c: nat)
    requires Inv(cfg, nodes, ch) && Ready(cfg, nodes, 0) && 1 <= c < cfg.n
    ensures nodes[c].up && Phase(cfg, nodes, ch, c) == Counted
    ensures nodes[c].round == nodes[0].round
  {
    var p := Parent(cfg, c);
    if p != 0 {
      RootReadyMeansAllCounted(cfg, nodes, ch, p);
      assert NodeOk(cfg, nodes, ch, p);
    }
    UpMeansCounted(cfg, nodes, ch, p, c);
    assert EdgeOk(cfg, nodes, ch, c);
  }

  /** A rank that has not sent to its parent is in the round the root is in. */
  lemma {:induction false} NotUpIsCurrent<M>(cfg: Config, nodes: seq<Node>, ch: Chan<M>, c: nat)
    requires Inv(cfg, nodes, ch) && c < cfg.n && !nodes[c].up
    ensures nodes[c].round == nodes[0].round
  {
    if c != 0 {
      var p := Parent(cfg, c);
      if nodes[p].up {
        assert NodeOk(cfg, nodes, ch, p);
        UpMeansCounted(cfg, nodes, ch, p, c);
      }
      NotUpIsCurrent(cfg, nodes, ch, p);
      assert EdgeOk(cfg, nodes, ch, c);
    }
  }

  /** No rank is ahead of the root, and none is more than one round behind it. */
  lemma {:induction false} RoundsNearRoot<M>(cfg: Config, nodes: seq<Node>, ch: Chan<M>, c: nat)
    requires Inv(cfg, nodes, ch) && c < cfg.n
    ensures nodes[c].round <= nodes[0].round <= nodes[c].round + 1
  {
    if c != 0 {
      var p := Parent(cfg, c);
      RoundsNearRoot(cfg, nodes, ch, p);
      assert EdgeOk(cfg, nodes, ch, c);
      if Phase(cfg, nodes, ch, c) == Falling {
        if nodes[p].up {
          assert NodeOk(cfg, nodes, ch, p);
          UpMeansCounted(cfg, nodes, ch, p, c);
        }
        NotUpIsCurrent(cfg, nodes, ch, p);
      }
    }
  }

  // ----- preservation -----

  lemma CountKeepsInv<M>(cfg: Config, nodes: seq<Node>, ch: Chan<M>, p: nat, src: nat)
    requires Inv(cfg, nodes, ch) && CanCount(cfg, nodes, ch, p, src)
    ensures Inv(cfg, nodes[p := Count(nodes[p])], Take(ch, src, p))
  {
    CountsChild(cfg, nodes, ch, p, src);
    var nodes', ch' := nodes[p := Count(nodes[p])], Take(ch, src, p);
    forall c: nat | 1 <= c < cfg.n
      ensures EdgeOk(cfg, nodes', ch', c)
      ensures Phase(cfg, nodes', ch', c) == if c == src then Counted else Phase(cfg, nodes, ch, c)
    {
      assert EdgeOk(cfg, nodes, ch, c);
    }
    forall q: nat | q < cfg.n
      ensures NodeOk(cfg, nodes', ch', q)
    {
      assert NodeOk(cfg, nodes, ch, q);
      var before, after := CountedKids(cfg, nodes, ch, q), CountedKids(cfg, nodes', ch', q);
      if q == p {
        assert after == before + {src};
      } else {
        assert after == before;
      }
    }
  }

  lemma RaiseKeepsInv<M>(cfg: Config, nodes: seq<Node>, ch: Chan<M>, p: nat, m: M)
    requires Inv(cfg, nodes, ch) && p != 0 && Ready(cfg, nodes, p)
    ensures Inv(cfg, nodes[p := Raise(nodes[p])], Post(ch, p, Parent(cfg, p), m))
  {
    var nodes', ch' := nodes[p := Raise(nodes[p])], Post(ch, p, Parent(cfg, p), m);
    forall c: nat | 1 <= c < cfg.n
      ensures EdgeOk(cfg, nodes', ch', c)
      ensures Phase(cfg, nodes', ch', c) == if c == p then Rising else Phase(cfg, nodes, ch, c)
    {
      assert EdgeOk(cfg, nodes, ch, c);
    }
    forall q: nat | q < cfg.n
      ensures NodeOk(cfg, nodes', ch', q)
    {
      assert NodeOk(cfg, nodes, ch, q);
      assert CountedKids(cfg, nodes', ch', q) == CountedKids(cfg, nodes, ch, q);
    }
  }

  /** What `p` must have received before it may answer its children. */
  ghost predicate MayScatter<M>(cfg: Config, nodes: seq<Node>, ch: Chan<M>, p: nat, ch1: Chan<M>)
    requires Shape(cfg, nodes)
  {
    && p < cfg.n && nodes[p].replies == |Kids(cfg, p)|
    && if p == 0 then ch1 == ch
       else CanFall(cfg, nodes, ch, p) && ch1 == Take(ch, Parent(cfg, p), p)
  }

  lemma ScatterEdge<M>(cfg: Config, nodes: seq<Node>, ch: Chan<M>, p: nat, ch1: Chan<M>, m: M, c: nat)
    requires Inv(cfg, nodes, ch) && MayScatter(cfg, nodes, ch, p, ch1) && 1 <= c < cfg.n
    ensures var nodes', ch' := nodes[p := Complete(nodes[p])], Cast(ch1, p, Kids(cfg, p), m);
            && EdgeOk(cfg, nodes', ch', c)
            && Phase(cfg, nodes', ch', c) ==
               if c in Kids(cfg, p) then Falling else if c == p then Waiting else Phase(cfg, nodes, ch, c)
  {
    assert EdgeOk(cfg, nodes, ch, c);
    if c in Kids(cfg, p) {
      UpMeansCounted(cfg, nodes, ch, p, c);
    }
  }

  lemma ScatterNode<M>(cfg: Config, nodes: seq<Node>, ch: Chan<M>, p: nat, ch1: Chan<M>, m: M, q: nat)
    requires Inv(cfg, nodes, ch) && MayScatter(cfg, nodes, ch, p, ch1) && q < cfg.n
    ensures NodeOk(cfg, nodes[p := Complete(nodes[p])], Cast(ch1, p, Kids(cfg, p), m), q)
  {
    var nodes', ch' := nodes[p := Complete(nodes[p])], Cast(ch1, p, Kids(cfg, p), m);
    assert NodeOk(cfg, nodes, ch, q);
    forall c | c in Kids(cfg, q)
      ensures Phase(cfg, nodes', ch', c) ==
              if q == p then Falling else if c == p then Waiting else Phase(cfg, nodes, ch, c)
      ensures c == p ==> Phase(cfg, nodes, ch, c) == Falling
    {
      ScatterEdge(cfg, nodes, ch, p, ch1, m, c);
      assert EdgeOk(cfg, nodes, ch, c);
    }
    assert CountedKids(cfg, nodes', ch', q) == if q == p then {} else CountedKids(cfg, nodes, ch, q);
  }

  /** The answer goes out to the children of `p`, all of which are counted. */
  lemma ScatterKeepsInv<M>(cfg: Config, nodes: seq<Node>, ch: Chan<M>, p: nat, ch1: Chan<M>, m: M)
    requires Inv(cfg, nodes, ch) && MayScatter(cfg, nodes, ch, p, ch1)
    ensures Inv(cfg, nodes[p := Complete(nodes[p])], Cast(ch1, p, Kids(cfg, p), m))
  {
    var nodes', ch' := nodes[p := Complete(nodes[p])], Cast(ch1, p, Kids(cfg, p), m);
    forall c: nat | 1 <= c < cfg.n
      ensures EdgeOk(cfg, nodes', ch', c)
    {
      ScatterEdge(cfg, nodes, ch, p, ch1, m, c);
    }
    forall q: nat | q < cfg.n
      ensures NodeOk(cfg, nodes', ch', q)
    {
      ScatterNode(cfg, nodes, ch, p, ch1, m, q);
    }
    forall a: nat, b: nat | a < cfg.n && b < cfg.n && !IsEdge(cfg, a, b)
      ensures At(ch', a, b) == []
    {
      assert At(ch, a, b) == [] && At(ch1, a, b) == [];
    }
  }

  lemma InitialInv<M>(cfg: Config, nodes: seq<Node>, ch: Chan<M>)
    requires Shape(cfg, nodes) && ch == map[]
    requires forall p: nat | p < cfg.n :: nodes[p] == START
    ensures Inv(cfg, nodes, ch)
  {
    forall p: nat | p < cfg.n
      ensures NodeOk(cfg, nodes, ch, p)
    {
      assert CountedKids(cfg, nodes, ch, p) == {};
    }
  }

  // ----- progress -----

  ghost function PhaseIndex(ph: EdgePhase): nat {
    match ph
    case Waiting => 0
    case Rising => 1
    case Counted => 2
    case Falling => 3
  }

  /** How far rank `x` has got: four stages a round. */
  ghost function Position<M>(cfg: Config, nodes: seq<Node>, ch: Chan<M>, x: nat): nat
    requires Shape(cfg, nodes) && x < cfg.n
  {
    4 * nodes[x].round + if x == 0 then 0 else PhaseIndex(Phase(cfg, nodes, ch, x))
  }

  /** Rank `z` has advanced by at least `d` stages. */
  ghost predicate Advances<M>(cfg: Config, nodes: seq<Node>, ch: Chan<M>,
                              nodes': seq<Node>, ch': Chan<M>, z: nat, d: nat)
    requires Shape(cfg, nodes) && Shape(cfg, nodes') && z < cfg.n
  {
    Position(cfg, nodes, ch, z) + d <= Position(cfg, nodes', ch', z)
  }

  lemma CountAdvances<M>(cfg: Config, nodes: seq<Node>, ch: Chan<M>, p: nat, src: nat, z: nat)
    requires Inv(cfg, nodes, ch) && CanCount(cfg, nodes, ch, p, src) && z < cfg.n
    ensures Advances(cfg, nodes, ch, nodes[p := Count(nodes[p])], Take(ch, src, p), z, if z == src then 1 else 0)
  {
    CountsChild(cfg, nodes, ch, p, src);
    assert z >= 1 ==> EdgeOk(cfg, nodes, ch, z);
  }

  lemma RaiseAdvances<M>(cfg: Config, nodes: seq<Node>, ch: Chan<M>, p: nat, m: M, z: nat)
    requires Inv(cfg, nodes, ch) && p >= 1 && Ready(cfg, nodes, p) && z < cfg.n
    ensures Advances(cfg, nodes, ch, nodes[p := Raise(nodes[p])], Post(ch, p, Parent(cfg, p), m), z,
                     if z == p then 1 else 0)
  {
    assert z >= 1 ==> EdgeOk(cfg, nodes, ch, z);
  }

  lemma ScatterAdvances<M>(cfg: Config, nodes: seq<Node>, ch: Chan<M>, p: nat, ch1: Chan<M>, m: M, z: nat)
    requires Inv(cfg, nodes, ch) && MayScatter(cfg, nodes, ch, p, ch1) && z < cfg.n
    ensures Advances(cfg, nodes, ch, nodes[p := Complete(nodes[p])], Cast(ch1, p, Kids(cfg, p), m), z,
                     if z == p then 1 else 0)
  {
    if z >= 1 {
      assert EdgeOk(cfg, nodes, ch, z);
      ScatterEdge(cfg, nodes, ch, p, ch1, m, z);
      if z in Kids(cfg, p) {
        UpMeansCounted(cfg, nodes, ch, p, z);
      }
    }
  }

  /** A message on its way up can be received. */
  lemma RisingCanBeCounted<M>(cfg: Config, nodes: seq<Node>, ch: Chan<M>, c: nat)
    requires Inv(cfg, nodes, ch) && 1 <= c < cfg.n && Phase(cfg, nodes, ch, c) == Rising
    ensures CanCount(cfg, nodes, ch, Parent(cfg, c), c)
  {
    var p := Parent(cfg, c);
    assert NodeOk(cfg, nodes, ch, p);
    var counted := CountedKids(cfg, nodes, ch, p);
    if |counted| >= |Kids(cfg, p)| {
      CountedFewer(counted, Kids(cfg, p), c);
    } else {
      assert nodes[p].replies < |Kids(cfg, p)|;
    }
  }

  lemma CountedFewer(a: set<nat>, b: set<nat>, c: nat)
    requires a <= b && c in b && c !in a
    ensures |a| < |b|
  {
    assert |b - a| == |b| - |a|;
    assert c in b - a;
  }

  /** The highest rank, up to `x`, that has not sent to its parent. */
  lemma {:induction false} LastNotUp(cfg: Config, nodes: seq<Node>, x: nat) returns (y: nat)
    requires Shape(cfg, nodes) && x < cfg.n && !nodes[0].up
    ensures y <= x && !nodes[y].up && forall z: nat | y < z <= x :: nodes[z].up
  {
    if nodes[x].up {
      y := LastNotUp(cfg, nodes, x - 1);
    } else {
      y := x;
    }
  }

  lemma LastNotUpIsReady<M>(cfg: Config, nodes: seq<Node>, ch: Chan<M>, y: nat)
    requires Inv(cfg, nodes, ch) && y < cfg.n && !nodes[y].up
    requires forall z: nat | y < z < cfg.n :: nodes[z].up
    requires forall c: nat | 1 <= c < cfg.n ::
               var ph := Phase(cfg, nodes, ch, c); ph == Waiting || ph == Counted
    ensures Ready(cfg, nodes, y)
  {
    assert NodeOk(cfg, nodes, ch, y);
    assert CountedKids(cfg, nodes, ch, y) == Kids(cfg, y);
  }
}
