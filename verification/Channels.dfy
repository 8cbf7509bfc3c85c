/** Point-to-point message channels.

    Messages with the same source, destination and tag are received in the order
    in which they were posted (section 3.5 of the MPI 3.1 standard).  A `Chan` holds the
    messages in flight for one tag; a protocol owns one `Chan` for each of its tags.
    A message stays in its channel for an arbitrary time: receiving is a step that may
    or may not be taken.
 */
module Channels {

  datatype Link = Link(src: nat, dst: nat)

  type Chan<M> = map<Link, seq<M>>

  /** The messages in flight from `a` to `b`, oldest first. */
  function At<M>(ch: Chan<M>, a: nat, b: nat): seq<M> {
    if Link(a, b) in ch then ch[Link(a, b)] else []
  }

  /** `ch` after `a` has posted `m` to `b`. */
  function Post<M>(ch: Chan<M>, a: nat, b: nat, m: M): Chan<M> {
    ch[Link(a, b) := At(ch, a, b) + [m]]
  }

  /** `ch` after `b` has received the oldest message from `a`. */
  function Take<M>(ch: Chan<M>, a: nat, b: nat): Chan<M>
    requires At(ch, a, b) != []
  {
    ch[Link(a, b) := At(ch, a, b)[1..]]
  }

  /** `ch` after `a` has posted `m` to every rank of `dsts`. */
  function Cast<M>(ch: Chan<M>, a: nat, dsts: set<nat>, m: M): (r: Chan<M>)
    ensures forall x: nat, y: nat :: At(r, x, y) ==
                                     if x == a && y in dsts then At(ch, x, y) + [m] else At(ch, x, y)
  {
    ch + map d | d in dsts :: Link(a, d) := At(ch, a, d) + [m]
  }

  /** No message is in flight between any two of the ranks 0..n-1. */
  ghost predicate Silent<M>(n: nat, ch: Chan<M>) {
    forall a: nat, b: nat | a < n && b < n :: At(ch, a, b) == []
  }
}
