/** The messages in flight, as the code of one rank reads and changes them. */
module Network {
  import opened Channels

  /** The messages in flight with one tag. */
  class Mailbox<M> {
    var chan: Chan<M>

    constructor ()
      ensures chan == map[]
    {
      chan := map[];
    }

    /** MPI_Iprobe for a message from `src`.  Messages from the sources in `late` are in flight,
        but the probe does not notice them yet. */
    predicate Visible(late: set<nat>, src: nat, dst: nat)
      reads this
    {
      src !in late && At(chan, src, dst) != []
    }

    lemma NoneVisible(n: nat, late: set<nat>, dst: nat)
      requires forall x: nat | x < n :: !Visible(late, x, dst)
      ensures forall x: nat | x < n && x !in late :: At(chan, x, dst) == []
    {
      forall x: nat | x < n && x !in late ensures At(chan, x, dst) == [] {
        assert !Visible(late, x, dst);
      }
    }

    /** MPI_Iprobe with MPI_ANY_SOURCE: it finds some message, if any is visible. */
    method ProbeAny(n: nat, late: set<nat>, dst: nat) returns (flag: bool, src: nat)
      ensures flag ==> src < n && Visible(late, src, dst)
      ensures !flag ==> forall x: nat | x < n :: !Visible(late, x, dst)
    {
      if x: nat :| x < n && Visible(late, x, dst) {
        flag, src := true, x;
      } else {
        flag, src := false, 0;
      }
    }

    /** MPI_Recv of a message that is there. */
    method Recv(src: nat, dst: nat) returns (m: M)
      requires At(chan, src, dst) != []
      modifies this
      ensures m == old(At(chan, src, dst))[0] && chan == Take(old(chan), src, dst)
    {
      m := At(chan, src, dst)[0];
      chan := Take(chan, src, dst);
    }

    /** MPI_Send. */
    method Send(src: nat, dst: nat, m: M)
      modifies this
      ensures chan == Post(old(chan), src, dst, m)
    {
      chan := Post(chan, src, dst, m);
    }

    /** Send one message to each rank of an increasing list. */
    method SendToAll(src: nat, dsts: seq<nat>, ghost all: set<nat>, m: M)
      requires forall i, j | 0 <= i < j < |dsts| :: dsts[i] < dsts[j]
      requires forall d: nat :: d in all <==> d in dsts
      modifies this
      ensures chan == Cast(old(chan), src, all, m)
    {
      ghost var ch := chan;
      for i := 0 to |dsts|
        invariant chan == Cast(ch, src, Members(dsts[..i]), m)
      {
        NextMember(dsts, i);
        CastMore(ch, src, Members(dsts[..i]), dsts[i], m);
        Send(src, dsts[i], m);
      }
      assert dsts[..|dsts|] == dsts && Members(dsts) == all;
    }
  }

  function Members(dsts: seq<nat>): set<nat> {
    set d | d in dsts
  }

  lemma NextMember(dsts: seq<nat>, i: nat)
    requires i < |dsts| && forall i, j | 0 <= i < j < |dsts| :: dsts[i] < dsts[j]
    ensures dsts[i] !in Members(dsts[..i]) && Members(dsts[..i + 1]) == Members(dsts[..i]) + {dsts[i]}
  {
    assert dsts[..i + 1] == dsts[..i] + [dsts[i]];
  }

  lemma CastMore<M>(ch: Chan<M>, src: nat, done: set<nat>, d: nat, m: M)
    requires d !in done
    ensures Post(Cast(ch, src, done, m), src, d, m) == Cast(ch, src, done + {d}, m)
  {
    var a, b := Post(Cast(ch, src, done, m), src, d, m), Cast(ch, src, done + {d}, m);
    assert a.Keys == b.Keys;
    forall l | l in a ensures a[l] == b[l] {
      if l == Link(src, d) {
        assert At(Cast(ch, src, done, m), src, d) == At(ch, src, d);
      }
    }
  }
}
