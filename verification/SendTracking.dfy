/** Keeping the buffers of non-blocking sends until the sends have completed
    (CIRCLE_worksend_track, CIRCLE_worksend_check and CIRCLE_worksend_wait in libcircle/token.c).

    Whether MPI finds a send complete is arbitrary here.
 */
module SendTracking {
  import opened Memory

  datatype Request = NullRequest | Request(id: nat)

  /** A payload, or none for messages that carry nothing. */
  datatype Buffer = NullBuffer | Buffer(id: nat)

  datatype Send = Send(req: Request, buf: Buffer)

  // ----- what a check does to a list of sends -----

  /** The sends that were found incomplete. */
  function Kept(sends: seq<Send>, done: seq<bool>): seq<Send>
    requires |sends| == |done|
  {
    if sends == [] then []
    else (if done[0] then [] else [sends[0]]) + Kept(sends[1..], done[1..])
  }

  /** The buffers of the sends that were found complete. */
  function Released(sends: seq<Send>, done: seq<bool>): multiset<Buffer>
    requires |sends| == |done|
  {
    if sends == [] then multiset{}
    else (if done[0] then Payload(sends[0].buf) else multiset{}) + Released(sends[1..], done[1..])
  }

  /** What freeing a buffer releases: freeing a null pointer does nothing. */
  function Payload(buf: Buffer): multiset<Buffer> {
    if buf.NullBuffer? then multiset{} else multiset{buf}
  }

  function Owned(sends: seq<Send>): multiset<Buffer> {
    if sends == [] then multiset{} else Payload(sends[0].buf) + Owned(sends[1..])
  }

  lemma Regroup(a: multiset<Buffer>, b: multiset<Buffer>, c: multiset<Buffer>)
    ensures a + (b + c) == (a + b) + c
    ensures a + (b + c) == b + (a + c)
  {
  }

  /** A buffer is released or still owned, and never both. */
  lemma {:induction false} OwnedOrReleased(sends: seq<Send>, done: seq<bool>)
    requires |sends| == |done|
    ensures Owned(sends) == Owned(Kept(sends, done)) + Released(sends, done)
  {
    if sends != [] {
      var kept, freed, first := Kept(sends[1..], done[1..]), Released(sends[1..], done[1..]), Payload(sends[0].buf);
      assert Owned(sends) == first + (Owned(kept) + freed) by {
        OwnedOrReleased(sends[1..], done[1..]);
      }
      Regroup(first, Owned(kept), freed);
      if done[0] {
        assert Kept(sends, done) == kept;
      } else {
        assert Released(sends, done) == freed;
        assert Kept(sends, done) == [sends[0]] + kept;
        assert ([sends[0]] + kept)[1..] == kept;
      }
    }
  }

  lemma {:induction false} OwnedWithout(b: seq<Send>, i: nat)
    requires i < |b|
    ensures Owned(b) == Payload(b[i].buf) + Owned(b[..i] + b[i + 1..])
  {
    var rest := b[..i] + b[i + 1..];
    if i == 0 {
      assert rest == b[1..];
    } else {
      OwnedWithout(b[1..], i - 1);
      assert rest[0] == b[0] && rest[1..] == b[1..][..i - 1] + b[1..][i..];
      Regroup(Payload(b[0].buf), Payload(b[i].buf), Owned(rest[1..]));
    }
  }

  lemma TakenOut<T>(b: seq<T>, i: nat, rest: seq<T>)
    requires i < |b| && rest == b[..i] + b[i + 1..]
    ensures multiset(b) == multiset{b[i]} + multiset(rest)
  {
    assert b == b[..i] + [b[i]] + b[i + 1..];
  }

  /** Only the multiset of sends matters for what is owned. */
  lemma {:induction false} OwnedByMultiset(a: seq<Send>, b: seq<Send>)
    requires multiset(a) == multiset(b)
    ensures Owned(a) == Owned(b)
    decreases |a|
  {
    if a == [] {
      assert multiset(b) == multiset{};
    } else {
      assert a[0] in multiset(b);
      var i :| 0 <= i < |b| && b[i] == a[0];
      var rest := b[..i] + b[i + 1..];
      TakenOut(b, i, rest);
      TakenOut(a, 0, a[1..]);
      assert multiset(rest) == multiset(b) - multiset{b[i]} == multiset(a[1..]);
      OwnedByMultiset(a[1..], rest);
      OwnedWithout(b, i);
    }
  }

  /** After a check, the buffers still owned and those it released are the buffers owned before. */
  lemma NothingLeaks(sends: seq<Send>, done: seq<bool>, left: seq<Send>)
    requires |sends| == |done| && multiset(left) == multiset(Kept(sends, done))
    ensures Owned(left) + Released(sends, done) == Owned(sends)
  {
    OwnedByMultiset(left, Kept(sends, done));
    OwnedOrReleased(sends, done);
  }

  // ----- the list -----

  class SendList {
    var reqs: array<Request>    // send_reqs
    var bufs: array<Buffer>     // send_bufs
    var count: nat              // send_count
    var capacity: nat           // send_capacity
    ghost var freed: multiset<Buffer>

    ghost predicate Valid()
      reads this
    {
      reqs.Length == bufs.Length == capacity && count <= capacity
    }

    /** The sends that are tracked. */
    ghost function Sends(): (s: seq<Send>)
      requires Valid()
      reads this, reqs, bufs
      ensures |s| == count
    {
      Pairs(reqs[..count], bufs[..count])
    }

    constructor ()
      ensures Valid() && Sends() == [] && freed == multiset{}
      ensures fresh(reqs) && fresh(bufs)
    {
      reqs := new Request[0];
      bufs := new Buffer[0];
      count, capacity := 0, 0;
      freed := multiset{};
    }

    /** CIRCLE_worksend_track. */
    method Track(req: Request, buf: Buffer)
      requires Valid()
      modifies this`reqs, this`bufs, this`count, this`capacity, reqs, bufs
      ensures Valid() && Sends() == old(Sends()) + [Send(req, buf)]
      ensures reqs == old(reqs) || fresh(reqs)
      ensures bufs == old(bufs) || fresh(bufs)
    {
      if count == capacity {
        Grow(if capacity > 0 then capacity * 2 else 32);
      }
      reqs[count] := req;
      bufs[count] := buf;
      count := count + 1;
    }

    /** realloc both arrays. */
    method Grow(size: nat)
      requires Valid() && size > capacity
      modifies this`reqs, this`bufs, this`capacity
      ensures Valid() && count < capacity && fresh(reqs) && fresh(bufs) && Sends() == old(Sends())
    {
      var longerReqs := Realloc(reqs, size, NullRequest);
      var longerBufs := Realloc(bufs, size, NullBuffer);
      assert longerReqs[..count] == longerReqs[..capacity][..count] == reqs[..count];
      assert longerBufs[..count] == longerBufs[..capacity][..count] == bufs[..count];
      reqs, bufs, capacity := longerReqs, longerBufs, size;
    }

    /** CIRCLE_worksend_check.  `done[i]` is MPI's answer for the send that was at place `i`:
        every send is tested exactly once. */
    method Check() returns (done: seq<bool>)
      requires Valid()
      modifies this`count, this`freed, reqs, bufs
      ensures Valid() && |done| == old(count)
      ensures multiset(Sends()) == multiset(Kept(old(Sends()), done))
      ensures freed == old(freed) + Released(old(Sends()), done)
    {
      ghost var sends := Sends();
      done := [];
      var i := count;
      while i > 0
        invariant Valid() && 0 <= i <= count && |done| == |sends| - i
        invariant Sends()[..i] == sends[..i]
        invariant multiset(Sends()[i..]) == multiset(Kept(sends[i..], done))
        invariant freed == old(freed) + Released(sends[i..], done)
      {
        i := i - 1;
        ghost var now := Sends();
        StaysInPlace(sends, now, i, Kept(sends[i + 1..], done));
        var flag := TestAt(i);
        OneMore(sends, i, done, flag);
        SwapTakesOut(now, i);
        done := [flag] + done;
      }
    }

    /** Test send `i`, and take it out of the list if it is complete. */
    method TestAt(i: nat) returns (flag: bool)
      requires Valid() && i < count
      modifies this`count, this`freed, reqs, bufs
      ensures Valid() && Sends() == if flag then Swapped(old(Sends()), i) else old(Sends())
      ensures freed == old(freed) + if flag then Payload(old(Sends())[i].buf) else multiset{}
    {
      flag := Test(i);
      if flag {
        Free(i);
        count := count - 1;
        reqs[i] := reqs[count];
        bufs[i] := bufs[count];
      }
    }

    /** MPI_Test: a request that is complete becomes null. */
    method Test(i: nat) returns (flag: bool)
      requires Valid() && i < count
      modifies reqs
      ensures reqs[..] == if flag then old(reqs[..])[i := NullRequest] else old(reqs[..])
    {
      flag := *;
      if flag {
        reqs[i] := NullRequest;
      }
    }

    /** CIRCLE_free. */
    method Free(i: nat)
      requires Valid() && i < count
      modifies this`freed, bufs
      ensures bufs[..] == old(bufs[..])[i := NullBuffer]
      ensures freed == old(freed) + Payload(old(bufs[i]))
    {
      if bufs[i] != NullBuffer {
        freed := freed + multiset{bufs[i]};
        bufs[i] := NullBuffer;
      }
    }

    /** CIRCLE_worksend_wait, when MPI_Waitall has returned. */
    method FreeAll()
      requires Valid()
      modifies this`count, this`freed, bufs
      ensures Valid() && Sends() == []
      ensures freed == old(freed) + Owned(old(Sends()))
    {
      ghost var sends := Sends();
      var i := 0;
      while i < count
        invariant 0 <= i <= count == |sends| <= bufs.Length
        invariant forall j | i <= j < count :: bufs[j] == sends[j].buf
        invariant freed + Owned(sends[i..]) == old(freed) + Owned(sends)
      {
        OwnedNext(sends, i, freed);
        Free(i);
        i := i + 1;
      }
      count := 0;
    }
  }

  lemma OwnedNext(sends: seq<Send>, i: nat, freed: multiset<Buffer>)
    requires i < |sends|
    ensures freed + Owned(sends[i..]) == (freed + Payload(sends[i].buf)) + Owned(sends[i + 1..])
  {
    assert sends[i..][1..] == sends[i + 1..];
  }

  function Pairs(reqs: seq<Request>, bufs: seq<Buffer>): (s: seq<Send>)
    requires |reqs| == |bufs|
    ensures |s| == |reqs|
  {
    seq(|reqs|, i requires 0 <= i < |reqs| => Send(reqs[i], bufs[i]))
  }

  /** The last send takes the place of send `i`. */
  function Swapped(s: seq<Send>, i: nat): seq<Send>
    requires i < |s|
  {
    s[i := s[|s| - 1]][..|s| - 1]
  }

  /** Swapping takes one send out. */
  lemma SwapTakesOut(now: seq<Send>, i: nat)
    requires i < |now|
    ensures |Swapped(now, i)| == |now| - 1 && Swapped(now, i)[..i] == now[..i]
    ensures multiset(Swapped(now, i)[i..]) == multiset(now[i + 1..])
  {
    var last := |now| - 1;
    if i < last {
      assert now[i + 1..] == now[i + 1..last] + [now[last]];
      assert Swapped(now, i)[i..] == [now[last]] + now[i + 1..last];
    } else {
      assert Swapped(now, i)[i..] == [] == now[i + 1..];
    }
  }

  /** One more answer. */
  lemma OneMore(sends: seq<Send>, i: nat, done: seq<bool>, flag: bool)
    requires i < |sends| && |done| == |sends| - (i + 1)
    ensures Kept(sends[i..], [flag] + done) == (if flag then [] else [sends[i]]) + Kept(sends[i + 1..], done)
    ensures Released(sends[i..], [flag] + done)
            == (if flag then Payload(sends[i].buf) else multiset{}) + Released(sends[i + 1..], done)
  {
    assert sends[i..][1..] == sends[i + 1..] && ([flag] + done)[1..] == done;
  }

  lemma StaysInPlace(sends: seq<Send>, now: seq<Send>, i: nat, kept: seq<Send>)
    requires i < |now| && i < |sends| && now[..i + 1] == sends[..i + 1]
    requires multiset(now[i + 1..]) == multiset(kept)
    ensures now[i] == sends[i] && now[..i] == sends[..i]
    ensures multiset(now[i..]) == multiset([sends[i]] + kept)
  {
    assert now[i] == now[..i + 1][i] == sends[..i + 1][i];
    assert now[..i] == now[..i + 1][..i] == sends[..i + 1][..i];
    assert now[i..] == [now[i]] + now[i + 1..];
  }
}
