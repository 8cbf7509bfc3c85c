/** The ring functions of one rank, as they change its state and the messages in flight, and the
    steps of the `Ring` state machine that they take. */
module TokenRing {
  import opened Channels
  import opened Network
  import opened Ring

  /** The effect of one call of CIRCLE_check_for_term at an idle rank, if the arrival of the token
      is not noticed when `late`. */
  ghost function Checked(n: nat, s: State, r: nat, late: bool): State
    requires Shape(n, s) && r < n
  {
    if CanSend(n, s, r) then Send(n, s, r)
    else if InLoop(n, s, r) && !late && CanReceive(n, s, r) then Receive(n, s, r)
    else s
  }

  class TokenState {
    const size: nat
    const rank: nat
    const tokenSrc: nat
    const tokenDest: nat
    var tokenIsLocal: bool
    var tokenProc: Color
    var tokenBuf: Color
    var sendPending: bool    // token_send_req is not null

    ghost predicate Valid() {
      rank < size && tokenSrc == Prev(size, rank) && tokenDest == Next(size, rank)
    }

    /** This object and the messages in flight are part of the global state `s`, in which this
        rank is busy or not. */
    ghost predicate Agrees(net: Mailbox<Color>, s: State)
      reads this, net
    {
      && Valid() && Shape(size, s) && s.chan == net.chan
      && s.ranks[rank] == Rank(s.ranks[rank].busy, tokenProc, tokenIsLocal, tokenBuf, sendPending)
    }

    /** The ring part of CIRCLE_init_local_state. */
    constructor (r: nat, n: nat)
      requires r < n
      ensures Valid() && rank == r && size == n
      ensures tokenIsLocal == (r == 0) && tokenProc == White && tokenBuf == Black && !sendPending
    {
      rank, size := r, n;
      tokenIsLocal := false;
      if r == 0 {
        tokenIsLocal := true;
      }
      PrevIsMod(r, n);
      NextIsMod(r, n);
      tokenSrc := (r - 1 + n) % n;
      tokenDest := (r + 1 + n) % n;
      tokenProc := White;
      tokenBuf := Black;
      sendPending := false;
    }

    /** CIRCLE_token_issend, when no rank aborts: the request of the previous token send, which it
        overwrites, is complete. */
    method Issend(net: Mailbox<Color>)
      requires Valid() && !sendPending
      modifies this`sendPending, this`tokenIsLocal, net
      ensures net.chan == Post(old(net.chan), rank, tokenDest, tokenBuf)
      ensures sendPending && !tokenIsLocal
    {
      net.Send(rank, tokenDest, tokenBuf);
      sendPending := true;
      tokenIsLocal := false;
    }

    /** MPI_Wait on the token send: it may be called only if the message has been received, as it
        would block otherwise. */
    method WaitForSend(net: Mailbox<Color>)
      requires Valid() && At(net.chan, rank, tokenDest) == []
      modifies this`sendPending
      ensures !sendPending
    {
      sendPending := false;
    }

    /** CIRCLE_token_recv. */
    method Recv(net: Mailbox<Color>, ghost s: State)
      requires Agrees(net, s) && OneToken(size, s) && CanReceive(size, s, rank)
      modifies this, net
      ensures Agrees(net, Receive(size, s, rank))
    {
      ReceivesToken(size, s, rank);
      assert LinkOk(size, s, rank, tokenDest);
      var token := net.Recv(tokenSrc, rank);
      tokenIsLocal := true;
      if sendPending {
        WaitForSend(net);
      }
      tokenBuf := token;
      if tokenProc == Black && token == Black {
        tokenProc := White;
      }
      var terminate := false;
      if rank == 0 && token == White {
        terminate := true;
      } else if token == Terminate {
        terminate := true;
      }
      if terminate {
        tokenBuf := Terminate;
        if rank < size - 1 {
          Issend(net);
        }
        tokenProc := Terminate;
      }
    }

    /** CIRCLE_token_check. */
    method Check(net: Mailbox<Color>, late: bool, ghost s: State)
      requires Agrees(net, s) && OneToken(size, s)
      requires InLoop(size, s, rank) ==> !s.ranks[rank].busy && !tokenIsLocal
      modifies this, net
      ensures Agrees(net, if !late && CanReceive(size, s, rank) then Receive(size, s, rank) else s)
    {
      var flag := !late && At(net.chan, tokenSrc, rank) != [];
      if flag {
        Recv(net, s);
      }
    }

    /** MPI_Test on the token send in the cleanup loop; `noticed` tells whether MPI finds a send complete
        whose message has been received. */
    method TestSend(net: Mailbox<Color>, noticed: bool, ghost s: State) returns (ghost t: State)
      requires Agrees(net, s) && Reachable(size, s) && tokenProc == Terminate
      modifies this`sendPending
      ensures Agrees(net, t) && Reachable(size, t)
      ensures t == if noticed && CanReap(size, s, rank) then Reap(size, s, rank) else s
    {
      t := s;
      if sendPending && noticed && At(net.chan, rank, tokenDest) == [] {
        t := Reap(size, s, rank);
        ReachesFurther(size, s, DoReap(rank), t);
        sendPending := false;
      }
    }

    /** CIRCLE_check_for_term. */
    method CheckForTerm(net: Mailbox<Color>, late: bool, ghost s: State) returns (status: Color)
      requires Agrees(net, s) && OneToken(size, s) && !s.ranks[rank].busy
      modifies this, net
      ensures Agrees(net, Checked(size, s, rank, late))
      ensures status == tokenProc
    {
      if tokenProc == Terminate {
        return Terminate;
      }
      assert HolderOk(size, s, rank);
      if tokenIsLocal {
        if rank == 0 {
          tokenBuf := White;
        } else if tokenProc == Black {
          tokenBuf := Black;
        }
        Issend(net);
        tokenProc := White;
      } else {
        Check(net, late, s);
      }
      return tokenProc;
    }
  }

  lemma PrevIsMod(r: nat, n: nat)
    requires r < n
    ensures (r - 1 + n) % n == Prev(n, r)
  {
    if r > 0 {
      ModOnce(r - 1, n);
    }
  }

  lemma NextIsMod(r: nat, n: nat)
    requires r < n
    ensures (r + 1 + n) % n == Next(n, r)
  {
    if r + 1 < n {
      ModOnce(r + 1, n);
    } else {
      ModOnce(0, n);
      assert (2 * n) % n == 0;
    }
  }

  lemma ModOnce(a: nat, n: nat)
    requires a < n
    ensures (a + n) % n == a
  {
  }

  /** At an idle rank, a call takes one step or none: it leads from a reachable state to a reachable
      one, and at a rank that then has stopped all ranks are idle. */
  lemma CheckedIsSafe(n: nat, s: State, r: nat, late: bool)
    requires Reachable(n, s) && r < n && !s.ranks[r].busy
    ensures Reachable(n, Checked(n, s, r, late))
    ensures Checked(n, s, r, late).ranks[r].proc == Terminate ==> AllIdle(n, Checked(n, s, r, late))
  {
    var t := Checked(n, s, r, late);
    if CanSend(n, s, r) {
      ReachesFurther(n, s, DoSend(r), t);
    } else if InLoop(n, s, r) && !late && CanReceive(n, s, r) {
      ReachesFurther(n, s, DoReceive(r), t);
    }
    if t.ranks[r].proc == Terminate {
      StoppedSeesAllIdle(n, t, r);
    }
  }

  lemma StoppedSeesAllIdle(n: nat, t: State, r: nat)
    requires Reachable(n, t) && r < n && t.ranks[r].proc == Terminate
    ensures AllIdle(n, t)
  {
    forall q: nat | q < n ensures !t.ranks[q].busy {
      StoppedMeansIdle(n, t, r, q);
    }
  }

  // ----- runs of the code -----

  /** The rank checks for termination, in any state that the ranks can have reached: the state after
      it is one that they can reach, and if the rank finds TERMINATE, every rank is idle. */
  method RunCheckForTerm(k: TokenState, net: Mailbox<Color>, late: bool, ghost s: State)
    returns (status: Color, ghost t: State)
    requires k.Agrees(net, s) && Reachable(k.size, s) && !s.ranks[k.rank].busy
    modifies k, net
    ensures k.Agrees(net, t) && Reachable(k.size, t) && t == Checked(k.size, s, k.rank, late)
    ensures status == t.ranks[k.rank].proc && (status == Terminate ==> AllIdle(k.size, t))
  {
    ReachableInv(k.size, s);
    CheckedIsSafe(k.size, s, k.rank, late);
    t := Checked(k.size, s, k.rank, late);
    status := k.CheckForTerm(net, late, s);
  }

  /** The effect of a pass through the cleanup loop. */
  ghost function Drained(n: nat, s: State, r: nat, late: bool, noticed: bool): State
    requires Shape(n, s) && r < n
  {
    var mid := if !late && CanReceive(n, s, r) then Receive(n, s, r) else s;
    if noticed && CanReap(n, mid, r) then Reap(n, mid, r) else mid
  }

  /** What one pass through the cleanup loop does in ring mode, at a rank that has stopped: receive a
      token that is there, and test the token send. */
  method RunDrain(k: TokenState, net: Mailbox<Color>, late: bool, noticed: bool, ghost s: State)
    returns (ghost t: State)
    requires k.Agrees(net, s) && Reachable(k.size, s) && !InLoop(k.size, s, k.rank)
    modifies k, net
    ensures k.Agrees(net, t) && Reachable(k.size, t) && t == Drained(k.size, s, k.rank, late, noticed)
    ensures !InLoop(k.size, t, k.rank) && AllIdle(k.size, t)
  {
    ReachableInv(k.size, s);
    t := s;
    if !late && CanReceive(k.size, s, k.rank) {
      t := Receive(k.size, s, k.rank);
      ReachesFurther(k.size, s, DoReceive(k.rank), t);
    }
    k.Check(net, late, s);
    t := k.TestSend(net, noticed, t);
    StoppedSeesAllIdle(k.size, t, k.rank);
  }
}
