/** Ring termination detection: a coloured token that circulates while ranks are idle
    (CIRCLE_check_for_term, CIRCLE_token_check, CIRCLE_token_recv and CIRCLE_token_issend in
    libcircle/token.c).

    Work moves from a rank to another in one step, and no rank aborts.
 */
module Ring {
  import opened Channels

  datatype Color = White | Black | Terminate

  datatype Rank = Rank(
    busy: bool,      // the queue is not empty
    proc: Color,     // token_proc
    holds: bool,     // token_is_local
    buf: Color,      // token_buf
    pending: bool)   // token_send_req is not null

  /** Where the token is: history, no step consults it. */
  datatype Place = Held(at: nat) | Flying(from: nat)

  /** `place` and `laps`, the number of times the token has come back to rank 0, are history
      variables: no step consults them. */
  datatype State = State(ranks: seq<Rank>, chan: Chan<Color>, place: Place, laps: nat)

  function Next(n: nat, r: nat): (t: nat)
    requires r < n
    ensures t < n
  {
    if r + 1 == n then 0 else r + 1
  }

  function Prev(n: nat, r: nat): (t: nat)
    requires r < n
    ensures t < n && Next(n, t) == r
  {
    if r == 0 then n - 1 else r - 1
  }

  ghost predicate Shape(n: nat, s: State) {
    n >= 1 && |s.ranks| == n
  }

  // ----- the steps of a rank -----

  /** The rank is in the main loop: it has not seen the TERMINATE token. */
  ghost predicate InLoop(n: nat, s: State, r: nat)
    requires Shape(n, s)
  {
    r < n && s.ranks[r].proc != Terminate
  }

  /** Work of `r` moves to `d`, which is idle; `r` keeps some. */
  ghost predicate CanSendWork(n: nat, s: State, r: nat, d: nat)
    requires Shape(n, s)
  {
    r < n && d < n && d != r && InLoop(n, s, r) && InLoop(n, s, d) && s.ranks[r].busy && !s.ranks[d].busy
  }

  ghost function SendWork(n: nat, s: State, r: nat, d: nat): State
    requires Shape(n, s) && CanSendWork(n, s, r, d)
  {
    var color := if d < r || d == Prev(n, r) then Black else s.ranks[r].proc;
    s.(ranks := s.ranks[r := s.ranks[r].(proc := color)][d := s.ranks[d].(busy := true)])
  }

  ghost predicate CanFinishWork(n: nat, s: State, r: nat)
    requires Shape(n, s)
  {
    r < n && InLoop(n, s, r) && s.ranks[r].busy
  }

  /** `r` processes its last item. */
  ghost function FinishWork(n: nat, s: State, r: nat): State
    requires Shape(n, s) && CanFinishWork(n, s, r)
  {
    s.(ranks := s.ranks[r := s.ranks[r].(busy := false)])
  }

  /** The colour an idle rank sends: rank 0 starts a white token, the others pass on the token
      as it is, or black if they are black. */
  function Outgoing(r: nat, k: Rank): Color {
    if r == 0 then White else if k.proc == Black then Black else k.buf
  }

  ghost predicate CanSend(n: nat, s: State, r: nat)
    requires Shape(n, s)
  {
    r < n && InLoop(n, s, r) && !s.ranks[r].busy && s.ranks[r].holds
  }

  /** CIRCLE_check_for_term at a rank that holds the token. */
  ghost function Send(n: nat, s: State, r: nat): State
    requires Shape(n, s) && CanSend(n, s, r)
  {
    var k := s.ranks[r];
    var color := Outgoing(r, k);
    State(s.ranks[r := k.(buf := color, holds := false, pending := true, proc := White)],
          Post(s.chan, r, Next(n, r), color),
          Flying(r),
          s.laps)
  }

  /** The main loop looks for the token when the rank is idle and does not hold it; the cleanup
      loop always looks. */
  ghost predicate CanReceive(n: nat, s: State, r: nat)
    requires Shape(n, s)
  {
    && r < n
    && (InLoop(n, s, r) ==> !s.ranks[r].busy && !s.ranks[r].holds)
    && At(s.chan, Prev(n, r), r) != []
  }

  predicate Stops(r: nat, token: Color) {
    token == Terminate || (r == 0 && token == White)
  }

  /** The rank after CIRCLE_token_recv, before the token is passed on. */
  function Received(r: nat, k: Rank, token: Color): Rank {
    var k1 := k.(holds := true, pending := false, buf := token,
                 proc := if k.proc == Black && token == Black then White else k.proc);
    if Stops(r, token) then k1.(buf := Terminate, proc := Terminate) else k1
  }

  /** CIRCLE_token_recv: a rank that stops passes the TERMINATE token on, unless it is the last. */
  ghost function Receive(n: nat, s: State, r: nat): State
    requires Shape(n, s) && CanReceive(n, s, r)
  {
    var token := At(s.chan, Prev(n, r), r)[0];
    var k := Received(r, s.ranks[r], token);
    var ch := Take(s.chan, Prev(n, r), r);
    var laps := if r == 0 then s.laps + 1 else s.laps;
    if Stops(r, token) && r < n - 1 then
      State(s.ranks[r := k.(holds := false, pending := true)], Post(ch, r, Next(n, r), Terminate), Flying(r), laps)
    else
      State(s.ranks[r := k], ch, Held(r), laps)
  }

  /** MPI_Test in the cleanup loop finds the token send complete. */
  ghost predicate CanReap(n: nat, s: State, r: nat)
    requires Shape(n, s)
  {
    r < n && !InLoop(n, s, r) && s.ranks[r].pending && At(s.chan, r, Next(n, r)) == []
  }

  ghost function Reap(n: nat, s: State, r: nat): State
    requires Shape(n, s) && CanReap(n, s, r)
  {
    s.(ranks := s.ranks[r := s.ranks[r].(pending := false)])
  }

  datatype Step =
    | DoSendWork(r: nat, d: nat)
    | DoFinishWork(r: nat)
    | DoSend(r: nat)
    | DoReceive(r: nat)
    | DoReap(r: nat)

  ghost predicate Enabled(n: nat, s: State, step: Step)
    requires Shape(n, s)
  {
    match step
    case DoSendWork(r, d) => CanSendWork(n, s, r, d)
    case DoFinishWork(r) => CanFinishWork(n, s, r)
    case DoSend(r) => CanSend(n, s, r)
    case DoReceive(r) => CanReceive(n, s, r)
    case DoReap(r) => CanReap(n, s, r)
  }

  ghost function Apply(n: nat, s: State, step: Step): (s': State)
    requires Shape(n, s) && Enabled(n, s, step)
    ensures Shape(n, s')
  {
    match step
    case DoSendWork(r, d) => SendWork(n, s, r, d)
    case DoFinishWork(r) => FinishWork(n, s, r)
    case DoSend(r) => Send(n, s, r)
    case DoReceive(r) => Receive(n, s, r)
    case DoReap(r) => Reap(n, s, r)
  }

  ghost predicate Initial(n: nat, s: State) {
    && Shape(n, s) && s.chan == map[] && s.place == Held(0) && s.laps == 0
    && forall r: nat | r < n :: s.ranks[r] == Rank(s.ranks[r].busy, White, r == 0, Black, false)
  }

  ghost predicate Takes(n: nat, s: State, step: Step, s': State) {
    Shape(n, s) && Enabled(n, s, step) && s' == Apply(n, s, step)
  }

  ghost predicate Run(n: nat, run: seq<State>, steps: seq<Step>) {
    && |run| == |steps| + 1
    && forall i: nat {:trigger steps[i]} | i < |steps| :: Takes(n, run[i], steps[i], run[i + 1])
  }

  ghost predicate Reachable(n: nat, s: State) {
    && Shape(n, s)
    && exists run: seq<State>, steps: seq<Step> :: Run(n, run, steps) && Initial(n, run[0]) && run[|steps|] == s
  }

  // ----- exactly one token -----

  /** What is in flight from `a` to `b`: the token, if it is flying and has just left `a`. */
  ghost predicate LinkOk(n: nat, s: State, a: nat, b: nat)
    requires Shape(n, s)
  {
    |At(s.chan, a, b)| == if s.place == Flying(a) && a < n && b == Next(n, a) then 1 else 0
  }

  /** A rank holds the token exactly if the token is there, and then its last send is complete. */
  ghost predicate HolderOk(n: nat, s: State, r: nat)
    requires Shape(n, s) && r < n
  {
    && s.ranks[r].holds == (s.place == Held(r))
    && (s.place == Held(r) ==> !s.ranks[r].pending)
  }

  ghost predicate OneToken(n: nat, s: State) {
    && Shape(n, s)
    && (match s.place case Held(at) => at < n case Flying(from) => from < n)
    && (forall r: nat | r < n :: HolderOk(n, s, r))
    && (forall a: nat, b: nat | a < n && b < n :: LinkOk(n, s, a, b))
  }

  /** The colour of the token. */
  ghost function Token(n: nat, s: State): Color
    requires OneToken(n, s)
  {
    match s.place
    case Held(at) => s.ranks[at].buf
    case Flying(from) => assert LinkOk(n, s, from, Next(n, from)); At(s.chan, from, Next(n, from))[0]
  }

  /** The ranks that have passed the token on since it left rank 0. */
  function Visited(s: State): nat {
    match s.place
    case Held(at) => at
    case Flying(from) => from + 1
  }

  // ----- the colour invariant -----

  ghost predicate VisitedIdle(n: nat, s: State)
    requires Shape(n, s)
  {
    forall r: nat | r < n && r < Visited(s) :: !s.ranks[r].busy
  }

  ghost predicate BlackAhead(n: nat, s: State)
    requires Shape(n, s)
  {
    exists r: nat :: r < n && r >= Visited(s) && s.ranks[r].proc == Black
  }

  /** While no rank has stopped, the token is not the TERMINATE token, and if a rank that has passed
      it on is busy, then the token is black or will turn black. */
  ghost predicate Searching(n: nat, s: State)
    requires OneToken(n, s)
  {
    && Token(n, s) != Terminate
    && (forall r: nat | r < n :: s.ranks[r].proc != Terminate)
    && (VisitedIdle(n, s) || BlackAhead(n, s) || Token(n, s) == Black)
  }

  /** Once a rank has stopped, all are idle, and the ranks that the TERMINATE token has passed are
      those that have stopped. */
  ghost predicate Stopping(n: nat, s: State)
    requires OneToken(n, s)
  {
    && Token(n, s) == Terminate
    && (forall r: nat | r < n :: !s.ranks[r].busy)
    && (forall r: nat | r < n :: s.ranks[r].proc == Terminate <==> r < Visited(s) || s.place == Held(r))
    && (s.place.Held? ==> s.place.at == n - 1)
    && (s.place.Flying? ==> s.place.from < n - 1)
  }

  ghost predicate Inv(n: nat, s: State) {
    OneToken(n, s) && (Searching(n, s) || Stopping(n, s))
  }

  lemma InitialInv(n: nat, s: State)
    requires Initial(n, s)
    ensures Inv(n, s)
  {
  }

  // ----- there is one token -----

  lemma WorkKeepsToken(n: nat, s: State, step: Step)
    requires OneToken(n, s) && Enabled(n, s, step) && !step.DoSend? && !step.DoReceive?
    ensures OneToken(n, Apply(n, s, step)) && Token(n, Apply(n, s, step)) == Token(n, s)
  {
    var s' := Apply(n, s, step);
    forall r: nat | r < n ensures HolderOk(n, s', r) {
      assert HolderOk(n, s, r);
    }
    forall a: nat, b: nat | a < n && b < n ensures LinkOk(n, s', a, b) {
      assert LinkOk(n, s, a, b);
    }
  }

  lemma SendKeepsToken(n: nat, s: State, r: nat)
    requires OneToken(n, s) && CanSend(n, s, r)
    ensures OneToken(n, Send(n, s, r)) && Token(n, Send(n, s, r)) == Outgoing(r, s.ranks[r])
    ensures s.place == Held(r) && !s.ranks[r].pending
  {
    var s' := Send(n, s, r);
    assert HolderOk(n, s, r) && LinkOk(n, s, r, Next(n, r));
    forall q: nat | q < n ensures HolderOk(n, s', q) {
      assert HolderOk(n, s, q);
    }
    forall a: nat, b: nat | a < n && b < n ensures LinkOk(n, s', a, b) {
      assert LinkOk(n, s, a, b);
    }
  }

  /** A rank receives the token, and the only one: the rank does not hold it already. */
  lemma ReceivesToken(n: nat, s: State, r: nat)
    requires OneToken(n, s) && CanReceive(n, s, r)
    ensures s.place == Flying(Prev(n, r)) && !s.ranks[r].holds
    ensures At(s.chan, Prev(n, r), r) == [Token(n, s)]
  {
    assert LinkOk(n, s, Prev(n, r), r) && HolderOk(n, s, r);
  }

  lemma ReceiveKeepsToken(n: nat, s: State, r: nat)
    requires OneToken(n, s) && CanReceive(n, s, r)
    ensures OneToken(n, Receive(n, s, r))
    ensures Token(n, Receive(n, s, r)) == if Stops(r, Token(n, s)) then Terminate else Token(n, s)
  {
    ReceivesToken(n, s, r);
    var s' := Receive(n, s, r);
    assert LinkOk(n, s, r, Next(n, r));
    forall q: nat | q < n ensures HolderOk(n, s', q) {
      assert HolderOk(n, s, q);
    }
    forall a: nat, b: nat | a < n && b < n ensures LinkOk(n, s', a, b) {
      assert LinkOk(n, s, a, b);
    }
  }

  // ----- the colours -----

  lemma SendWorkKeepsColours(n: nat, s: State, r: nat, d: nat)
    requires OneToken(n, s) && Searching(n, s) && CanSendWork(n, s, r, d)
    requires OneToken(n, SendWork(n, s, r, d)) && Token(n, SendWork(n, s, r, d)) == Token(n, s)
    ensures Searching(n, SendWork(n, s, r, d))
  {
    var s' := SendWork(n, s, r, d);
    if VisitedIdle(n, s) && d < Visited(s) {
      assert r >= Visited(s) && s'.ranks[r].proc == Black;
    } else if BlackAhead(n, s) {
      var q: nat :| q < n && q >= Visited(s) && s.ranks[q].proc == Black;
      assert s'.ranks[q].proc == Black;
    }
  }

  lemma FinishWorkKeepsColours(n: nat, s: State, r: nat)
    requires OneToken(n, s) && Searching(n, s) && CanFinishWork(n, s, r)
    requires OneToken(n, FinishWork(n, s, r)) && Token(n, FinishWork(n, s, r)) == Token(n, s)
    ensures Searching(n, FinishWork(n, s, r))
  {
    var s' := FinishWork(n, s, r);
    if BlackAhead(n, s) {
      var q: nat :| q < n && q >= Visited(s) && s.ranks[q].proc == Black;
      assert s'.ranks[q].proc == Black;
    }
  }

  lemma SendKeepsColours(n: nat, s: State, r: nat)
    requires OneToken(n, s) && Searching(n, s) && CanSend(n, s, r)
    ensures OneToken(n, Send(n, s, r)) && Searching(n, Send(n, s, r))
  {
    SendKeepsToken(n, s, r);
    var s' := Send(n, s, r);
    if Outgoing(r, s.ranks[r]) != Black && r > 0 && !VisitedIdle(n, s) {
      var q: nat :| q < n && q >= Visited(s) && s.ranks[q].proc == Black;
      assert s'.ranks[q].proc == Black;
    }
  }

  /** A token that comes back white has found everybody idle. */
  lemma WhiteMeansIdle(n: nat, s: State, r: nat)
    requires OneToken(n, s) && Searching(n, s) && s.place == Flying(n - 1) && Token(n, s) == White && r < n
    ensures !s.ranks[r].busy
  {
  }

  lemma ReceiveKeepsColours(n: nat, s: State, r: nat)
    requires OneToken(n, s) && Searching(n, s) && CanReceive(n, s, r)
    ensures Inv(n, Receive(n, s, r))
  {
    ReceivesToken(n, s, r);
    ReceiveKeepsToken(n, s, r);
    var s' := Receive(n, s, r);
    if r == 0 {
      if Token(n, s) == White {
        forall q: nat | q < n ensures !s'.ranks[q].busy {
          WhiteMeansIdle(n, s, q);
        }
        assert Stopping(n, s');
      }
    } else if Token(n, s) != Black && !VisitedIdle(n, s) {
      var q: nat :| q < n && q >= Visited(s) && s.ranks[q].proc == Black;
      assert s'.ranks[q].proc == Black;
    }
  }

  lemma StoppingKept(n: nat, s: State, step: Step)
    requires OneToken(n, s) && Stopping(n, s) && Enabled(n, s, step)
    ensures OneToken(n, Apply(n, s, step)) && Stopping(n, Apply(n, s, step))
  {
    match step
    case DoReceive(r) =>
      ReceivesToken(n, s, r);
      ReceiveKeepsToken(n, s, r);
    case DoSend(r) =>
      SendKeepsToken(n, s, r);
      assert false;
    case _ =>
      WorkKeepsToken(n, s, step);
  }

  lemma InvKept(n: nat, s: State, step: Step)
    requires Inv(n, s) && Enabled(n, s, step)
    ensures Inv(n, Apply(n, s, step))
  {
    if Stopping(n, s) {
      StoppingKept(n, s, step);
    } else {
      match step
      case DoSendWork(r, d) =>
        WorkKeepsToken(n, s, step);
        SendWorkKeepsColours(n, s, r, d);
      case DoFinishWork(r) =>
        WorkKeepsToken(n, s, step);
        FinishWorkKeepsColours(n, s, r);
      case DoSend(r) => SendKeepsColours(n, s, r);
      case DoReceive(r) => ReceiveKeepsColours(n, s, r);
      case DoReap(r) =>
    }
  }

  lemma {:induction false} RunKeepsInv(n: nat, run: seq<State>, steps: seq<Step>, i: nat)
    requires Run(n, run, steps) && Inv(n, run[0]) && i <= |steps|
    ensures Inv(n, run[i])
  {
    if i > 0 {
      RunKeepsInv(n, run, steps, i - 1);
      InvKept(n, run[i - 1], steps[i - 1]);
    }
  }

  lemma ReachableInv(n: nat, s: State)
    requires Reachable(n, s)
    ensures Inv(n, s)
  {
    var run: seq<State>, steps: seq<Step> :| Run(n, run, steps) && Initial(n, run[0]) && run[|steps|] == s;
    InitialInv(n, run[0]);
    RunKeepsInv(n, run, steps, |steps|);
  }

  lemma ReachesFurther(n: nat, s: State, step: Step, s': State)
    requires Reachable(n, s) && Takes(n, s, step, s')
    ensures Reachable(n, s')
  {
    var run: seq<State>, steps: seq<Step> :| Run(n, run, steps) && Initial(n, run[0]) && run[|steps|] == s;
    var run', steps' := run + [s'], steps + [step];
    forall i: nat | i < |steps'| ensures Takes(n, run'[i], steps'[i], run'[i + 1]) {
      if i < |steps| {
        assert steps'[i] == steps[i];
      }
    }
    assert Run(n, run', steps') && Initial(n, run'[0]) && run'[|steps'|] == s';
  }

  // ----- results -----

  /** At any moment exactly one token exists: one rank holds it, or it is the only message in flight. */
  lemma ExactlyOneToken(n: nat, s: State)
    requires Reachable(n, s)
    ensures s.place.Held? ==>
              && s.place.at < n && s.ranks[s.place.at].holds
              && (forall r: nat | r < n && s.ranks[r].holds :: r == s.place.at)
              && Silent(n, s.chan)
    ensures s.place.Flying? ==>
              && s.place.from < n && |At(s.chan, s.place.from, Next(n, s.place.from))| == 1
              && (forall r: nat | r < n :: !s.ranks[r].holds)
              && (forall a: nat, b: nat | a < n && b < n && At(s.chan, a, b) != [] ::
                    a == s.place.from && b == Next(n, s.place.from))
  {
    ReachableInv(n, s);
    forall r: nat | r < n ensures s.ranks[r].holds == (s.place == Held(r)) {
      assert HolderOk(n, s, r);
    }
    forall a: nat, b: nat | a < n && b < n
      ensures |At(s.chan, a, b)| == if s.place == Flying(a) && b == Next(n, a) then 1 else 0
    {
      assert LinkOk(n, s, a, b);
    }
  }

  /** MPI_Wait on the previous token send, which follows the receive, never blocks: the message has
      been received. */
  lemma WaitNeverBlocks(n: nat, s: State, r: nat)
    requires Reachable(n, s) && CanReceive(n, s, r)
    ensures At(Take(s.chan, Prev(n, r), r), r, Next(n, r)) == []
  {
    ReachableInv(n, s);
    ReceivesToken(n, s, r);
    assert LinkOk(n, s, r, Next(n, r));
  }

  /** A token send never overwrites the request of one that is not complete. */
  lemma SendSlotIsFree(n: nat, s: State, r: nat)
    requires Reachable(n, s) && CanSend(n, s, r)
    ensures !s.ranks[r].pending
  {
    ReachableInv(n, s);
    SendKeepsToken(n, s, r);
  }

  /** When rank 0 receives a white token, or any rank the TERMINATE token, every rank is idle. */
  lemma RingSafety(n: nat, s: State, r: nat)
    requires Reachable(n, s) && CanReceive(n, s, r) && Stops(r, At(s.chan, Prev(n, r), r)[0])
    ensures forall q: nat | q < n :: !s.ranks[q].busy
  {
    ReachableInv(n, s);
    ReceivesToken(n, s, r);
    if Searching(n, s) {
      forall q: nat | q < n ensures !s.ranks[q].busy {
        WhiteMeansIdle(n, s, q);
      }
    }
  }

  /** Once a rank has stopped, every rank is idle and stays so. */
  lemma StoppedMeansIdle(n: nat, s: State, r: nat, q: nat)
    requires Reachable(n, s) && r < n && q < n && s.ranks[r].proc == Terminate
    ensures !s.ranks[q].busy
  {
    ReachableInv(n, s);
  }

  // ----- detection -----

  ghost predicate AllIdle(n: nat, s: State)
    requires Shape(n, s)
  {
    forall r: nat | r < n :: !s.ranks[r].busy
  }

  /** Since everybody was idle at lap `l`, the first whole lap leaves behind it ranks that will not
      make the token black. */
  ghost predicate CleanOk(n: nat, s: State, l: nat, r: nat)
    requires Shape(n, s) && r < n
  {
    r >= 1 && (s.laps >= l + 2 || (s.laps == l + 1 && r < Visited(s))) ==> s.ranks[r].proc != Black
  }

  ghost predicate Cleaning(n: nat, s: State, l: nat)
    requires OneToken(n, s)
  {
    && AllIdle(n, s) && s.laps >= l
    && (forall r: nat | r < n :: CleanOk(n, s, l, r))
    && (s.laps >= l + 2 && s.place != Held(0) ==> Token(n, s) != Black)
    && (s.laps > l + 2 ==> Stopping(n, s))
  }

  lemma CleaningKept(n: nat, s: State, step: Step, l: nat)
    requires Inv(n, s) && Cleaning(n, s, l) && Enabled(n, s, step)
    ensures Inv(n, Apply(n, s, step)) && Cleaning(n, Apply(n, s, step), l)
  {
    InvKept(n, s, step);
    match step {
      case DoReceive(r) =>
        ReceivesToken(n, s, r);
        ReceiveKeepsToken(n, s, r);
      case DoSend(r) =>
        SendKeepsToken(n, s, r);
        assert CleanOk(n, s, l, r);
      case _ => WorkKeepsToken(n, s, step);
    }
    var s' := Apply(n, s, step);
    forall r: nat | r < n ensures CleanOk(n, s', l, r) {
      assert CleanOk(n, s, l, r);
    }
  }

  lemma {:induction false} RunCleans(n: nat, run: seq<State>, steps: seq<Step>, i: nat)
    requires Run(n, run, steps) && Inv(n, run[0]) && AllIdle(n, run[0]) && i <= |steps|
    ensures Inv(n, run[i]) && Cleaning(n, run[i], run[0].laps)
  {
    if i > 0 {
      RunCleans(n, run, steps, i - 1);
      CleaningKept(n, run[i - 1], steps[i - 1], run[0].laps);
    }
  }

  /** Once every rank is idle, at most two more tokens come back to rank 0 black: the third one is
      white, and rank 0 stops. */
  lemma DetectedInThirdLap(n: nat, run: seq<State>, steps: seq<Step>, i: nat)
    requires Run(n, run, steps) && Reachable(n, run[0]) && AllIdle(n, run[0])
    requires i < |steps| && steps[i] == DoReceive(0) && run[i].laps >= run[0].laps + 2
    ensures run[i + 1].ranks[0].proc == Terminate
  {
    ReachableInv(n, run[0]);
    RunCleans(n, run, steps, i);
    ReceivesToken(n, run[i], 0);
  }

  /** As long as some rank has not stopped and all are idle, the token can move. */
  lemma TokenMoves(n: nat, s: State, q: nat)
    requires Reachable(n, s) && AllIdle(n, s) && q < n && s.ranks[q].proc != Terminate
    ensures match s.place
            case Held(at) => CanSend(n, s, at)
            case Flying(from) => from < n && CanReceive(n, s, Next(n, from))
  {
    ReachableInv(n, s);
    match s.place
    case Held(at) => assert HolderOk(n, s, at);
    case Flying(from) =>
      assert LinkOk(n, s, from, Next(n, from)) && HolderOk(n, s, Next(n, from));
      assert Prev(n, Next(n, from)) == from;
  }

  // ----- why a rank is black -----

  /** Work that is sent backwards, past the token, or to the rank before. */
  predicate Backwards(n: nat, r: nat, d: nat)
    requires r < n
  {
    d < r || d == Prev(n, r)
  }

  /** Step `i` sends work of `r` backwards. */
  ghost predicate SendsBack(n: nat, steps: seq<Step>, r: nat, i: nat) {
    && i < |steps| && r < n
    && match steps[i]
       case DoSendWork(r', d) => r' == r && Backwards(n, r, d)
       case _ => false
  }

  lemma StaysWhite(n: nat, s: State, step: Step, s': State, r: nat)
    requires Takes(n, s, step, s') && r < n && s.ranks[r].proc != Black
    requires match step case DoSendWork(r', d) => r' == r ==> !Backwards(n, r, d) case _ => true
    ensures s'.ranks[r].proc != Black
  {
  }

  /** A rank is black only because it has sent work backwards. */
  lemma {:induction false} BlackHasSentBack(n: nat, run: seq<State>, steps: seq<Step>, r: nat, i: nat)
    requires Run(n, run, steps) && Initial(n, run[0]) && i <= |steps| && r < n
    ensures Shape(n, run[i])
    ensures run[i].ranks[r].proc == Black ==> exists j: nat :: j < i && SendsBack(n, steps, r, j)
  {
    if i > 0 {
      BlackHasSentBack(n, run, steps, r, i - 1);
      assert Takes(n, run[i - 1], steps[i - 1], run[i]);
      if !SendsBack(n, steps, r, i - 1) && run[i - 1].ranks[r].proc != Black {
        StaysWhite(n, run[i - 1], steps[i - 1], run[i], r);
      }
    }
  }

  /** A rank that receives a black token is not black after it: the token says already what it would. */
  lemma BlackTokenWhitens(n: nat, s: State, r: nat)
    requires OneToken(n, s) && CanReceive(n, s, r) && Token(n, s) == Black
    ensures Receive(n, s, r).ranks[r].proc != Black && Receive(n, s, r).ranks[r].buf == Black
  {
    ReceivesToken(n, s, r);
  }
}
