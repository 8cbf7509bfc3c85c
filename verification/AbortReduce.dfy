/** The final allreduce of the abort flags (CIRCLE_abort_reduce in libcircle/token.c).

    It is one round of the handshake over the tree, with receives that name their source and
    block; the ranks run at arbitrary speeds.  A rank enters when it has done with everything
    before, while others may still be busy with it; its tag, ABORT_REDUCE, is used for nothing
    else.  A rank whose round is 1 has finished.
 */
module AbortReduce {
  import opened Channels
  import opened Tree
  import opened TreeInit
  import H = Handshake

  datatype State = State(entered: seq<bool>, nodes: seq<H.Node>, flags: seq<bool>, chan: Chan<bool>)

  ghost predicate Shape(cfg: Config, s: State) {
    H.Shape(cfg, s.nodes) && |s.flags| == cfg.n && |s.entered| == cfg.n
  }

  ghost predicate Running(s: State, p: nat) {
    p < |s.nodes| && s.nodes[p].round == 0
  }

  // ----- the steps -----

  datatype Step = Enter | Gather | SendUp | Root | Result

  /** The child that `p` receives from next. */
  ghost function NextChild(cfg: Config, s: State, p: nat): (c: nat)
    requires Shape(cfg, s) && p < cfg.n && s.nodes[p].replies < |Kids(cfg, p)|
    ensures c in Kids(cfg, p) && c == p * cfg.k + 1 + s.nodes[p].replies
  {
    ChildListIsKids(cfg, p);
    MulMono(0, p, cfg.k);
    ChildList(cfg, p)[s.nodes[p].replies]
  }

  ghost predicate Enabled(cfg: Config, s: State, p: nat, step: Step)
    requires Shape(cfg, s)
  {
    && p < cfg.n && Running(s, p) && s.entered[p] == !step.Enter?
    && match step
       case Enter => true
       case Gather =>
         && !s.nodes[p].up && s.nodes[p].replies < |Kids(cfg, p)|
         && At(s.chan, NextChild(cfg, s, p), p) != []
       case SendUp => p >= 1 && H.Ready(cfg, s.nodes, p)
       case Root => p == 0 && H.Ready(cfg, s.nodes, p)
       case Result => H.CanFall(cfg, s.nodes, s.chan, p)
  }

  ghost function Apply(cfg: Config, s: State, p: nat, step: Step): (s': State)
    requires Shape(cfg, s) && Enabled(cfg, s, p, step)
    ensures Shape(cfg, s')
  {
    match step
    case Enter => s.(entered := s.entered[p := true])
    case Gather =>
      var c := NextChild(cfg, s, p);
      State(s.entered, s.nodes[p := H.Count(s.nodes[p])], s.flags[p := s.flags[p] || At(s.chan, c, p)[0]],
            Take(s.chan, c, p))
    case SendUp =>
      State(s.entered, s.nodes[p := H.Raise(s.nodes[p])], s.flags, Post(s.chan, p, Parent(cfg, p), s.flags[p]))
    case Root =>
      State(s.entered, s.nodes[0 := H.Complete(s.nodes[0])], s.flags, Cast(s.chan, 0, Kids(cfg, 0), s.flags[0]))
    case Result =>
      var m := At(s.chan, Parent(cfg, p), p)[0];
      State(s.entered, s.nodes[p := H.Complete(s.nodes[p])], s.flags[p := m],
            Cast(Take(s.chan, Parent(cfg, p), p), p, Kids(cfg, p), m))
  }

  ghost predicate Initial(cfg: Config, flags: seq<bool>, s: State) {
    && Shape(cfg, s) && s.flags == flags && s.chan == map[]
    && forall p: nat | p < cfg.n :: s.nodes[p] == H.START && !s.entered[p]
  }

  ghost predicate Takes(cfg: Config, s: State, p: nat, step: Step, s': State) {
    Shape(cfg, s) && Enabled(cfg, s, p, step) && s' == Apply(cfg, s, p, step)
  }

  ghost predicate Run(cfg: Config, run: seq<State>, steps: seq<(nat, Step)>) {
    && |run| == |steps| + 1
    && forall i: nat {:trigger steps[i]} | i < |steps| :: Takes(cfg, run[i], steps[i].0, steps[i].1, run[i + 1])
  }

  ghost predicate Reachable(cfg: Config, flags: seq<bool>, s: State) {
    exists run: seq<State>, steps: seq<(nat, Step)> ::
      Run(cfg, run, steps) && Initial(cfg, flags, run[0]) && run[|steps|] == s
  }

  // ----- the invariant -----

  /** `y` is `p`, or below a child whose message `p` has received. */
  ghost predicate Gathered(cfg: Config, s: State, p: nat, y: nat)
    requires Shape(cfg, s) && p < cfg.n
  {
    && y < cfg.n
    && (y == p || (Above(cfg, p, y) && H.Phase(cfg, s.nodes, s.chan, ChildToward(cfg, p, y)) == H.Counted))
  }

  ghost predicate AnyGathered(cfg: Config, flags: seq<bool>, s: State, p: nat)
    requires Shape(cfg, s) && p < cfg.n && |flags| == cfg.n
  {
    exists y: nat :: Gathered(cfg, s, p, y) && flags[y]
  }

  /** Some rank of the subtree of `c` has its flag set. */
  ghost predicate AnyBelow(cfg: Config, flags: seq<bool>, c: nat)
    requires cfg.Valid() && |flags| == cfg.n
  {
    exists y: nat :: y < cfg.n && Above(cfg, c, y) && flags[y]
  }

  ghost predicate RankOk(cfg: Config, flags: seq<bool>, s: State, p: nat)
    requires Shape(cfg, s) && p < cfg.n && |flags| == cfg.n
  {
    && s.nodes[p].round <= 1 && (s.nodes[p].round == 1 ==> !s.nodes[p].up) && (s.nodes[p].up ==> s.entered[p])
    && s.flags[p] == if s.nodes[p].round == 0 then AnyGathered(cfg, flags, s, p) else AnyBelow(cfg, flags, 0)
  }

  ghost predicate MessageOk(cfg: Config, flags: seq<bool>, s: State, c: nat)
    requires Shape(cfg, s) && 1 <= c < cfg.n && |flags| == cfg.n
  {
    var p := Parent(cfg, c);
    match H.Phase(cfg, s.nodes, s.chan, c)
    case Waiting => true
    case Rising => At(s.chan, c, p) == [AnyBelow(cfg, flags, c)]
    case Counted => true
    case Falling => At(s.chan, p, c) == [AnyBelow(cfg, flags, 0)]
  }

  /** Children are received in the order of the list. */
  ghost predicate InOrder(cfg: Config, s: State, c: nat)
    requires Shape(cfg, s) && 1 <= c < cfg.n
  {
    H.Phase(cfg, s.nodes, s.chan, c) == H.Counted <==>
    c - (Parent(cfg, c) * cfg.k + 1) < s.nodes[Parent(cfg, c)].replies
  }

  ghost predicate Inv(cfg: Config, flags: seq<bool>, s: State) {
    && Shape(cfg, s) && |flags| == cfg.n
    && H.Inv(cfg, s.nodes, s.chan)
    && (forall p: nat | p < cfg.n :: RankOk(cfg, flags, s, p))
    && (forall c: nat | 1 <= c < cfg.n :: MessageOk(cfg, flags, s, c))
    && (forall c: nat | 1 <= c < cfg.n :: InOrder(cfg, s, c))
  }

  // ----- what each step does to the phases -----

  ghost function PhaseAfter(cfg: Config, s: State, p: nat, step: Step, c: nat): H.EdgePhase
    requires Shape(cfg, s) && Enabled(cfg, s, p, step) && 1 <= c < cfg.n
  {
    var was := H.Phase(cfg, s.nodes, s.chan, c);
    match step
    case Enter => was
    case Gather => if c == NextChild(cfg, s, p) then H.Counted else was
    case SendUp => if c == p then H.Rising else was
    case Root => if c in Kids(cfg, 0) then H.Falling else was
    case Result => if c in Kids(cfg, p) then H.Falling else if c == p then H.Waiting else was
  }

  lemma PhasesFollow(cfg: Config, s: State, p: nat, step: Step, c: nat)
    requires Shape(cfg, s) && H.Inv(cfg, s.nodes, s.chan) && Enabled(cfg, s, p, step) && 1 <= c < cfg.n
    ensures var s' := Apply(cfg, s, p, step);
            H.Phase(cfg, s'.nodes, s'.chan, c) == PhaseAfter(cfg, s, p, step, c)
  {
    assert H.EdgeOk(cfg, s.nodes, s.chan, c) && H.NodeOk(cfg, s.nodes, s.chan, p);
    match step {
      case Enter =>
      case Gather => H.CountsChild(cfg, s.nodes, s.chan, p, NextChild(cfg, s, p));
      case SendUp =>
      case Root => H.ScatterEdge(cfg, s.nodes, s.chan, 0, s.chan, s.flags[0], c);
      case Result =>
        var m := At(s.chan, Parent(cfg, p), p)[0];
        H.ScatterEdge(cfg, s.nodes, s.chan, p, Take(s.chan, Parent(cfg, p), p), m, c);
    }
  }

  lemma HandshakeKept(cfg: Config, s: State, p: nat, step: Step)
    requires Shape(cfg, s) && H.Inv(cfg, s.nodes, s.chan) && Enabled(cfg, s, p, step)
    ensures H.Inv(cfg, Apply(cfg, s, p, step).nodes, Apply(cfg, s, p, step).chan)
  {
    assert H.NodeOk(cfg, s.nodes, s.chan, p);
    match step {
      case Enter =>
      case Gather => H.CountKeepsInv(cfg, s.nodes, s.chan, p, NextChild(cfg, s, p));
      case SendUp => H.RaiseKeepsInv(cfg, s.nodes, s.chan, p, s.flags[p]);
      case Root => H.ScatterKeepsInv(cfg, s.nodes, s.chan, 0, s.chan, s.flags[0]);
      case Result =>
        var m := At(s.chan, Parent(cfg, p), p)[0];
        H.ScatterKeepsInv(cfg, s.nodes, s.chan, p, Take(s.chan, Parent(cfg, p), p), m);
    }
  }

  // ----- what each step does to the flags -----

  lemma AllGathered(cfg: Config, flags: seq<bool>, s: State, p: nat)
    requires Inv(cfg, flags, s) && p < cfg.n && s.nodes[p].replies == |Kids(cfg, p)|
    ensures AnyGathered(cfg, flags, s, p) <==> AnyBelow(cfg, flags, p)
  {
    forall y: nat | y < cfg.n ensures Gathered(cfg, s, p, y) <==> Above(cfg, p, y) {
      if Above(cfg, p, y) && y != p {
        H.UpMeansCounted(cfg, s.nodes, s.chan, p, ChildToward(cfg, p, y));
      }
    }
  }

  /** A rank gathers as before as long as the same children are counted. */
  lemma SameGathered(cfg: Config, flags: seq<bool>, s: State, s': State, q: nat)
    requires Shape(cfg, s) && Shape(cfg, s') && q < cfg.n && |flags| == cfg.n
    requires forall c: nat | c in Kids(cfg, q) ::
               H.Phase(cfg, s'.nodes, s'.chan, c) == H.Counted <==> H.Phase(cfg, s.nodes, s.chan, c) == H.Counted
    ensures AnyGathered(cfg, flags, s', q) <==> AnyGathered(cfg, flags, s, q)
  {
    forall y: nat ensures Gathered(cfg, s', q, y) <==> Gathered(cfg, s, q, y) {
      if y < cfg.n && y != q && Above(cfg, q, y) {
        assert ChildToward(cfg, q, y) in Kids(cfg, q);
      }
    }
  }

  lemma GatherFlag(cfg: Config, flags: seq<bool>, s: State, p: nat)
    requires Inv(cfg, flags, s) && Enabled(cfg, s, p, Gather)
    ensures var s' := Apply(cfg, s, p, Gather);
            AnyGathered(cfg, flags, s', p) <==>
              AnyGathered(cfg, flags, s, p) || AnyBelow(cfg, flags, NextChild(cfg, s, p))
  {
    var s', c := Apply(cfg, s, p, Gather), NextChild(cfg, s, p);
    forall y: nat | y < cfg.n
      ensures Gathered(cfg, s', p, y) <==> Gathered(cfg, s, p, y) || Above(cfg, c, y)
    {
      BelowChild(cfg, p, c, y);
      if y != p && Above(cfg, p, y) {
        PhasesFollow(cfg, s, p, Gather, ChildToward(cfg, p, y));
      }
    }
  }

  /** The message a rank receives is right. */
  lemma GatherMessage(cfg: Config, flags: seq<bool>, s: State, p: nat)
    requires Inv(cfg, flags, s) && Enabled(cfg, s, p, Gather)
    ensures At(s.chan, NextChild(cfg, s, p), p)[0] == AnyBelow(cfg, flags, NextChild(cfg, s, p))
  {
    var c := NextChild(cfg, s, p);
    H.CountsChild(cfg, s.nodes, s.chan, p, c);
    assert MessageOk(cfg, flags, s, c);
  }

  lemma ResultMessage(cfg: Config, flags: seq<bool>, s: State, p: nat)
    requires Inv(cfg, flags, s) && Enabled(cfg, s, p, Result)
    ensures H.Phase(cfg, s.nodes, s.chan, p) == H.Falling
    ensures At(s.chan, Parent(cfg, p), p)[0] == AnyBelow(cfg, flags, 0)
  {
    assert H.EdgeOk(cfg, s.nodes, s.chan, p) && MessageOk(cfg, flags, s, p);
  }

  lemma RankKept(cfg: Config, flags: seq<bool>, s: State, p: nat, step: Step, q: nat)
    requires Inv(cfg, flags, s) && Enabled(cfg, s, p, step) && q < cfg.n
    ensures RankOk(cfg, flags, Apply(cfg, s, p, step), q)
  {
    var s' := Apply(cfg, s, p, step);
    assert RankOk(cfg, flags, s, q);
    if q == p {
      match step {
        case Gather =>
          GatherFlag(cfg, flags, s, p);
          GatherMessage(cfg, flags, s, p);
        case Enter | SendUp =>
          forall c: nat | c in Kids(cfg, p)
            ensures H.Phase(cfg, s'.nodes, s'.chan, c) == H.Phase(cfg, s.nodes, s.chan, c)
          {
            PhasesFollow(cfg, s, p, step, c);
          }
          SameGathered(cfg, flags, s, s', p);
        case Root => AllGathered(cfg, flags, s, 0);
        case Result => ResultMessage(cfg, flags, s, p);
      }
    } else {
      forall c: nat | c in Kids(cfg, q)
        ensures H.Phase(cfg, s'.nodes, s'.chan, c) == H.Counted <==> H.Phase(cfg, s.nodes, s.chan, c) == H.Counted
      {
        PhasesFollow(cfg, s, p, step, c);
        if step.Result? {
          ResultMessage(cfg, flags, s, p);
        }
      }
      SameGathered(cfg, flags, s, s', q);
    }
  }

  lemma MessageKept(cfg: Config, flags: seq<bool>, s: State, p: nat, step: Step, c: nat)
    requires Inv(cfg, flags, s) && Enabled(cfg, s, p, step) && 1 <= c < cfg.n
    ensures MessageOk(cfg, flags, Apply(cfg, s, p, step), c)
  {
    PhasesFollow(cfg, s, p, step, c);
    assert MessageOk(cfg, flags, s, c) && RankOk(cfg, flags, s, p) && H.EdgeOk(cfg, s.nodes, s.chan, c);
    match step
    case Enter =>
    case Gather =>
    case SendUp => AllGathered(cfg, flags, s, p);
    case Root =>
      AllGathered(cfg, flags, s, 0);
      if c in Kids(cfg, 0) {
        H.UpMeansCounted(cfg, s.nodes, s.chan, 0, c);
      }
    case Result =>
      ResultMessage(cfg, flags, s, p);
      assert H.NodeOk(cfg, s.nodes, s.chan, p);
      if c in Kids(cfg, p) {
        H.UpMeansCounted(cfg, s.nodes, s.chan, p, c);
      }
  }

  lemma OrderKept(cfg: Config, flags: seq<bool>, s: State, p: nat, step: Step, c: nat)
    requires Inv(cfg, flags, s) && Enabled(cfg, s, p, step) && 1 <= c < cfg.n
    ensures InOrder(cfg, Apply(cfg, s, p, step), c)
  {
    PhasesFollow(cfg, s, p, step, c);
    KidRange(cfg, Parent(cfg, c), c);
    assert InOrder(cfg, s, c) && H.EdgeOk(cfg, s.nodes, s.chan, c);
    if step.Result? {
      ResultMessage(cfg, flags, s, p);
    }
  }

  lemma InvKept(cfg: Config, flags: seq<bool>, s: State, p: nat, step: Step)
    requires Inv(cfg, flags, s) && Enabled(cfg, s, p, step)
    ensures Inv(cfg, flags, Apply(cfg, s, p, step))
  {
    var s' := Apply(cfg, s, p, step);
    HandshakeKept(cfg, s, p, step);
    forall q: nat | q < cfg.n ensures RankOk(cfg, flags, s', q) {
      RankKept(cfg, flags, s, p, step, q);
    }
    forall c: nat | 1 <= c < cfg.n ensures MessageOk(cfg, flags, s', c) && InOrder(cfg, s', c) {
      MessageKept(cfg, flags, s, p, step, c);
      OrderKept(cfg, flags, s, p, step, c);
    }
  }

  lemma InitialInv(cfg: Config, flags: seq<bool>, s: State)
    requires Initial(cfg, flags, s)
    ensures Inv(cfg, flags, s)
  {
    H.InitialInv(cfg, s.nodes, s.chan);
    forall p: nat | p < cfg.n ensures RankOk(cfg, flags, s, p) {
      if flags[p] {
        assert Gathered(cfg, s, p, p);
      }
    }
    forall c: nat | 1 <= c < cfg.n ensures InOrder(cfg, s, c) {
      KidRange(cfg, Parent(cfg, c), c);
    }
  }

  lemma TakesKeepsInv(cfg: Config, flags: seq<bool>, s: State, p: nat, step: Step, s': State)
    requires Inv(cfg, flags, s) && Takes(cfg, s, p, step, s')
    ensures Inv(cfg, flags, s')
  {
    InvKept(cfg, flags, s, p, step);
  }

  lemma {:induction false} RunKeepsInv(cfg: Config, flags: seq<bool>, run: seq<State>, steps: seq<(nat, Step)>, i: nat)
    requires Run(cfg, run, steps) && Inv(cfg, flags, run[0]) && i <= |steps|
    ensures Inv(cfg, flags, run[i])
  {
    if i > 0 {
      RunKeepsInv(cfg, flags, run, steps, i - 1);
      TakesKeepsInv(cfg, flags, run[i - 1], steps[i - 1].0, steps[i - 1].1, run[i]);
    }
  }

  lemma ReachableInv(cfg: Config, flags: seq<bool>, s: State)
    requires Reachable(cfg, flags, s)
    ensures Inv(cfg, flags, s)
  {
    var run: seq<State>, steps: seq<(nat, Step)> :|
      Run(cfg, run, steps) && Initial(cfg, flags, run[0]) && run[|steps|] == s;
    InitialInv(cfg, flags, run[0]);
    RunKeepsInv(cfg, flags, run, steps, |steps|);
  }

  // ----- results -----

  /** A rank that has finished holds the OR of the flags of all ranks. */
  lemma FinishedHoldsOr(cfg: Config, flags: seq<bool>, s: State, p: nat)
    requires Reachable(cfg, flags, s) && Shape(cfg, s) && |flags| == cfg.n && p < cfg.n && !Running(s, p)
    ensures s.flags[p] <==> exists y: nat :: y < cfg.n && flags[y]
  {
    ReachableInv(cfg, flags, s);
    assert RankOk(cfg, flags, s, p);
    forall y: nat ensures Above(cfg, 0, y) {
      RootAboveAll(cfg, y);
    }
  }

  /** When all have finished, no message is left. */
  lemma NothingLeft(cfg: Config, flags: seq<bool>, s: State)
    requires Reachable(cfg, flags, s) && Shape(cfg, s) && forall p: nat | p < cfg.n :: !Running(s, p)
    ensures Silent(cfg.n, s.chan)
  {
    ReachableInv(cfg, flags, s);
    forall c: nat | 1 <= c < cfg.n ensures At(s.chan, c, Parent(cfg, c)) == [] == At(s.chan, Parent(cfg, c), c) {
      EdgeIsSilent(cfg, flags, s, c);
    }
    forall a: nat, b: nat | a < cfg.n && b < cfg.n ensures At(s.chan, a, b) == [] {
      assert a in Kids(cfg, b) || b in Kids(cfg, a) || !H.IsEdge(cfg, a, b);
    }
  }

  lemma EdgeIsSilent(cfg: Config, flags: seq<bool>, s: State, c: nat)
    requires Inv(cfg, flags, s) && 1 <= c < cfg.n && forall p: nat | p < cfg.n :: !Running(s, p)
    ensures At(s.chan, c, Parent(cfg, c)) == [] == At(s.chan, Parent(cfg, c), c)
  {
    var p := Parent(cfg, c);
    assert H.EdgeOk(cfg, s.nodes, s.chan, c);
    assert RankOk(cfg, flags, s, c) && RankOk(cfg, flags, s, p);
    assert !Running(s, c) && !Running(s, p);
  }

  // ----- progress -----

  /** The rank that is last among those that have not sent up. */
  lemma LastToSend(cfg: Config, s: State, p: nat) returns (q: nat)
    requires Shape(cfg, s) && p < cfg.n && Running(s, p) && !s.nodes[p].up
    ensures q < cfg.n && Running(s, q) && !s.nodes[q].up
    ensures forall r: nat | q < r < cfg.n :: !Running(s, r) || s.nodes[r].up
    decreases cfg.n - p
  {
    if r: nat :| p < r < cfg.n && Running(s, r) && !s.nodes[r].up {
      q := LastToSend(cfg, s, r);
    } else {
      q := p;
    }
  }

  /** It can enter, or receive from its next child, or send up. */
  lemma LastCanMove(cfg: Config, flags: seq<bool>, s: State, q: nat) returns (step: Step)
    requires Inv(cfg, flags, s) && q < cfg.n && Running(s, q) && !s.nodes[q].up
    requires forall r: nat | q < r < cfg.n :: !Running(s, r) || s.nodes[r].up
    ensures Enabled(cfg, s, q, step)
  {
    assert H.NodeOk(cfg, s.nodes, s.chan, q);
    if !s.entered[q] {
      step := Enter;
    } else if s.nodes[q].replies == |Kids(cfg, q)| {
      step := if q == 0 then Root else SendUp;
    } else {
      SubsetCard(H.CountedKids(cfg, s.nodes, s.chan, q), Kids(cfg, q));
      step := Gather;
      var c := NextChild(cfg, s, q);
      assert InOrder(cfg, s, c) && H.EdgeOk(cfg, s.nodes, s.chan, c);
    }
  }

  /** If all running ranks have sent up, the answer has reached one of them. */
  lemma {:induction false} AnswerReachesSomebody(cfg: Config, flags: seq<bool>, s: State, p: nat) returns (q: nat)
    requires Inv(cfg, flags, s) && p < cfg.n && Running(s, p)
    requires forall r: nat | r < cfg.n && Running(s, r) :: s.nodes[r].up
    ensures Enabled(cfg, s, q, Result)
    decreases p
  {
    assert H.EdgeOk(cfg, s.nodes, s.chan, p) && RankOk(cfg, flags, s, p);
    if Running(s, Parent(cfg, p)) {
      q := AnswerReachesSomebody(cfg, flags, s, Parent(cfg, p));
    } else {
      q := p;
    }
  }

  /** No deadlock: as long as some rank has not finished, some rank can make a step. */
  lemma NeverStuck(cfg: Config, flags: seq<bool>, s: State, p: nat) returns (q: nat, step: Step)
    requires Reachable(cfg, flags, s) && Shape(cfg, s) && p < cfg.n && Running(s, p)
    ensures Enabled(cfg, s, q, step)
  {
    ReachableInv(cfg, flags, s);
    if r: nat :| r < cfg.n && Running(s, r) && !s.nodes[r].up {
      q := LastToSend(cfg, s, r);
      step := LastCanMove(cfg, flags, s, q);
    } else {
      q := AnswerReachesSomebody(cfg, flags, s, p);
      step := Result;
    }
  }
}
