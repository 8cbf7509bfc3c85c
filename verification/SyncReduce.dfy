/** The final reduction (CIRCLE_reduce_sync in libcircle/token.c): every rank receives the result
    of each of its children in turn, combines it with its own, and sends one result up.

    Receives name their source and block; the ranks run at arbitrary speeds.  A rank enters when
    its cleanup loop ends, after its parent's has (`Safety.FinishedGoesDown`), while other ranks
    may still be in theirs.  The user's reduce callback is an arbitrary function of the two buffers.
 */
module SyncReduce {
  import opened Channels
  import opened Tree
  import opened TreeInit
  import opened Network

  type Data = seq<char>

  /** Objects processed, and the user's data. */
  datatype Value = Value(count: int, data: Data)

  datatype Message = Header(count: int, bytes: nat) | Payload(data: Data)

  type Operator = (Data, Data) -> Data

  function Combine(op: Operator, a: Value, b: Value): Value {
    Value(a.count + b.count, op(a.data, b.data))
  }

  /** A result as it is sent: the payload follows if there is any. */
  function Frame(v: Value): seq<Message> {
    [Header(v.count, |v.data|)] + if |v.data| > 0 then [Payload(v.data)] else []
  }

  // ----- what is to be computed -----

  /** The value of rank `p` combined with those of its first `i` children, in order. */
  function Partial(cfg: Config, op: Operator, inputs: seq<Value>, p: nat, i: nat): Value
    requires cfg.Valid() && |inputs| == cfg.n && p < cfg.n && i <= ChildCount(cfg, p)
    decreases cfg.n - p, i
  {
    if i == 0 then inputs[p]
    else
      var c := ChildAt(cfg, p, i - 1);
      Combine(op, Partial(cfg, op, inputs, p, i - 1), Fold(cfg, op, inputs, c))
  }

  /** The value of the subtree of `p`. */
  function Fold(cfg: Config, op: Operator, inputs: seq<Value>, p: nat): Value
    requires cfg.Valid() && |inputs| == cfg.n && p < cfg.n
    decreases cfg.n - p, cfg.k + 1
  {
    ChildListIsKids(cfg, p);
    Partial(cfg, op, inputs, p, ChildCount(cfg, p))
  }

  /** Child number `i` of rank `p`. */
  function ChildAt(cfg: Config, p: nat, i: nat): (c: nat)
    requires cfg.Valid() && i < ChildCount(cfg, p)
    ensures p < c < cfg.n && Parent(cfg, c) == p && c == ChildList(cfg, p)[i]
  {
    MulMono(0, p, cfg.k);
    var c := p * cfg.k + 1 + i;
    KidRange(cfg, p, c);
    c
  }

  /** The place of a rank among the children of its parent. */
  function Place(cfg: Config, c: nat): (i: nat)
    requires cfg.Valid() && 1 <= c < cfg.n
    ensures i < ChildCount(cfg, Parent(cfg, c)) && ChildAt(cfg, Parent(cfg, c), i) == c
  {
    KidRange(cfg, Parent(cfg, c), c);
    MulMono(0, Parent(cfg, c), cfg.k);
    c - (Parent(cfg, c) * cfg.k + 1)
  }

  // ----- the state machine -----

  datatype Rank = Rank(entered: bool, got: nat, sent: bool, val: Value)

  datatype State = State(ranks: seq<Rank>, chan: Chan<Message>)

  ghost predicate Shape(cfg: Config, s: State) {
    cfg.Valid() && |s.ranks| == cfg.n
  }

  /** The rank's cleanup loop ends; its parent's has ended before. */
  ghost predicate CanEnter(cfg: Config, s: State, p: nat)
    requires Shape(cfg, s)
  {
    p < cfg.n && !s.ranks[p].entered && (p >= 1 ==> s.ranks[Parent(cfg, p)].entered)
  }

  ghost function Enter(cfg: Config, s: State, p: nat): State
    requires Shape(cfg, s) && CanEnter(cfg, s, p)
  {
    s.(ranks := s.ranks[p := s.ranks[p].(entered := true)])
  }

  /** The next child's whole result has been posted. */
  ghost predicate CanGather(cfg: Config, s: State, p: nat)
    requires Shape(cfg, s)
  {
    && p < cfg.n && s.ranks[p].entered && !s.ranks[p].sent && s.ranks[p].got < ChildCount(cfg, p)
    && var ms := At(s.chan, ChildAt(cfg, p, s.ranks[p].got), p);
       && ms != [] && ms[0].Header?
       && (ms[0].bytes > 0 ==> |ms| >= 2 && ms[1].Payload?)
  }

  ghost function Gather(cfg: Config, op: Operator, s: State, p: nat): State
    requires Shape(cfg, s) && CanGather(cfg, s, p)
  {
    var c := ChildAt(cfg, p, s.ranks[p].got);
    var ms := At(s.chan, c, p);
    var v := Value(ms[0].count, if ms[0].bytes > 0 then ms[1].data else []);
    var rest := ms[if ms[0].bytes > 0 then 2 else 1..];
    State(s.ranks[p := Rank(true, s.ranks[p].got + 1, false, Combine(op, s.ranks[p].val, v))],
          s.chan[Link(c, p) := rest])
  }

  ghost predicate CanFinish(cfg: Config, s: State, p: nat)
    requires Shape(cfg, s)
  {
    p < cfg.n && s.ranks[p].entered && !s.ranks[p].sent && s.ranks[p].got == ChildCount(cfg, p)
  }

  /** Send the result up; the root delivers it. */
  ghost function Finish(cfg: Config, s: State, p: nat): State
    requires Shape(cfg, s) && CanFinish(cfg, s, p)
  {
    State(s.ranks[p := s.ranks[p].(sent := true)],
          if p == 0 then s.chan
          else s.chan[Link(p, Parent(cfg, p)) := At(s.chan, p, Parent(cfg, p)) + Frame(s.ranks[p].val)])
  }

  ghost predicate Initial(cfg: Config, inputs: seq<Value>, s: State) {
    && Shape(cfg, s) && |inputs| == cfg.n && s.chan == map[]
    && forall p: nat | p < cfg.n :: s.ranks[p] == Rank(false, 0, false, inputs[p])
  }

  ghost predicate Takes(cfg: Config, op: Operator, s: State, p: nat, s': State) {
    && Shape(cfg, s)
    && ((CanEnter(cfg, s, p) && s' == Enter(cfg, s, p))
        || (CanGather(cfg, s, p) && s' == Gather(cfg, op, s, p))
        || (CanFinish(cfg, s, p) && s' == Finish(cfg, s, p)))
  }

  /** `who[i]` is the rank that makes step `i`. */
  ghost predicate Run(cfg: Config, op: Operator, run: seq<State>, who: seq<nat>) {
    && |run| == |who| + 1
    && forall i: nat {:trigger who[i]} | i < |who| :: Takes(cfg, op, run[i], who[i], run[i + 1])
  }

  ghost predicate Reachable(cfg: Config, op: Operator, inputs: seq<Value>, s: State) {
    exists run: seq<State>, who: seq<nat> ::
      Run(cfg, op, run, who) && Initial(cfg, inputs, run[0]) && run[|who|] == s
  }

  // ----- the invariant -----

  ghost predicate RankOk(cfg: Config, op: Operator, inputs: seq<Value>, s: State, p: nat)
    requires Shape(cfg, s) && |inputs| == cfg.n && p < cfg.n
  {
    var r := s.ranks[p];
    && r.got <= ChildCount(cfg, p)
    && (r.sent ==> r.got == ChildCount(cfg, p))
    && r.val == Partial(cfg, op, inputs, p, r.got)
  }

  /** A result is in flight from a child that has sent it to a parent that has not received it. */
  ghost predicate LinkOk(cfg: Config, op: Operator, inputs: seq<Value>, s: State, a: nat, b: nat)
    requires Shape(cfg, s) && |inputs| == cfg.n && a < cfg.n && b < cfg.n
  {
    At(s.chan, a, b) ==
    if a >= 1 && b == Parent(cfg, a) && s.ranks[a].sent && s.ranks[b].got <= Place(cfg, a)
    then Frame(Fold(cfg, op, inputs, a)) else []
  }

  /** Only a rank that has sent can have been received, and only one that has entered, after its
      parent, can have sent. */
  ghost predicate SentFirst(cfg: Config, s: State, c: nat)
    requires Shape(cfg, s) && 1 <= c < cfg.n
  {
    && (!s.ranks[c].sent ==> s.ranks[Parent(cfg, c)].got <= Place(cfg, c))
    && (s.ranks[c].sent ==> s.ranks[c].entered)
    && (s.ranks[c].entered ==> s.ranks[Parent(cfg, c)].entered)
  }

  ghost predicate Inv(cfg: Config, op: Operator, inputs: seq<Value>, s: State) {
    && Shape(cfg, s) && |inputs| == cfg.n
    && (forall p: nat | p < cfg.n :: RankOk(cfg, op, inputs, s, p))
    && (forall c: nat | 1 <= c < cfg.n :: SentFirst(cfg, s, c))
    && (forall a: nat, b: nat | a < cfg.n && b < cfg.n :: LinkOk(cfg, op, inputs, s, a, b))
  }

  lemma SamePlace(cfg: Config, p: nat, a: nat, i: nat)
    requires cfg.Valid() && i < ChildCount(cfg, p) && 1 <= a < cfg.n && Parent(cfg, a) == p
    ensures a == ChildAt(cfg, p, i) <==> Place(cfg, a) == i
  {
  }

  lemma EnterKeepsInv(cfg: Config, op: Operator, inputs: seq<Value>, s: State, p: nat)
    requires Inv(cfg, op, inputs, s) && CanEnter(cfg, s, p)
    ensures Inv(cfg, op, inputs, Enter(cfg, s, p))
  {
    var s' := Enter(cfg, s, p);
    forall q: nat | q < cfg.n ensures RankOk(cfg, op, inputs, s', q) {
      assert RankOk(cfg, op, inputs, s, q);
    }
    forall c: nat | 1 <= c < cfg.n ensures SentFirst(cfg, s', c) {
      assert SentFirst(cfg, s, c);
    }
    forall a: nat, b: nat | a < cfg.n && b < cfg.n ensures LinkOk(cfg, op, inputs, s', a, b) {
      assert LinkOk(cfg, op, inputs, s, a, b);
    }
  }

  /** What a rank receives from its next child is that child's result, whole. */
  lemma GathersFold(cfg: Config, op: Operator, inputs: seq<Value>, s: State, p: nat)
    requires Inv(cfg, op, inputs, s) && CanGather(cfg, s, p)
    ensures var i := s.ranks[p].got; var c := ChildAt(cfg, p, i);
            && s.ranks[c].sent && At(s.chan, c, p) == Frame(Fold(cfg, op, inputs, c))
            && Gather(cfg, op, s, p) ==
               State(s.ranks[p := Rank(true, i + 1, false, Partial(cfg, op, inputs, p, i + 1))],
                     s.chan[Link(c, p) := []])
  {
    var c := ChildAt(cfg, p, s.ranks[p].got);
    assert LinkOk(cfg, op, inputs, s, c, p) && RankOk(cfg, op, inputs, s, p);
  }

  lemma GatherKeepsLink(cfg: Config, op: Operator, inputs: seq<Value>, s: State, p: nat, a: nat, b: nat)
    requires Inv(cfg, op, inputs, s) && CanGather(cfg, s, p) && a < cfg.n && b < cfg.n
    ensures LinkOk(cfg, op, inputs, Gather(cfg, op, s, p), a, b)
  {
    var i := s.ranks[p].got;
    GathersFold(cfg, op, inputs, s, p);
    assert LinkOk(cfg, op, inputs, s, a, b);
    if a >= 1 && Parent(cfg, a) == p {
      SamePlace(cfg, p, a, i);
    }
  }

  lemma GatherKeepsInv(cfg: Config, op: Operator, inputs: seq<Value>, s: State, p: nat)
    requires Inv(cfg, op, inputs, s) && CanGather(cfg, s, p)
    ensures Inv(cfg, op, inputs, Gather(cfg, op, s, p))
  {
    var s', i := Gather(cfg, op, s, p), s.ranks[p].got;
    GathersFold(cfg, op, inputs, s, p);
    forall q: nat | q < cfg.n ensures RankOk(cfg, op, inputs, s', q) {
      assert RankOk(cfg, op, inputs, s, q);
    }
    forall c: nat | 1 <= c < cfg.n ensures SentFirst(cfg, s', c) {
      assert SentFirst(cfg, s, c);
      if Parent(cfg, c) == p {
        SamePlace(cfg, p, c, i);
      }
    }
    forall a: nat, b: nat | a < cfg.n && b < cfg.n ensures LinkOk(cfg, op, inputs, s', a, b) {
      GatherKeepsLink(cfg, op, inputs, s, p, a, b);
    }
  }

  lemma FinishKeepsLink(cfg: Config, op: Operator, inputs: seq<Value>, s: State, p: nat, a: nat, b: nat)
    requires Inv(cfg, op, inputs, s) && CanFinish(cfg, s, p) && a < cfg.n && b < cfg.n
    ensures LinkOk(cfg, op, inputs, Finish(cfg, s, p), a, b)
  {
    assert LinkOk(cfg, op, inputs, s, a, b);
    if a == p {
      assert RankOk(cfg, op, inputs, s, p);
      assert s.ranks[p].val == Fold(cfg, op, inputs, p);
      if p >= 1 {
        assert SentFirst(cfg, s, p);
      }
    }
  }

  lemma FinishKeepsInv(cfg: Config, op: Operator, inputs: seq<Value>, s: State, p: nat)
    requires Inv(cfg, op, inputs, s) && CanFinish(cfg, s, p)
    ensures Inv(cfg, op, inputs, Finish(cfg, s, p))
  {
    var s' := Finish(cfg, s, p);
    assert RankOk(cfg, op, inputs, s, p);
    forall q: nat | q < cfg.n ensures RankOk(cfg, op, inputs, s', q) {
      assert RankOk(cfg, op, inputs, s, q);
    }
    forall c: nat | 1 <= c < cfg.n ensures SentFirst(cfg, s', c) {
      assert SentFirst(cfg, s, c);
    }
    forall a: nat, b: nat | a < cfg.n && b < cfg.n ensures LinkOk(cfg, op, inputs, s', a, b) {
      FinishKeepsLink(cfg, op, inputs, s, p, a, b);
    }
  }

  lemma {:induction false} RunKeepsInv(cfg: Config, op: Operator, inputs: seq<Value>, run: seq<State>,
                                       who: seq<nat>, i: nat)
    requires Run(cfg, op, run, who) && Inv(cfg, op, inputs, run[0]) && i <= |who|
    ensures Inv(cfg, op, inputs, run[i])
  {
    if i > 0 {
      RunKeepsInv(cfg, op, inputs, run, who, i - 1);
      var p := who[i - 1];
      if CanEnter(cfg, run[i - 1], p) {
        EnterKeepsInv(cfg, op, inputs, run[i - 1], p);
      }
      if CanGather(cfg, run[i - 1], p) {
        GatherKeepsInv(cfg, op, inputs, run[i - 1], p);
      }
      if CanFinish(cfg, run[i - 1], p) {
        FinishKeepsInv(cfg, op, inputs, run[i - 1], p);
      }
    }
  }

  lemma ReachableInv(cfg: Config, op: Operator, inputs: seq<Value>, s: State)
    requires Reachable(cfg, op, inputs, s)
    ensures Inv(cfg, op, inputs, s)
  {
    var run: seq<State>, who: seq<nat> :| Run(cfg, op, run, who) && Initial(cfg, inputs, run[0]) && run[|who|] == s;
    RunKeepsInv(cfg, op, inputs, run, who, |who|);
  }

  // ----- results -----

  /** Whatever the speeds of the ranks, the root delivers the same result, the fold over the tree. */
  lemma RootDeliversFold(cfg: Config, op: Operator, inputs: seq<Value>, s: State)
    requires Reachable(cfg, op, inputs, s) && Shape(cfg, s) && s.ranks[0].sent
    ensures s.ranks[0].val == Fold(cfg, op, inputs, 0)
  {
    ReachableInv(cfg, op, inputs, s);
    assert RankOk(cfg, op, inputs, s, 0);
  }

  /** The final reduction does not meet the background reduction of a slower rank: as long as a rank
      has not entered, none of its messages is on its way to it. */
  lemma NothingForOutsiders(cfg: Config, op: Operator, inputs: seq<Value>, s: State, p: nat, a: nat)
    requires Reachable(cfg, op, inputs, s) && Shape(cfg, s) && p < cfg.n && a < cfg.n && !s.ranks[p].entered
    ensures At(s.chan, a, p) == []
  {
    ReachableInv(cfg, op, inputs, s);
    assert LinkOk(cfg, op, inputs, s, a, p);
    if a >= 1 {
      assert SentFirst(cfg, s, a);
    }
  }

  /** When every rank has finished, no message is left. */
  lemma NothingLeft(cfg: Config, op: Operator, inputs: seq<Value>, s: State)
    requires Reachable(cfg, op, inputs, s) && Shape(cfg, s) && forall p: nat | p < cfg.n :: s.ranks[p].sent
    ensures Silent(cfg.n, s.chan)
  {
    ReachableInv(cfg, op, inputs, s);
    forall a: nat, b: nat | a < cfg.n && b < cfg.n ensures At(s.chan, a, b) == [] {
      assert LinkOk(cfg, op, inputs, s, a, b) && RankOk(cfg, op, inputs, s, b);
    }
  }

  lemma LastUnfinished(cfg: Config, s: State, p: nat) returns (q: nat)
    requires Shape(cfg, s) && p < cfg.n && !s.ranks[p].sent
    ensures q < cfg.n && !s.ranks[q].sent && forall r: nat | q < r < cfg.n :: s.ranks[r].sent
    decreases cfg.n - p
  {
    if r: nat :| p < r < cfg.n && !s.ranks[r].sent {
      q := LastUnfinished(cfg, s, r);
    } else {
      q := p;
    }
  }

  /** The first rank on the way from the root to `p` that has not entered. */
  lemma {:induction false} FirstOutside(cfg: Config, s: State, p: nat) returns (q: nat)
    requires Shape(cfg, s) && p < cfg.n && !s.ranks[p].entered
    ensures CanEnter(cfg, s, q)
    decreases p
  {
    if p >= 1 && !s.ranks[Parent(cfg, p)].entered {
      q := FirstOutside(cfg, s, Parent(cfg, p));
    } else {
      q := p;
    }
  }

  /** No deadlock: as long as some rank has not finished, some rank can make a step. */
  lemma NeverStuck(cfg: Config, op: Operator, inputs: seq<Value>, s: State, p: nat) returns (q: nat)
    requires Reachable(cfg, op, inputs, s) && Shape(cfg, s) && p < cfg.n && !s.ranks[p].sent
    ensures CanEnter(cfg, s, q) || CanGather(cfg, s, q) || CanFinish(cfg, s, q)
  {
    ReachableInv(cfg, op, inputs, s);
    q := LastUnfinished(cfg, s, p);
    assert RankOk(cfg, op, inputs, s, q);
    if !s.ranks[q].entered {
      q := FirstOutside(cfg, s, q);
    } else if s.ranks[q].got < ChildCount(cfg, q) {
      var c := ChildAt(cfg, q, s.ranks[q].got);
      assert LinkOk(cfg, op, inputs, s, c, q);
    }
  }

  // ----- each rank counts once -----

  /** The ranks below `p` in the order in which their values are combined. */
  function Preorder(cfg: Config, p: nat): seq<nat>
    requires cfg.Valid() && p < cfg.n
    decreases cfg.n - p, cfg.k + 1
  {
    ChildListIsKids(cfg, p);
    Preorders(cfg, p, ChildCount(cfg, p))
  }

  /** `p` and the ranks below its first `i` children. */
  function Preorders(cfg: Config, p: nat, i: nat): (s: seq<nat>)
    requires cfg.Valid() && p < cfg.n && i <= ChildCount(cfg, p)
    ensures s != []
    decreases cfg.n - p, i
  {
    if i == 0 then [p] else Preorders(cfg, p, i - 1) + Preorder(cfg, ChildAt(cfg, p, i - 1))
  }

  /** The list holds `p` and the ranks below its first `i` children, each once. */
  lemma {:induction false} PreordersReach(cfg: Config, p: nat, i: nat, y: nat)
    requires cfg.Valid() && p < cfg.n && i <= ChildCount(cfg, p)
    ensures y in Preorders(cfg, p, i) <==>
            y == p || (y < cfg.n && Above(cfg, p, y) && y != p && Place(cfg, ChildToward(cfg, p, y)) < i)
    ensures multiset(Preorders(cfg, p, i))[y] <= 1
    decreases cfg.n - p, i
  {
    if i > 0 {
      var c := ChildAt(cfg, p, i - 1);
      PreordersReach(cfg, p, i - 1, y);
      PreordersReach(cfg, c, ChildCount(cfg, c), y);
      SamePlace(cfg, p, c, i - 1);
      BelowChild(cfg, p, c, y);
    }
  }

  /** The ranks 0, ..., n - 1. */
  function AllRanks(n: nat): (s: seq<nat>)
    ensures forall i | 0 <= i < |s| :: s[i] < n
  {
    seq(n, i requires 0 <= i < n => i as nat)
  }

  lemma Occurrences(s: seq<nat>, n: nat)
    requires forall y: nat :: multiset(s)[y] == if y < n then 1 else 0
    ensures multiset(s) == multiset(AllRanks(n))
  {
    var all: seq<nat> := AllRanks(n);
    forall y: nat ensures multiset(s)[y] == multiset(all)[y] {
      OccursOnce(n, y);
    }
  }

  lemma {:induction false} OccursOnce(n: nat, y: nat)
    ensures multiset(AllRanks(n))[y] == if y < n then 1 else 0
    decreases n
  {
    if n > 0 {
      OccursOnce(n - 1, y);
      assert AllRanks(n) == AllRanks(n - 1) + [n - 1];
    }
  }

  /** Every rank is in the list of the root exactly once. */
  lemma EachRankOnce(cfg: Config, y: nat)
    requires cfg.Valid()
    ensures multiset(Preorder(cfg, 0))[y] == if y < cfg.n then 1 else 0
  {
    PreordersReach(cfg, 0, ChildCount(cfg, 0), y);
    RootAboveAll(cfg, y);
  }

  // ----- what the fold is -----

  ghost predicate InRange(inputs: seq<Value>, order: seq<nat>) {
    forall i | 0 <= i < |order| :: order[i] < |inputs|
  }

  ghost function Without(b: seq<nat>, i: nat): seq<nat>
    requires i < |b|
  {
    b[..i] + b[i + 1..]
  }

  ghost function CountAlong(inputs: seq<Value>, order: seq<nat>): int
    requires InRange(inputs, order)
  {
    if order == [] then 0 else CountAlong(inputs, order[..|order| - 1]) + inputs[order[|order| - 1]].count
  }

  /** The user's data of the ranks of `order`, combined from left to right. */
  ghost function DataAlong(op: Operator, inputs: seq<Value>, order: seq<nat>): Data
    requires order != [] && InRange(inputs, order)
  {
    var last := inputs[order[|order| - 1]].data;
    if |order| == 1 then last else op(DataAlong(op, inputs, order[..|order| - 1]), last)
  }

  ghost predicate Associative(op: Operator) {
    forall a, b, c :: op(op(a, b), c) == op(a, op(b, c))
  }

  lemma {:induction false} CountSplits(inputs: seq<Value>, a: seq<nat>, b: seq<nat>)
    requires InRange(inputs, a)
    requires InRange(inputs, b)
    ensures CountAlong(inputs, a + b) == CountAlong(inputs, a) + CountAlong(inputs, b)
    decreases |b|
  {
    if b == [] {
      assert a + b == a;
    } else {
      CountSplits(inputs, a, b[..|b| - 1]);
      assert (a + b)[..|a + b| - 1] == a + b[..|b| - 1];
    }
  }

  lemma CountWithout(inputs: seq<Value>, b: seq<nat>, i: nat)
    requires i < |b| && InRange(inputs, b)
    ensures InRange(inputs, Without(b, i))
    ensures CountAlong(inputs, b) == CountAlong(inputs, Without(b, i)) + inputs[b[i]].count
    ensures multiset(b) == multiset(Without(b, i)) + multiset{b[i]}
  {
    var x := [b[i]];
    assert b == (b[..i] + x) + b[i + 1..];
    CountSplits(inputs, b[..i] + x, b[i + 1..]);
    CountSplits(inputs, b[..i], x);
    CountSplits(inputs, b[..i], b[i + 1..]);
    assert x[..0] == [];
  }

  lemma FindLast(a: seq<nat>, b: seq<nat>) returns (i: nat)
    requires a != [] && multiset(a) == multiset(b)
    ensures i < |b| && b[i] == a[|a| - 1]
  {
    assert a[|a| - 1] in multiset(a);
    assert a[|a| - 1] in b;
    i :| 0 <= i < |b| && b[i] == a[|a| - 1];
  }

  lemma LastOut(a: seq<nat>)
    requires a != []
    ensures multiset(a) == multiset(a[..|a| - 1]) + multiset{a[|a| - 1]}
  {
    assert a == a[..|a| - 1] + [a[|a| - 1]];
  }

  lemma CancelOne(a: multiset<nat>, b: multiset<nat>, x: nat)
    requires a + multiset{x} == b + multiset{x}
    ensures a == b
  {
    assert (a + multiset{x}) - multiset{x} == a && (b + multiset{x}) - multiset{x} == b;
  }

  lemma {:induction false} CountInAnyOrder(inputs: seq<Value>, a: seq<nat>, b: seq<nat>)
    requires InRange(inputs, a)
    requires InRange(inputs, b)
    requires multiset(a) == multiset(b)
    ensures CountAlong(inputs, a) == CountAlong(inputs, b)
    decreases |a|
  {
    if a == [] {
      assert multiset(b) == multiset{};
    } else {
      var k := |a| - 1;
      var i := FindLast(a, b);
      CountWithout(inputs, b, i);
      assert multiset(a[..k]) == multiset(Without(b, i)) by {
        LastOut(a);
        CancelOne(multiset(a[..k]), multiset(Without(b, i)), a[k]);
      }
      CountInAnyOrder(inputs, a[..k], Without(b, i));
    }
  }

  lemma {:induction false} DataSplits(op: Operator, inputs: seq<Value>, a: seq<nat>, b: seq<nat>)
    requires Associative(op) && a != [] && b != []
    requires InRange(inputs, a)
    requires InRange(inputs, b)
    ensures DataAlong(op, inputs, a + b) == op(DataAlong(op, inputs, a), DataAlong(op, inputs, b))
    decreases |b|
  {
    assert (a + b)[..|a + b| - 1] == a + b[..|b| - 1];
    if |b| == 1 {
      assert a + b[..0] == a;
    } else {
      DataSplits(op, inputs, a, b[..|b| - 1]);
    }
  }

  lemma {:induction false} PartialAlong(cfg: Config, op: Operator, inputs: seq<Value>, p: nat, i: nat)
    requires cfg.Valid() && |inputs| == cfg.n && p < cfg.n && i <= ChildCount(cfg, p)
    ensures InRange(inputs, Preorders(cfg, p, i))
    ensures Partial(cfg, op, inputs, p, i).count == CountAlong(inputs, Preorders(cfg, p, i))
    ensures Associative(op) ==> Partial(cfg, op, inputs, p, i).data == DataAlong(op, inputs, Preorders(cfg, p, i))
    decreases cfg.n - p, i
  {
    if i == 0 {
      assert CountAlong(inputs, [p]) == inputs[p].count by {
        assert [p][..0] == [];
      }
    } else {
      var c := ChildAt(cfg, p, i - 1);
      var a, b := Preorders(cfg, p, i - 1), Preorder(cfg, c);
      PartialAlong(cfg, op, inputs, p, i - 1);
      PartialAlong(cfg, op, inputs, c, ChildCount(cfg, c));
      CountSplits(inputs, a, b);
      if Associative(op) {
        DataSplits(op, inputs, a, b);
      }
    }
  }

  /** The count delivered is the total of the counts of all ranks, and the data delivered is that
      of all ranks, each taken once, if the user's operation is associative. */
  lemma FoldCoversEveryRank(cfg: Config, op: Operator, inputs: seq<Value>)
    requires cfg.Valid() && |inputs| == cfg.n
    ensures var order := Preorder(cfg, 0); var r := Fold(cfg, op, inputs, 0);
            && multiset(order) == multiset(AllRanks(cfg.n))
            && InRange(inputs, order)
            && r.count == CountAlong(inputs, AllRanks(cfg.n))
            && (Associative(op) ==> r.data == DataAlong(op, inputs, order))
  {
    forall y: nat ensures multiset(Preorder(cfg, 0))[y] == if y < cfg.n then 1 else 0 {
      EachRankOnce(cfg, y);
    }
    Occurrences(Preorder(cfg, 0), cfg.n);
    PartialAlong(cfg, op, inputs, 0, ChildCount(cfg, 0));
    CountInAnyOrder(inputs, Preorder(cfg, 0), AllRanks(cfg.n));
  }

  // ----- the code of one rank -----

  /** Send a whole result. */
  method SendResult(box: Mailbox<Message>, a: nat, b: nat, v: Value)
    modifies box
    ensures At(box.chan, a, b) == old(At(box.chan, a, b)) + Frame(v)
    ensures forall x: nat, y: nat | !(x == a && y == b) :: At(box.chan, x, y) == old(At(box.chan, x, y))
  {
    ghost var before := At(box.chan, a, b);
    box.Send(a, b, Header(v.count, |v.data|));
    if |v.data| > 0 {
      box.Send(a, b, Payload(v.data));
      assert before + [Header(v.count, |v.data|)] + [Payload(v.data)] == before + Frame(v);
    }
  }

  /** Receive a whole result. */
  method RecvResult(box: Mailbox<Message>, a: nat, b: nat, ghost v: Value) returns (r: Value)
    requires At(box.chan, a, b) == Frame(v)
    modifies box
    ensures r == v && At(box.chan, a, b) == []
    ensures forall x: nat, y: nat | !(x == a && y == b) :: At(box.chan, x, y) == old(At(box.chan, x, y))
  {
    var m := box.Recv(a, b);
    var data := [];
    if m.bytes > 0 {
      var body := box.Recv(a, b);
      data := body.data;
    }
    r := Value(m.count, data);
  }

  /** Receiving from one child does not touch the results of the others. */
  lemma OtherChild(cfg: Config, op: Operator, inputs: seq<Value>, ch: Chan<Message>, now: Chan<Message>, p: nat,
                   i: nat, j: nat)
    requires cfg.Valid() && |inputs| == cfg.n && i < ChildCount(cfg, p) && j < ChildCount(cfg, p) && j != i
    requires forall x: nat, y: nat | !(x == ChildAt(cfg, p, i) && y == p) :: At(now, x, y) == At(ch, x, y)
    ensures ChildSent(cfg, op, inputs, ch, p, j) ==> ChildSent(cfg, op, inputs, now, p, j)
    ensures ChildHeard(cfg, ch, p, j) ==> ChildHeard(cfg, now, p, j)
  {
    SamePlace(cfg, p, ChildAt(cfg, p, i), i);
    SamePlace(cfg, p, ChildAt(cfg, p, i), j);
  }

  /** Receive the result of child `i`. */
  method HearChild(cfg: Config, op: Operator, ghost inputs: seq<Value>, p: nat, i: nat, net: Mailbox<Message>)
    returns (r: Value)
    requires cfg.Valid() && |inputs| == cfg.n && p < cfg.n && i < ChildCount(cfg, p)
    requires ChildSent(cfg, op, inputs, net.chan, p, i)
    modifies net
    ensures r == Fold(cfg, op, inputs, ChildAt(cfg, p, i))
    ensures ChildHeard(cfg, net.chan, p, i)
    ensures forall j: nat | j < ChildCount(cfg, p) && j != i ::
              && (ChildSent(cfg, op, inputs, old(net.chan), p, j) ==> ChildSent(cfg, op, inputs, net.chan, p, j))
              && (ChildHeard(cfg, old(net.chan), p, j) ==> ChildHeard(cfg, net.chan, p, j))
    ensures p >= 1 ==> At(net.chan, p, Parent(cfg, p)) == old(At(net.chan, p, Parent(cfg, p)))
  {
    var c := ChildAt(cfg, p, i);
    r := RecvResult(net, c, p, Fold(cfg, op, inputs, c));
    forall j: nat | j < ChildCount(cfg, p) && j != i
      ensures ChildSent(cfg, op, inputs, old(net.chan), p, j) ==> ChildSent(cfg, op, inputs, net.chan, p, j)
      ensures ChildHeard(cfg, old(net.chan), p, j) ==> ChildHeard(cfg, net.chan, p, j)
    {
      OtherChild(cfg, op, inputs, old(net.chan), net.chan, p, i, j);
    }
  }

  /** Send the result up. */
  method TellParent(cfg: Config, p: nat, v: Value, net: Mailbox<Message>)
    requires cfg.Valid() && 1 <= p < cfg.n
    modifies net
    ensures At(net.chan, p, Parent(cfg, p)) == old(At(net.chan, p, Parent(cfg, p))) + Frame(v)
    ensures forall j: nat | j < ChildCount(cfg, p) && ChildHeard(cfg, old(net.chan), p, j) ::
              ChildHeard(cfg, net.chan, p, j)
  {
    SendResult(net, p, Parent(cfg, p), v);
  }

  /** CIRCLE_reduce_sync at rank `p`, whose children have sent their results. */
  method ReduceSync(cfg: Config, op: Operator, ghost inputs: seq<Value>, p: nat, mine: Value, net: Mailbox<Message>)
    returns (v: Value)
    requires cfg.Valid() && |inputs| == cfg.n && p < cfg.n && mine == inputs[p]
    requires forall i: nat | i < ChildCount(cfg, p) :: ChildSent(cfg, op, inputs, net.chan, p, i)
    modifies net
    ensures v == Fold(cfg, op, inputs, p)
    ensures forall i: nat | i < ChildCount(cfg, p) :: ChildHeard(cfg, net.chan, p, i)
    ensures p >= 1 ==> At(net.chan, p, Parent(cfg, p)) == old(At(net.chan, p, Parent(cfg, p))) + Frame(v)
  {
    v := mine;
    for i := 0 to ChildCount(cfg, p)
      invariant v == Partial(cfg, op, inputs, p, i)
      invariant forall j: nat | i <= j < ChildCount(cfg, p) :: ChildSent(cfg, op, inputs, net.chan, p, j)
      invariant forall j: nat | j < i :: ChildHeard(cfg, net.chan, p, j)
      invariant p >= 1 ==> At(net.chan, p, Parent(cfg, p)) == old(At(net.chan, p, Parent(cfg, p)))
    {
      var r := HearChild(cfg, op, inputs, p, i, net);
      v := Combine(op, v, r);
    }
    if p >= 1 {
      TellParent(cfg, p, v, net);
    }
  }

  /** The result of child `i` of `p` is in flight. */
  ghost predicate ChildSent(cfg: Config, op: Operator, inputs: seq<Value>, ch: Chan<Message>, p: nat, i: nat)
    requires cfg.Valid() && |inputs| == cfg.n && i < ChildCount(cfg, p)
  {
    At(ch, ChildAt(cfg, p, i), p) == Frame(Fold(cfg, op, inputs, ChildAt(cfg, p, i)))
  }

  ghost predicate ChildHeard(cfg: Config, ch: Chan<Message>, p: nat, i: nat)
    requires cfg.Valid() && i < ChildCount(cfg, p)
  {
    At(ch, ChildAt(cfg, p, i), p) == []
  }
}
