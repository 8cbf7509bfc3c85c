/** The periodic reduction that runs in the background of the work loop (tag REDUCE).

    The root starts a reduction now and then; start messages go down the tree and partial
    results come back up.  A rank in the cleanup phase declines: it answers a start message
    with an invalid result.  Both directions share one tag, and a result is a header, which
    may or may not be followed by a message of user data.

    `epoch` numbers the reductions: it is the last one that a rank has taken part in or
    declined.  `gave` is what a rank last contributed and `gaveEpoch` when.  These are history
    variables: no step consults them.
 */
module BackgroundReduce {
  import opened Channels
  import opened Tree

  datatype Message =
    | Begin
    | Header(valid: bool, sum: int, bytes: nat)
    | Payload(bytes: nat)

  datatype Local = Local(
    outstanding: bool,  // reduce_outstanding
    replies: nat,       // reduce_replies
    valid: bool,        // reduce_buf[0]
    sum: int,           // reduce_buf[1]
    epoch: nat,
    gaveEpoch: nat)

  datatype Sys = Sys(ranks: seq<Local>, gave: seq<int>, chan: Chan<Message>)

  ghost predicate Shape(cfg: Config, s: Sys) {
    cfg.Valid() && |s.ranks| == cfg.n && |s.gave| == cfg.n
  }

  // ----- the atomic steps -----

  /** The start message, if there is one, and the frame of a result. */
  function Result(valid: bool, sum: int, bytes: nat): seq<Message> {
    [Header(valid, sum, bytes)] + if valid && bytes > 0 then [Payload(bytes)] else []
  }

  /** It announces the sender's numbers, and a payload of `bytes` bytes follows exactly if there is one and
      the result is valid. */
  lemma ResultAnnounces(valid: bool, sum: int, bytes: nat)
    ensures var ms := Result(valid, sum, bytes);
            && ms != [] && ms[0] == Header(valid, sum, bytes)
            && ms[1..] == if valid && bytes > 0 then [Payload(bytes)] else []
  {
  }

  function PostAll(ch: Chan<Message>, a: nat, b: nat, ms: seq<Message>): Chan<Message> {
    ch[Link(a, b) := At(ch, a, b) + ms]
  }

  function Drop(ch: Chan<Message>, a: nat, b: nat, k: nat): Chan<Message>
    requires k <= |At(ch, a, b)|
  {
    ch[Link(a, b) := At(ch, a, b)[k..]]
  }

  /** The root may start at any time, another rank when a start message has arrived. */
  ghost predicate CanBegin(cfg: Config, s: Sys, p: nat)
    requires Shape(cfg, s)
  {
    && p < cfg.n && !s.ranks[p].outstanding
    && (p >= 1 ==> At(s.chan, Parent(cfg, p), p) != [])
  }

  function Begun(l: Local, e: nat): Local {
    Local(true, 0, true, 0, e, l.gaveEpoch)
  }

  /** The number of the reduction that `p` is about to join or decline. */
  ghost function NextEpoch(cfg: Config, s: Sys, p: nat): nat
    requires Shape(cfg, s) && p < cfg.n
  {
    if p == 0 then s.ranks[0].epoch + 1 else s.ranks[Parent(cfg, p)].epoch
  }

  ghost function Start(cfg: Config, s: Sys, p: nat): Sys
    requires Shape(cfg, s) && CanBegin(cfg, s, p)
  {
    var ch := if p >= 1 then Take(s.chan, Parent(cfg, p), p) else s.chan;
    s.(ranks := s.ranks[p := Begun(s.ranks[p], NextEpoch(cfg, s, p))],
       chan := Cast(ch, p, Kids(cfg, p), Begin))
  }

  function Declined(l: Local, e: nat): Local {
    l.(valid := false, epoch := e)
  }

  /** In cleanup, a start message is answered with an invalid header and nothing else. */
  ghost function Decline(cfg: Config, s: Sys, p: nat, bytes: nat): Sys
    requires Shape(cfg, s) && p >= 1 && CanBegin(cfg, s, p)
  {
    s.(ranks := s.ranks[p := Declined(s.ranks[p], NextEpoch(cfg, s, p))],
       chan := PostAll(Take(s.chan, Parent(cfg, p), p), p, Parent(cfg, p), Result(false, s.ranks[p].sum, bytes)))
  }

  /** How many messages the header at the front of a stream announces. */
  function FrameLength(ms: seq<Message>): nat
    requires ms != [] && ms[0].Header?
  {
    if ms[0].valid && ms[0].bytes > 0 then 2 else 1
  }

  ghost predicate CanCount(cfg: Config, s: Sys, p: nat, c: nat)
    requires Shape(cfg, s)
  {
    && p < cfg.n && c in Kids(cfg, p) && s.ranks[p].outstanding
    && var ms := At(s.chan, c, p);
       ms != [] && ms[0].Header? && FrameLength(ms) <= |ms|
  }

  function Counted(l: Local, h: Message): Local
    requires h.Header?
  {
    if h.valid then l.(replies := l.replies + 1, sum := l.sum + h.sum)
    else l.(replies := l.replies + 1, valid := false)
  }

  /** `p` receives the result of its child `c`. */
  ghost function Count(cfg: Config, s: Sys, p: nat, c: nat): Sys
    requires Shape(cfg, s) && CanCount(cfg, s, p, c)
  {
    var ms := At(s.chan, c, p);
    s.(ranks := s.ranks[p := Counted(s.ranks[p], ms[0])],
       chan := Drop(s.chan, c, p, FrameLength(ms)))
  }

  ghost predicate CanFinish(cfg: Config, s: Sys, p: nat)
    requires Shape(cfg, s)
  {
    p < cfg.n && s.ranks[p].outstanding && s.ranks[p].replies == |Kids(cfg, p)|
  }

  function Finished(l: Local, count: int): Local {
    l.(outstanding := false, sum := l.sum + count, gaveEpoch := l.epoch)
  }

  /** `p` adds its own `count` and passes the result on; the root delivers it if it is valid. */
  ghost function Finish(cfg: Config, s: Sys, p: nat, count: int, bytes: nat): Sys
    requires Shape(cfg, s) && CanFinish(cfg, s, p)
  {
    var l := Finished(s.ranks[p], count);
    s.(ranks := s.ranks[p := l],
       gave := s.gave[p := count],
       chan := if p >= 1 then PostAll(s.chan, p, Parent(cfg, p), Result(l.valid, l.sum, bytes)) else s.chan)
  }

  /** What a rank sends up when it finishes: what it has gathered and its own count, and its own bytes. */
  lemma FinishAnnounces(cfg: Config, s: Sys, p: nat, count: int, bytes: nat)
    requires Shape(cfg, s) && CanFinish(cfg, s, p) && p >= 1
    ensures var l, up := s.ranks[p], Parent(cfg, p);
            var ms := At(Finish(cfg, s, p, count, bytes).chan, p, up)[|At(s.chan, p, up)|..];
            && At(Finish(cfg, s, p, count, bytes).chan, p, up) == At(s.chan, p, up) + ms
            && ms != [] && ms[0] == Header(l.valid, l.sum + count, bytes)
            && ms[1..] == if l.valid && bytes > 0 then [Payload(bytes)] else []
  {
    var l, up := s.ranks[p], Parent(cfg, p);
    ResultAnnounces(l.valid, l.sum + count, bytes);
    assert (At(s.chan, p, up) + Result(l.valid, l.sum + count, bytes))[|At(s.chan, p, up)|..]
           == Result(l.valid, l.sum + count, bytes);
  }

  datatype ReduceStep =
    // CIRCLE_reduce_check
    | ReduceStart
    | ReduceDecline(bytes: nat)
    | ReduceCount(from: nat)
    | ReduceFinish(count: int, bytes: nat)

  ghost predicate CanReduce(cfg: Config, s: Sys, x: nat, step: ReduceStep)
    requires Shape(cfg, s)
  {
    match step
    case ReduceStart => CanBegin(cfg, s, x)
    case ReduceDecline(_) => x >= 1 && CanBegin(cfg, s, x)
    case ReduceCount(from) => CanCount(cfg, s, x, from)
    case ReduceFinish(_, _) => CanFinish(cfg, s, x)
  }

  ghost function ReduceNext(cfg: Config, s: Sys, x: nat, step: ReduceStep): (s': Sys)
    requires Shape(cfg, s) && CanReduce(cfg, s, x, step)
    ensures Shape(cfg, s')
  {
    match step
    case ReduceStart => Start(cfg, s, x)
    case ReduceDecline(bytes) => Decline(cfg, s, x, bytes)
    case ReduceCount(from) => Count(cfg, s, x, from)
    case ReduceFinish(count, bytes) => Finish(cfg, s, x, count, bytes)
  }

  // ----- the invariant -----

  datatype EdgePhase = Off | Asked | Working | Replied | Done

  ghost function Phase(cfg: Config, s: Sys, c: nat): EdgePhase
    requires Shape(cfg, s) && 1 <= c < cfg.n
  {
    var p := Parent(cfg, c);
    if !s.ranks[p].outstanding then Off
    else if s.ranks[c].outstanding then Working
    else if At(s.chan, p, c) != [] then Asked
    else if At(s.chan, c, p) != [] then Replied
    else Done
  }

  ghost predicate EdgeOk(cfg: Config, s: Sys, c: nat)
    requires Shape(cfg, s) && 1 <= c < cfg.n
  {
    var p := Parent(cfg, c);
    var ph := Phase(cfg, s, c);
    && At(s.chan, p, c) == (if ph == Asked then [Begin] else [])
    && (if ph == Replied then ReplyOk(cfg, s, c, At(s.chan, c, p)) else At(s.chan, c, p) == [])
    && (match ph
        case Off => s.ranks[c].epoch <= s.ranks[p].epoch
        case Asked => s.ranks[c].epoch < s.ranks[p].epoch
        case _ => s.ranks[c].epoch == s.ranks[p].epoch)
    && (ph == Off ==> !s.ranks[c].outstanding)
  }

  /** One whole frame; and if it is valid, the sum of one contribution of each rank below `c`. */
  ghost predicate ReplyOk(cfg: Config, s: Sys, c: nat, ms: seq<Message>)
    requires Shape(cfg, s) && 1 <= c < cfg.n
  {
    && ms != [] && ms[0].Header? && ms == Result(ms[0].valid, ms[0].sum, ms[0].bytes)
    && (ms[0].valid ==>
          ms[0].sum == SetSum(s.gave, Subtree(cfg, c)) && AllGave(cfg, s, Subtree(cfg, c), s.ranks[c].epoch))
  }

  ghost predicate AllGave(cfg: Config, s: Sys, ys: set<nat>, e: nat)
    requires Shape(cfg, s)
  {
    forall y | y in ys && y < cfg.n :: s.ranks[y].gaveEpoch == e
  }

  ghost function DoneKids(cfg: Config, s: Sys, p: nat): set<nat>
    requires Shape(cfg, s)
  {
    set c | c in Kids(cfg, p) && Phase(cfg, s, c) == Done
  }

  /** The ranks below the children whose result `p` has received. */
  ghost function Cover(cfg: Config, s: Sys, p: nat): (r: set<nat>)
    requires Shape(cfg, s)
    ensures forall y: nat :: y in r <==> exists c :: c in DoneKids(cfg, s, p) && y in Subtree(cfg, c)
  {
    set c, y | c in DoneKids(cfg, s, p) && y in Subtree(cfg, c) :: y
  }

  ghost predicate RankOk(cfg: Config, s: Sys, p: nat)
    requires Shape(cfg, s) && p < cfg.n
  {
    && s.ranks[p].gaveEpoch <= s.ranks[p].epoch
    && (s.ranks[p].outstanding ==>
      && s.ranks[p].gaveEpoch < s.ranks[p].epoch
      && s.ranks[p].replies == |DoneKids(cfg, s, p)|
      && (s.ranks[p].valid ==>
            && s.ranks[p].sum == SetSum(s.gave, Cover(cfg, s, p))
            && AllGave(cfg, s, Cover(cfg, s, p), s.ranks[p].epoch)))
  }

  /** Messages are in flight on tree edges only. */
  ghost predicate NoStray(cfg: Config, s: Sys)
    requires Shape(cfg, s)
  {
    forall a: nat, b: nat | a < cfg.n && b < cfg.n && a !in Kids(cfg, b) && b !in Kids(cfg, a) ::
      At(s.chan, a, b) == []
  }

  ghost predicate Inv(cfg: Config, s: Sys) {
    && Shape(cfg, s)
    && (forall c: nat | 1 <= c < cfg.n :: EdgeOk(cfg, s, c))
    && (forall p: nat | p < cfg.n :: RankOk(cfg, s, p))
    && NoStray(cfg, s)
  }

  lemma InitialInv(cfg: Config, s: Sys)
    requires Shape(cfg, s) && s.chan == map[]
    requires forall p: nat | p < cfg.n :: !s.ranks[p].outstanding && s.ranks[p].epoch == 0 == s.ranks[p].gaveEpoch
    ensures Inv(cfg, s)
  {
  }

  // ----- consequences -----

  /** A rank below `r` is busy only while `r` is. */
  lemma {:induction false} BusyBelowBusy(cfg: Config, s: Sys, r: nat, y: nat)
    requires Inv(cfg, s) && y < cfg.n && Above(cfg, r, y) && s.ranks[y].outstanding
    ensures s.ranks[r].outstanding
    decreases y
  {
    if y != r {
      assert EdgeOk(cfg, s, y);
      BusyBelowBusy(cfg, s, r, Parent(cfg, y));
    }
  }

  /** While a result of `c` is on its way or received, no rank below `c` can act. */
  lemma StillBelow(cfg: Config, s: Sys, c: nat, y: nat)
    requires Inv(cfg, s) && 1 <= c < cfg.n && y in Subtree(cfg, c)
    requires Phase(cfg, s, c) == Replied || Phase(cfg, s, c) == Done
    ensures !s.ranks[y].outstanding
    ensures y >= 1 && !CanBegin(cfg, s, y)
  {
    AboveIsSmaller(cfg, c, y);
    if s.ranks[y].outstanding {
      BusyBelowBusy(cfg, s, c, y);
    }
    assert EdgeOk(cfg, s, y);
    if y != c && s.ranks[Parent(cfg, y)].outstanding {
      BusyBelowBusy(cfg, s, c, Parent(cfg, y));
    }
  }

  /** Once no rank has a reduction outstanding, no reduce message is in flight. */
  lemma NobodyBusy(cfg: Config, s: Sys)
    requires Inv(cfg, s) && forall p: nat | p < cfg.n :: !s.ranks[p].outstanding
    ensures Silent(cfg.n, s.chan)
  {
    forall a: nat, b: nat | a < cfg.n && b < cfg.n ensures At(s.chan, a, b) == [] {
      assert 1 <= a ==> EdgeOk(cfg, s, a);
      assert 1 <= b ==> EdgeOk(cfg, s, b);
    }
  }

  // ----- preservation -----

  /** A valid result stays right as long as the ranks below its sender do not act. */
  lemma ReplyStays(cfg: Config, s: Sys, s': Sys, c: nat, ms: seq<Message>)
    requires Shape(cfg, s) && Shape(cfg, s') && 1 <= c < cfg.n && ReplyOk(cfg, s, c, ms)
    requires s'.ranks[c].epoch == s.ranks[c].epoch
    requires forall y | y in Subtree(cfg, c) :: s'.gave[y] == s.gave[y] && s'.ranks[y].gaveEpoch == s.ranks[y].gaveEpoch
    ensures ReplyOk(cfg, s', c, ms)
  {
    SetSumAgree(s.gave, s'.gave, Subtree(cfg, c));
  }

  /** So does what a rank has collected. */
  lemma RankStays(cfg: Config, s: Sys, s': Sys, q: nat)
    requires Shape(cfg, s) && Shape(cfg, s') && q < cfg.n && RankOk(cfg, s, q)
    requires s'.ranks[q] == s.ranks[q]
    requires s.ranks[q].outstanding ==> DoneKids(cfg, s', q) == DoneKids(cfg, s, q)
    requires forall y: nat | y < cfg.n && s.ranks[q].outstanding && y in Cover(cfg, s, q) ::
               s'.gave[y] == s.gave[y] && s'.ranks[y].gaveEpoch == s.ranks[y].gaveEpoch
    ensures RankOk(cfg, s', q)
  {
    if s.ranks[q].outstanding {
      assert Cover(cfg, s', q) == Cover(cfg, s, q);
      SetSumAgree(s.gave, s'.gave, Cover(cfg, s, q));
    }
  }

  lemma StartEdge(cfg: Config, s: Sys, p: nat, c: nat)
    requires Inv(cfg, s) && CanBegin(cfg, s, p) && 1 <= c < cfg.n
    ensures var s' := Start(cfg, s, p);
            && EdgeOk(cfg, s', c)
            && Phase(cfg, s', c) == (if c in Kids(cfg, p) then Asked else if c == p then Working else Phase(cfg, s, c))
            && (c in Kids(cfg, p) ==> Phase(cfg, s, c) == Off)
            && (c == p ==> Phase(cfg, s, c) == Asked)
  {
    var s' := Start(cfg, s, p);
    assert EdgeOk(cfg, s, c);
    assert p >= 1 ==> EdgeOk(cfg, s, p);
    if c != p && c !in Kids(cfg, p) && Phase(cfg, s, c) == Replied {
      ReplyStays(cfg, s, s', c, At(s.chan, c, Parent(cfg, c)));
    }
  }

  lemma StartRank(cfg: Config, s: Sys, p: nat, q: nat)
    requires Inv(cfg, s) && CanBegin(cfg, s, p) && q < cfg.n
    ensures RankOk(cfg, Start(cfg, s, p), q)
  {
    var s' := Start(cfg, s, p);
    assert RankOk(cfg, s, q);
    forall c | c in Kids(cfg, q)
      ensures Phase(cfg, s', c) == if q == p then Asked else if c == p then Working else Phase(cfg, s, c)
      ensures c == p ==> Phase(cfg, s, c) == Asked
    {
      StartEdge(cfg, s, p, c);
    }
    if q == p {
      assert DoneKids(cfg, s', p) == {};
      assert Cover(cfg, s', p) == {};
      SetSumEmpty(s.gave);
      assert p >= 1 ==> EdgeOk(cfg, s, p);
    } else {
      assert DoneKids(cfg, s', q) == DoneKids(cfg, s, q);
      RankStays(cfg, s, s', q);
    }
  }

  lemma StartKeepsInv(cfg: Config, s: Sys, p: nat)
    requires Inv(cfg, s) && CanBegin(cfg, s, p)
    ensures Inv(cfg, Start(cfg, s, p))
  {
    var s' := Start(cfg, s, p);
    forall c: nat | 1 <= c < cfg.n ensures EdgeOk(cfg, s', c) {
      StartEdge(cfg, s, p, c);
    }
    forall q: nat | q < cfg.n ensures RankOk(cfg, s', q) {
      StartRank(cfg, s, p, q);
    }
    StartNoStray(cfg, s, p);
  }

  lemma StartNoStray(cfg: Config, s: Sys, p: nat)
    requires Inv(cfg, s) && CanBegin(cfg, s, p)
    ensures NoStray(cfg, Start(cfg, s, p))
  {
    assert NoStray(cfg, s);
  }

  lemma DeclineEdge(cfg: Config, s: Sys, p: nat, bytes: nat, c: nat)
    requires Inv(cfg, s) && p >= 1 && CanBegin(cfg, s, p) && 1 <= c < cfg.n
    ensures var s' := Decline(cfg, s, p, bytes);
            && EdgeOk(cfg, s', c)
            && Phase(cfg, s', c) == (if c == p then Replied else Phase(cfg, s, c))
            && (c == p ==> Phase(cfg, s, c) == Asked)
  {
    var s' := Decline(cfg, s, p, bytes);
    assert EdgeOk(cfg, s, c);
    assert EdgeOk(cfg, s, p);
    if c != p && c !in Kids(cfg, p) && Phase(cfg, s, c) == Replied {
      ReplyStays(cfg, s, s', c, At(s.chan, c, Parent(cfg, c)));
    }
  }

  lemma DeclineRank(cfg: Config, s: Sys, p: nat, bytes: nat, q: nat)
    requires Inv(cfg, s) && p >= 1 && CanBegin(cfg, s, p) && q < cfg.n
    ensures RankOk(cfg, Decline(cfg, s, p, bytes), q)
  {
    var s' := Decline(cfg, s, p, bytes);
    assert RankOk(cfg, s, q) && EdgeOk(cfg, s, p);
    if q != p {
      forall c | c in Kids(cfg, q)
        ensures Phase(cfg, s', c) == Done <==> Phase(cfg, s, c) == Done
      {
        DeclineEdge(cfg, s, p, bytes, c);
      }
      assert DoneKids(cfg, s', q) == DoneKids(cfg, s, q);
      RankStays(cfg, s, s', q);
    }
  }

  lemma DeclineKeepsInv(cfg: Config, s: Sys, p: nat, bytes: nat)
    requires Inv(cfg, s) && p >= 1 && CanBegin(cfg, s, p)
    ensures Inv(cfg, Decline(cfg, s, p, bytes))
  {
    var s' := Decline(cfg, s, p, bytes);
    forall c: nat | 1 <= c < cfg.n ensures EdgeOk(cfg, s', c) {
      DeclineEdge(cfg, s, p, bytes, c);
    }
    forall q: nat | q < cfg.n ensures RankOk(cfg, s', q) {
      DeclineRank(cfg, s, p, bytes, q);
    }
    DeclineNoStray(cfg, s, p, bytes);
  }

  lemma DeclineNoStray(cfg: Config, s: Sys, p: nat, bytes: nat)
    requires Inv(cfg, s) && p >= 1 && CanBegin(cfg, s, p)
    ensures NoStray(cfg, Decline(cfg, s, p, bytes))
  {
    assert NoStray(cfg, s);
  }

  lemma CountEdge(cfg: Config, s: Sys, p: nat, k: nat, c: nat)
    requires Inv(cfg, s) && CanCount(cfg, s, p, k) && 1 <= c < cfg.n
    ensures var s' := Count(cfg, s, p, k);
            && EdgeOk(cfg, s', c)
            && Phase(cfg, s', c) == (if c == k then Done else Phase(cfg, s, c))
            && (c == k ==> Phase(cfg, s, c) == Replied)
  {
    var s' := Count(cfg, s, p, k);
    assert EdgeOk(cfg, s, c);
    assert EdgeOk(cfg, s, k);
    if c != k && Phase(cfg, s, c) == Replied {
      ReplyStays(cfg, s, s', c, At(s.chan, c, Parent(cfg, c)));
    }
  }

  /** The ranks below the next child are disjoint from those already covered. */
  lemma CoverGrows(cfg: Config, s: Sys, s': Sys, p: nat, k: nat)
    requires Shape(cfg, s) && Shape(cfg, s') && p < cfg.n && k in Kids(cfg, p) && k !in DoneKids(cfg, s, p)
    requires DoneKids(cfg, s', p) == DoneKids(cfg, s, p) + {k}
    ensures Cover(cfg, s', p) == Cover(cfg, s, p) + Subtree(cfg, k)
    ensures Cover(cfg, s, p) !! Subtree(cfg, k)
  {
    forall y | y in Cover(cfg, s, p) ensures y !in Subtree(cfg, k) {
      var c :| c in DoneKids(cfg, s, p) && y in Subtree(cfg, c);
      if y in Subtree(cfg, k) {
        SiblingsApart(cfg, c, k, y);
      }
    }
  }

  lemma CountRank(cfg: Config, s: Sys, p: nat, k: nat, q: nat)
    requires Inv(cfg, s) && CanCount(cfg, s, p, k) && q < cfg.n
    ensures RankOk(cfg, Count(cfg, s, p, k), q)
  {
    var s' := Count(cfg, s, p, k);
    assert RankOk(cfg, s, q) && EdgeOk(cfg, s, k);
    forall c | c in Kids(cfg, q)
      ensures Phase(cfg, s', c) == (if c == k then Done else Phase(cfg, s, c))
      ensures c == k ==> Phase(cfg, s, c) == Replied
    {
      CountEdge(cfg, s, p, k, c);
    }
    if q == p {
      assert DoneKids(cfg, s', p) == DoneKids(cfg, s, p) + {k};
      CoverGrows(cfg, s, s', p, k);
      SetSumUnion(s.gave, Cover(cfg, s, p), Subtree(cfg, k));
    } else {
      assert DoneKids(cfg, s', q) == DoneKids(cfg, s, q);
      RankStays(cfg, s, s', q);
    }
  }

  lemma CountKeepsInv(cfg: Config, s: Sys, p: nat, k: nat)
    requires Inv(cfg, s) && CanCount(cfg, s, p, k)
    ensures Inv(cfg, Count(cfg, s, p, k))
  {
    var s' := Count(cfg, s, p, k);
    forall c: nat | 1 <= c < cfg.n ensures EdgeOk(cfg, s', c) {
      CountEdge(cfg, s, p, k, c);
    }
    forall q: nat | q < cfg.n ensures RankOk(cfg, s', q) {
      CountRank(cfg, s, p, k, q);
    }
    CountNoStray(cfg, s, p, k);
  }

  lemma CountNoStray(cfg: Config, s: Sys, p: nat, k: nat)
    requires Inv(cfg, s) && CanCount(cfg, s, p, k)
    ensures NoStray(cfg, Count(cfg, s, p, k))
  {
    assert NoStray(cfg, s);
  }

  // ----- finishing -----

  /** When all children have been counted, what is covered is everything below `p` but `p`. */
  lemma CoverComplete(cfg: Config, s: Sys, p: nat)
    requires Inv(cfg, s) && CanFinish(cfg, s, p)
    ensures DoneKids(cfg, s, p) == Kids(cfg, p)
    ensures Subtree(cfg, p) == Cover(cfg, s, p) + {p} && p !in Cover(cfg, s, p)
  {
    assert RankOk(cfg, s, p);
    SubsetOfSameSize(DoneKids(cfg, s, p), Kids(cfg, p));
    forall y: nat
      ensures y in Subtree(cfg, p) <==> y in Cover(cfg, s, p) || y == p
      ensures y in Cover(cfg, s, p) ==> y != p
    {
      if y in Subtree(cfg, p) && y != p {
        var c := ChildToward(cfg, p, y);
        assert c in Kids(cfg, p) && y in Subtree(cfg, c);
      }
      if y in Cover(cfg, s, p) {
        var c :| c in DoneKids(cfg, s, p) && y in Subtree(cfg, c);
        AboveIsSmaller(cfg, c, y);
        assert Above(cfg, p, c);
        AboveTransitive(cfg, p, c, y);
      }
    }
  }

  /** A valid total is the sum of one contribution of every rank below `p`, each made in this reduction. */
  lemma FinishTotal(cfg: Config, s: Sys, p: nat, count: int, bytes: nat)
    requires Inv(cfg, s) && CanFinish(cfg, s, p) && s.ranks[p].valid
    ensures var s' := Finish(cfg, s, p, count, bytes);
            && s'.ranks[p].sum == SetSum(s'.gave, Subtree(cfg, p))
            && AllGave(cfg, s', Subtree(cfg, p), s.ranks[p].epoch)
  {
    var s' := Finish(cfg, s, p, count, bytes);
    assert RankOk(cfg, s, p);
    CoverComplete(cfg, s, p);
    SetSumUnion(s'.gave, Cover(cfg, s, p), {p});
    SetSumSingle(s'.gave, p);
    SetSumAgree(s.gave, s'.gave, Cover(cfg, s, p));
  }

  lemma FinishEdge(cfg: Config, s: Sys, p: nat, count: int, bytes: nat, c: nat)
    requires Inv(cfg, s) && CanFinish(cfg, s, p) && 1 <= c < cfg.n
    ensures var s' := Finish(cfg, s, p, count, bytes);
            && EdgeOk(cfg, s', c)
            && Phase(cfg, s', c) == (if c == p then Replied else if c in Kids(cfg, p) then Off else Phase(cfg, s, c))
            && (c == p ==> Phase(cfg, s, c) == Working)
  {
    var s' := Finish(cfg, s, p, count, bytes);
    assert EdgeOk(cfg, s, c);
    if c == p {
      if s.ranks[p].valid {
        FinishTotal(cfg, s, p, count, bytes);
      }
    } else if c in Kids(cfg, p) {
      CoverComplete(cfg, s, p);
      assert c in DoneKids(cfg, s, p);
    } else if Phase(cfg, s, c) == Replied {
      if p in Subtree(cfg, c) {
        StillBelow(cfg, s, c, p);
      }
      ReplyStays(cfg, s, s', c, At(s.chan, c, Parent(cfg, c)));
    }
  }

  lemma FinishRank(cfg: Config, s: Sys, p: nat, count: int, bytes: nat, q: nat)
    requires Inv(cfg, s) && CanFinish(cfg, s, p) && q < cfg.n
    ensures RankOk(cfg, Finish(cfg, s, p, count, bytes), q)
  {
    var s' := Finish(cfg, s, p, count, bytes);
    assert RankOk(cfg, s, q);
    if q != p {
      forall c | c in Kids(cfg, q)
        ensures Phase(cfg, s', c) == Done <==> Phase(cfg, s, c) == Done
      {
        FinishEdge(cfg, s, p, count, bytes, c);
      }
      assert DoneKids(cfg, s', q) == DoneKids(cfg, s, q);
      if p in Cover(cfg, s, q) {
        var c :| c in DoneKids(cfg, s, q) && p in Subtree(cfg, c);
        StillBelow(cfg, s, c, p);
      }
      RankStays(cfg, s, s', q);
    }
  }

  lemma FinishKeepsInv(cfg: Config, s: Sys, p: nat, count: int, bytes: nat)
    requires Inv(cfg, s) && CanFinish(cfg, s, p)
    ensures Inv(cfg, Finish(cfg, s, p, count, bytes))
  {
    var s' := Finish(cfg, s, p, count, bytes);
    forall c: nat | 1 <= c < cfg.n ensures EdgeOk(cfg, s', c) {
      FinishEdge(cfg, s, p, count, bytes, c);
    }
    forall q: nat | q < cfg.n ensures RankOk(cfg, s', q) {
      FinishRank(cfg, s, p, count, bytes, q);
    }
    FinishNoStray(cfg, s, p, count, bytes);
  }

  lemma FinishNoStray(cfg: Config, s: Sys, p: nat, count: int, bytes: nat)
    requires Inv(cfg, s) && CanFinish(cfg, s, p)
    ensures NoStray(cfg, Finish(cfg, s, p, count, bytes))
  {
    assert NoStray(cfg, s);
  }

  /** What the root delivers: exactly one contribution of every rank, made in this reduction. */
  lemma DeliveredTotal(cfg: Config, s: Sys, count: int, bytes: nat)
    requires Inv(cfg, s) && CanFinish(cfg, s, 0) && s.ranks[0].valid
    ensures var s' := Finish(cfg, s, 0, count, bytes);
            && s'.ranks[0].sum == Total(s'.gave)
            && forall y: nat | y < cfg.n :: s'.ranks[y].gaveEpoch == s.ranks[0].epoch
  {
    var s' := Finish(cfg, s, 0, count, bytes);
    FinishTotal(cfg, s, 0, count, bytes);
    forall y: nat | y < cfg.n ensures y in Subtree(cfg, 0) {
      RootAboveAll(cfg, y);
    }
    EverybodyCounts(s'.gave, Subtree(cfg, 0));
  }

  lemma StepKeepsInv(cfg: Config, s: Sys, x: nat, step: ReduceStep)
    requires Inv(cfg, s) && CanReduce(cfg, s, x, step)
    ensures Inv(cfg, ReduceNext(cfg, s, x, step))
  {
    match step
    case ReduceStart => StartKeepsInv(cfg, s, x);
    case ReduceDecline(bytes) => DeclineKeepsInv(cfg, s, x, bytes);
    case ReduceCount(from) => CountKeepsInv(cfg, s, x, from);
    case ReduceFinish(count, bytes) => FinishKeepsInv(cfg, s, x, count, bytes);
  }

  // ----- what a receive finds -----

  /** What a rank with a reduction under way finds from a child is one whole result: a header, and a
      payload exactly if the header announces one. */
  lemma ResultIsWhole(cfg: Config, s: Sys, p: nat, c: nat)
    requires Inv(cfg, s) && p < cfg.n && s.ranks[p].outstanding && c in Kids(cfg, p) && At(s.chan, c, p) != []
    ensures CanCount(cfg, s, p, c)
    ensures var h := At(s.chan, c, p)[0]; At(s.chan, c, p) == Result(h.valid, h.sum, h.bytes)
    ensures At(Count(cfg, s, p, c).chan, c, p) == []
  {
    assert EdgeOk(cfg, s, c);
  }

  /** What a rank without one finds from its parent is one start message. */
  lemma StartIsWhole(cfg: Config, s: Sys, p: nat)
    requires Inv(cfg, s) && 1 <= p < cfg.n && !s.ranks[p].outstanding && At(s.chan, Parent(cfg, p), p) != []
    ensures CanBegin(cfg, s, p) && At(s.chan, Parent(cfg, p), p) == [Begin]
  {
    assert EdgeOk(cfg, s, p);
  }
}
