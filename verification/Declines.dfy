/** A rank that declines a background reduction shows: the result that reaches the root is valid
    exactly if every rank has contributed to it. */
module Declines {
  import opened Channels
  import opened Tree
  import opened BackgroundReduce

  // ----- an invalid result has a reason -----

  /** Some rank of `ys` has not contributed to reduction `e`. */
  ghost predicate SomeoneMissing(cfg: Config, s: Sys, ys: set<nat>, e: nat)
    requires Shape(cfg, s)
  {
    exists y :: y in ys && y < cfg.n && s.ranks[y].gaveEpoch < e
  }

  /** If the partial result of `p` is invalid, some rank that it covers has not contributed. */
  ghost predicate RankShows(cfg: Config, s: Sys, p: nat)
    requires Shape(cfg, s) && p < cfg.n
  {
    s.ranks[p].outstanding && !s.ranks[p].valid ==> SomeoneMissing(cfg, s, Cover(cfg, s, p), s.ranks[p].epoch)
  }

  /** So with a result that `c` has sent up. */
  ghost predicate ReplyShows(cfg: Config, s: Sys, c: nat)
    requires Shape(cfg, s) && 1 <= c < cfg.n
  {
    Phase(cfg, s, c) == Replied ==>
      var ms := At(s.chan, c, Parent(cfg, c));
      ms[0].Header? && (!ms[0].valid ==> SomeoneMissing(cfg, s, Subtree(cfg, c), s.ranks[c].epoch))
  }

  ghost predicate Shows(cfg: Config, s: Sys) {
    && Inv(cfg, s)
    && (forall p: nat | p < cfg.n :: RankShows(cfg, s, p))
    && (forall c: nat | 1 <= c < cfg.n :: ReplyShows(cfg, s, c))
  }

  lemma InitialShows(cfg: Config, s: Sys)
    requires Shape(cfg, s) && s.chan == map[]
    requires forall p: nat | p < cfg.n :: !s.ranks[p].outstanding && s.ranks[p].epoch == 0 == s.ranks[p].gaveEpoch
    ensures Shows(cfg, s)
  {
  }

  lemma StillMissing(cfg: Config, s: Sys, s': Sys, ys: set<nat>, e: nat)
    requires Shape(cfg, s) && Shape(cfg, s') && SomeoneMissing(cfg, s, ys, e)
    requires forall y | y in ys && y < cfg.n :: s'.ranks[y].gaveEpoch == s.ranks[y].gaveEpoch
    ensures SomeoneMissing(cfg, s', ys, e)
  {
    var y :| y in ys && y < cfg.n && s.ranks[y].gaveEpoch < e;
    assert s'.ranks[y].gaveEpoch < e;
  }

  lemma RankStillShows(cfg: Config, s: Sys, s': Sys, q: nat)
    requires Shape(cfg, s) && Shape(cfg, s') && q < cfg.n && RankShows(cfg, s, q)
    requires s'.ranks[q] == s.ranks[q] && Cover(cfg, s', q) == Cover(cfg, s, q)
    requires forall y: nat | y < cfg.n :: s'.ranks[y].gaveEpoch == s.ranks[y].gaveEpoch
    ensures RankShows(cfg, s', q)
  {
    if s.ranks[q].outstanding && !s.ranks[q].valid {
      StillMissing(cfg, s, s', Cover(cfg, s, q), s.ranks[q].epoch);
    }
  }

  // ----- starting and declining -----

  lemma StartShows(cfg: Config, s: Sys, p: nat)
    requires Shows(cfg, s) && CanBegin(cfg, s, p)
    ensures Shows(cfg, Start(cfg, s, p))
  {
    var s' := Start(cfg, s, p);
    StartKeepsInv(cfg, s, p);
    forall q: nat | q < cfg.n ensures RankShows(cfg, s', q) {
      StartMissing(cfg, s, p, q);
    }
    forall c: nat | 1 <= c < cfg.n ensures ReplyShows(cfg, s', c) {
      StartReply(cfg, s, p, c);
    }
  }

  lemma StartMissing(cfg: Config, s: Sys, p: nat, q: nat)
    requires Inv(cfg, s) && CanBegin(cfg, s, p) && q < cfg.n && RankShows(cfg, s, q)
    ensures RankShows(cfg, Start(cfg, s, p), q)
  {
    if q != p {
      StartCover(cfg, s, p, q);
      RankStillShows(cfg, s, Start(cfg, s, p), q);
    }
  }

  lemma StartCover(cfg: Config, s: Sys, p: nat, q: nat)
    requires Inv(cfg, s) && CanBegin(cfg, s, p) && q < cfg.n && q != p
    ensures Cover(cfg, Start(cfg, s, p), q) == Cover(cfg, s, q)
  {
    var s' := Start(cfg, s, p);
    forall c | c in Kids(cfg, q) ensures Phase(cfg, s', c) == Done <==> Phase(cfg, s, c) == Done {
      StartEdge(cfg, s, p, c);
    }
    assert DoneKids(cfg, s', q) == DoneKids(cfg, s, q);
    assert Cover(cfg, s', q) == Cover(cfg, s, q);
  }

  lemma StartReply(cfg: Config, s: Sys, p: nat, c: nat)
    requires Inv(cfg, s) && CanBegin(cfg, s, p) && 1 <= c < cfg.n && ReplyShows(cfg, s, c)
    ensures ReplyShows(cfg, Start(cfg, s, p), c)
  {
    var s' := Start(cfg, s, p);
    StartEdge(cfg, s, p, c);
    assert EdgeOk(cfg, s, c);
    if Phase(cfg, s', c) == Replied && !At(s.chan, c, Parent(cfg, c))[0].valid {
      StillMissing(cfg, s, s', Subtree(cfg, c), s.ranks[c].epoch);
    }
  }

  lemma DeclineShows(cfg: Config, s: Sys, p: nat, bytes: nat)
    requires Shows(cfg, s) && p >= 1 && CanBegin(cfg, s, p)
    ensures Shows(cfg, Decline(cfg, s, p, bytes))
  {
    var s' := Decline(cfg, s, p, bytes);
    DeclineKeepsInv(cfg, s, p, bytes);
    forall q: nat | q < cfg.n ensures RankShows(cfg, s', q) {
      DeclineMissing(cfg, s, p, bytes, q);
    }
    forall c: nat | 1 <= c < cfg.n ensures ReplyShows(cfg, s', c) {
      DeclineReply(cfg, s, p, bytes, c);
    }
  }

  lemma DeclineMissing(cfg: Config, s: Sys, p: nat, bytes: nat, q: nat)
    requires Inv(cfg, s) && p >= 1 && CanBegin(cfg, s, p) && q < cfg.n && RankShows(cfg, s, q)
    ensures RankShows(cfg, Decline(cfg, s, p, bytes), q)
  {
    if q != p {
      DeclineCover(cfg, s, p, bytes, q);
      RankStillShows(cfg, s, Decline(cfg, s, p, bytes), q);
    }
  }

  lemma DeclineCover(cfg: Config, s: Sys, p: nat, bytes: nat, q: nat)
    requires Inv(cfg, s) && p >= 1 && CanBegin(cfg, s, p) && q < cfg.n
    ensures Cover(cfg, Decline(cfg, s, p, bytes), q) == Cover(cfg, s, q)
  {
    var s' := Decline(cfg, s, p, bytes);
    forall c | c in Kids(cfg, q) ensures Phase(cfg, s', c) == Done <==> Phase(cfg, s, c) == Done {
      DeclineEdge(cfg, s, p, bytes, c);
    }
    assert DoneKids(cfg, s', q) == DoneKids(cfg, s, q);
    assert Cover(cfg, s', q) == Cover(cfg, s, q);
  }

  /** The rank that declines is itself the reason. */
  lemma DeclineReply(cfg: Config, s: Sys, p: nat, bytes: nat, c: nat)
    requires Inv(cfg, s) && p >= 1 && CanBegin(cfg, s, p) && 1 <= c < cfg.n && ReplyShows(cfg, s, c)
    ensures ReplyShows(cfg, Decline(cfg, s, p, bytes), c)
  {
    var s' := Decline(cfg, s, p, bytes);
    DeclineEdge(cfg, s, p, bytes, c);
    assert EdgeOk(cfg, s, c) && RankOk(cfg, s, c);
    if c == p {
      assert c in Subtree(cfg, c) && s'.ranks[c].gaveEpoch < s'.ranks[c].epoch;
    } else if Phase(cfg, s', c) == Replied && !At(s.chan, c, Parent(cfg, c))[0].valid {
      StillMissing(cfg, s, s', Subtree(cfg, c), s.ranks[c].epoch);
    }
  }

  // ----- counting -----

  lemma CountShows(cfg: Config, s: Sys, p: nat, k: nat)
    requires Shows(cfg, s) && CanCount(cfg, s, p, k)
    ensures Shows(cfg, Count(cfg, s, p, k))
  {
    var s' := Count(cfg, s, p, k);
    CountKeepsInv(cfg, s, p, k);
    forall q: nat | q < cfg.n ensures RankShows(cfg, s', q) {
      CountMissing(cfg, s, p, k, q);
    }
    forall c: nat | 1 <= c < cfg.n ensures ReplyShows(cfg, s', c) {
      CountEdge(cfg, s, p, k, c);
      assert EdgeOk(cfg, s, c) && ReplyShows(cfg, s, c);
      if Phase(cfg, s', c) == Replied && !At(s.chan, c, Parent(cfg, c))[0].valid {
        StillMissing(cfg, s, s', Subtree(cfg, c), s.ranks[c].epoch);
      }
    }
  }

  lemma CountCover(cfg: Config, s: Sys, p: nat, k: nat, q: nat)
    requires Inv(cfg, s) && CanCount(cfg, s, p, k) && q < cfg.n
    ensures Cover(cfg, Count(cfg, s, p, k), q) == Cover(cfg, s, q) + if q == p then Subtree(cfg, k) else {}
  {
    var s' := Count(cfg, s, p, k);
    forall c | c in Kids(cfg, q)
      ensures Phase(cfg, s', c) == (if c == k then Done else Phase(cfg, s, c))
      ensures c == k ==> Phase(cfg, s, c) == Replied
    {
      CountEdge(cfg, s, p, k, c);
    }
    if q == p {
      assert DoneKids(cfg, s', p) == DoneKids(cfg, s, p) + {k};
      CoverGrows(cfg, s, s', p, k);
    } else {
      assert DoneKids(cfg, s', q) == DoneKids(cfg, s, q);
      assert Cover(cfg, s', q) == Cover(cfg, s, q);
    }
  }

  lemma CountMissing(cfg: Config, s: Sys, p: nat, k: nat, q: nat)
    requires Shows(cfg, s) && CanCount(cfg, s, p, k) && q < cfg.n
    ensures RankShows(cfg, Count(cfg, s, p, k), q)
  {
    var s' := Count(cfg, s, p, k);
    assert RankShows(cfg, s, q) && ReplyShows(cfg, s, k) && EdgeOk(cfg, s, k);
    CountCover(cfg, s, p, k, q);
    if s'.ranks[q].outstanding && !s'.ranks[q].valid {
      var e := s.ranks[q].epoch;
      if s.ranks[q].valid {
        CountEdge(cfg, s, p, k, k);
        assert SomeoneMissing(cfg, s, Subtree(cfg, k), e);
        StillMissing(cfg, s, s', Subtree(cfg, k), e);
        MoreMissing(cfg, s', Subtree(cfg, k), Cover(cfg, s', q), e);
      } else {
        StillMissing(cfg, s, s', Cover(cfg, s, q), e);
        MoreMissing(cfg, s', Cover(cfg, s, q), Cover(cfg, s', q), e);
      }
    }
  }

  lemma MoreMissing(cfg: Config, s: Sys, ys: set<nat>, zs: set<nat>, e: nat)
    requires Shape(cfg, s) && SomeoneMissing(cfg, s, ys, e) && ys <= zs
    ensures SomeoneMissing(cfg, s, zs, e)
  {
  }

  // ----- finishing -----

  lemma FinishShows(cfg: Config, s: Sys, p: nat, count: int, bytes: nat)
    requires Shows(cfg, s) && CanFinish(cfg, s, p)
    ensures Shows(cfg, Finish(cfg, s, p, count, bytes))
  {
    var s' := Finish(cfg, s, p, count, bytes);
    FinishKeepsInv(cfg, s, p, count, bytes);
    forall q: nat | q < cfg.n ensures RankShows(cfg, s', q) {
      FinishMissing(cfg, s, p, count, bytes, q);
    }
    forall c: nat | 1 <= c < cfg.n ensures ReplyShows(cfg, s', c) {
      FinishReply(cfg, s, p, count, bytes, c);
    }
  }

  lemma FinishMissing(cfg: Config, s: Sys, p: nat, count: int, bytes: nat, q: nat)
    requires Shows(cfg, s) && CanFinish(cfg, s, p) && q < cfg.n
    ensures RankShows(cfg, Finish(cfg, s, p, count, bytes), q)
  {
    var s' := Finish(cfg, s, p, count, bytes);
    assert RankShows(cfg, s, q);
    if q != p && s'.ranks[q].outstanding && !s'.ranks[q].valid {
      FinishCover(cfg, s, p, count, bytes, q);
      StillMissing(cfg, s, s', Cover(cfg, s, q), s.ranks[q].epoch);
    }
  }

  lemma FinishCover(cfg: Config, s: Sys, p: nat, count: int, bytes: nat, q: nat)
    requires Inv(cfg, s) && CanFinish(cfg, s, p) && q < cfg.n && q != p
    ensures Cover(cfg, Finish(cfg, s, p, count, bytes), q) == Cover(cfg, s, q)
    ensures p !in Cover(cfg, s, q)
  {
    var s' := Finish(cfg, s, p, count, bytes);
    forall c | c in Kids(cfg, q) ensures Phase(cfg, s', c) == Done <==> Phase(cfg, s, c) == Done {
      FinishEdge(cfg, s, p, count, bytes, c);
    }
    assert DoneKids(cfg, s', q) == DoneKids(cfg, s, q);
    assert Cover(cfg, s', q) == Cover(cfg, s, q);
    if p in Cover(cfg, s, q) {
      var c :| c in DoneKids(cfg, s, q) && p in Subtree(cfg, c);
      StillBelow(cfg, s, c, p);
    }
  }

  lemma FinishReply(cfg: Config, s: Sys, p: nat, count: int, bytes: nat, c: nat)
    requires Shows(cfg, s) && CanFinish(cfg, s, p) && 1 <= c < cfg.n
    ensures ReplyShows(cfg, Finish(cfg, s, p, count, bytes), c)
  {
    var s' := Finish(cfg, s, p, count, bytes);
    FinishEdge(cfg, s, p, count, bytes, c);
    assert EdgeOk(cfg, s, c) && ReplyShows(cfg, s, c);
    if c == p {
      if !s.ranks[p].valid {
        OwnMissing(cfg, s, p, count, bytes);
      }
    } else if Phase(cfg, s', c) == Replied && !At(s.chan, c, Parent(cfg, c))[0].valid {
      if p in Subtree(cfg, c) {
        StillBelow(cfg, s, c, p);
      }
      StillMissing(cfg, s, s', Subtree(cfg, c), s.ranks[c].epoch);
    }
  }

  lemma OwnMissing(cfg: Config, s: Sys, p: nat, count: int, bytes: nat)
    requires Shows(cfg, s) && CanFinish(cfg, s, p) && !s.ranks[p].valid
    ensures SomeoneMissing(cfg, Finish(cfg, s, p, count, bytes), Subtree(cfg, p), s.ranks[p].epoch)
  {
    var s' := Finish(cfg, s, p, count, bytes);
    assert RankShows(cfg, s, p);
    CoverComplete(cfg, s, p);
    StillMissing(cfg, s, s', Cover(cfg, s, p), s.ranks[p].epoch);
    MoreMissing(cfg, s', Cover(cfg, s, p), Subtree(cfg, p), s.ranks[p].epoch);
  }

  lemma StepShows(cfg: Config, s: Sys, x: nat, step: ReduceStep)
    requires Shows(cfg, s) && CanReduce(cfg, s, x, step)
    ensures Shows(cfg, ReduceNext(cfg, s, x, step))
  {
    match step
    case ReduceStart => StartShows(cfg, s, x);
    case ReduceDecline(bytes) => DeclineShows(cfg, s, x, bytes);
    case ReduceCount(from) => CountShows(cfg, s, x, from);
    case ReduceFinish(count, bytes) => FinishShows(cfg, s, x, count, bytes);
  }

  // ----- the result -----

  lemma GaveIfValid(cfg: Config, s: Sys, y: nat)
    requires Inv(cfg, s) && CanFinish(cfg, s, 0) && s.ranks[0].valid && 1 <= y < cfg.n
    ensures s.ranks[y].gaveEpoch == s.ranks[0].epoch
  {
    DeliveredTotal(cfg, s, 0, 0);
    assert Finish(cfg, s, 0, 0, 0).ranks[y].gaveEpoch == s.ranks[0].epoch;
  }

  /** When the root has all results, what it holds is valid exactly if every other rank has
      contributed to this reduction. */
  lemma ValidIfAllGave(cfg: Config, s: Sys)
    requires Shows(cfg, s) && CanFinish(cfg, s, 0)
    ensures s.ranks[0].valid <==> forall y: nat | 1 <= y < cfg.n :: s.ranks[y].gaveEpoch == s.ranks[0].epoch
  {
    if s.ranks[0].valid {
      forall y: nat | 1 <= y < cfg.n ensures s.ranks[y].gaveEpoch == s.ranks[0].epoch {
        GaveIfValid(cfg, s, y);
      }
    } else {
      assert RankShows(cfg, s, 0);
      CoverComplete(cfg, s, 0);
      var y :| y in Cover(cfg, s, 0) && y < cfg.n && s.ranks[y].gaveEpoch < s.ranks[0].epoch;
      assert y != 0;
    }
  }

  // ----- a rank that has declined -----

  /** Rank `y` has passed reduction `e` by without contributing to it. */
  ghost predicate Missed(s: Sys, y: nat, e: nat) {
    && y < |s.ranks|
    && s.ranks[y].epoch >= e && s.ranks[y].gaveEpoch != e
    && (s.ranks[y].outstanding ==> s.ranks[y].epoch > e)
  }

  lemma DeclineMisses(cfg: Config, s: Sys, y: nat, bytes: nat)
    requires Inv(cfg, s) && CanReduce(cfg, s, y, ReduceDecline(bytes))
    ensures var s' := Decline(cfg, s, y, bytes); Missed(s', y, s'.ranks[y].epoch)
  {
    assert EdgeOk(cfg, s, y) && RankOk(cfg, s, y);
  }

  /** It cannot make up for it. */
  lemma MissedStays(cfg: Config, s: Sys, x: nat, step: ReduceStep, y: nat, e: nat)
    requires Inv(cfg, s) && CanReduce(cfg, s, x, step) && y >= 1 && Missed(s, y, e)
    ensures Missed(ReduceNext(cfg, s, x, step), y, e)
  {
    if x == y {
      assert EdgeOk(cfg, s, y) && RankOk(cfg, s, y);
    }
  }

  lemma MissedIsNotDelivered(cfg: Config, s: Sys, y: nat)
    requires Inv(cfg, s) && CanFinish(cfg, s, 0) && 1 <= y < cfg.n && Missed(s, y, s.ranks[0].epoch)
    ensures !s.ranks[0].valid
  {
    if s.ranks[0].valid {
      GaveIfValid(cfg, s, y);
    }
  }
}
