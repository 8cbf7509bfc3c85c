/** Computing a rank's place in the tree (CIRCLE_tree_init in libcircle/token.c).

    The code computes an interval of ranks for the children; `Tree` says what the children
    of a rank are.
 */
module TreeInit {
  import opened Tree

  const MPI_PROC_NULL: int := -1

  /** How many of the ranks r * k + 1, ..., r * k + k exist. */
  function ChildCount(cfg: Config, r: nat): nat
    requires cfg.Valid()
  {
    MulMono(0, r, cfg.k);
    var left := r * cfg.k + 1;
    if left >= cfg.n then 0
    else if left + cfg.k <= cfg.n then cfg.k
    else cfg.n - left
  }

  /** The children in the order in which the collectives visit them. */
  function ChildList(cfg: Config, r: nat): (s: seq<nat>)
    requires cfg.Valid()
  {
    MulMono(0, r, cfg.k);
    seq(ChildCount(cfg, r), i requires 0 <= i => r * cfg.k + 1 + i)
  }

  /** The ranks whose parent is `r` are those of an interval. */
  lemma KidRange(cfg: Config, r: nat, c: nat)
    requires cfg.Valid() && 1 <= c < cfg.n
    ensures Parent(cfg, c) == r <==> r * cfg.k + 1 <= c <= r * cfg.k + cfg.k
  {
    DivBounds(c - 1, cfg.k);
    if r * cfg.k + 1 <= c <= r * cfg.k + cfg.k {
      DivUnique(c - 1, cfg.k, r, Parent(cfg, c));
    }
  }

  lemma InList(cfg: Config, r: nat, c: nat)
    requires cfg.Valid()
    ensures c in ChildList(cfg, r) <==> r * cfg.k + 1 <= c < r * cfg.k + 1 + ChildCount(cfg, r)
    ensures c in ChildList(cfg, r) <==> r * cfg.k + 1 <= c <= r * cfg.k + cfg.k && c < cfg.n
  {
    var list, left := ChildList(cfg, r), r * cfg.k + 1;
    if left <= c < left + |list| {
      assert list[c - left] == c;
    }
  }

  lemma ChildIsKid(cfg: Config, r: nat, c: nat)
    requires cfg.Valid()
    ensures c in ChildList(cfg, r) <==> c in Kids(cfg, r)
  {
    MulMono(0, r, cfg.k);
    InList(cfg, r, c);
    if 1 <= c < cfg.n {
      KidRange(cfg, r, c);
    }
  }

  /** The list names every child exactly once, in increasing order. */
  lemma ChildListIsKids(cfg: Config, r: nat)
    requires cfg.Valid()
    ensures forall c: nat :: c in ChildList(cfg, r) <==> c in Kids(cfg, r)
    ensures forall i, j | 0 <= i < j < |ChildList(cfg, r)| :: ChildList(cfg, r)[i] < ChildList(cfg, r)[j]
    ensures |ChildList(cfg, r)| == |Kids(cfg, r)| <= cfg.k
  {
    MulMono(0, r, cfg.k);
    var left := r * cfg.k + 1;
    forall c: nat
      ensures c in ChildList(cfg, r) <==> c in Kids(cfg, r)
      ensures c in Kids(cfg, r) <==> left <= c < left + ChildCount(cfg, r)
    {
      ChildIsKid(cfg, r, c);
      InList(cfg, r, c);
    }
    IntervalSize(Kids(cfg, r), left, ChildCount(cfg, r));
  }

  lemma {:induction false} IntervalSize(s: set<nat>, lo: nat, len: nat)
    requires forall c: nat :: c in s <==> lo <= c < lo + len
    ensures |s| == len
    decreases len
  {
    if len == 0 {
      assert s == {};
    } else {
      IntervalSize(s - {lo + len - 1}, lo, len - 1);
    }
  }

  /** Every rank but the root is in the child list of exactly one rank, its parent. */
  lemma ListsPartitionRanks(cfg: Config, c: nat, r: nat)
    requires cfg.Valid() && 1 <= c < cfg.n
    ensures c in ChildList(cfg, r) <==> r == Parent(cfg, c)
    ensures Parent(cfg, c) < cfg.n
  {
    ChildListIsKids(cfg, r);
  }

  class TreeState {
    var rank: int
    var ranks: int
    var parentRank: int
    var children: int
    var childRanks: array<int>

    /** The place of rank `r` in the tree. */
    ghost predicate IsPlaceOf(cfg: Config, r: nat)
      requires cfg.Valid()
      reads this, childRanks
    {
      && rank == r && ranks == cfg.n
      && parentRank == (if r >= 1 then Parent(cfg, r) else MPI_PROC_NULL)
      && children == |ChildList(cfg, r)| && childRanks.Length == cfg.k >= children
      && (forall i | 0 <= i < children :: childRanks[i] == ChildList(cfg, r)[i])
      && (forall i | children <= i < cfg.k :: childRanks[i] == MPI_PROC_NULL)
    }

    /** CIRCLE_tree_init. */
    constructor (cfg: Config, r: nat)
      requires cfg.Valid() && r < cfg.n
      ensures IsPlaceOf(cfg, r) && fresh(childRanks)
    {
      var n, k := cfg.n, cfg.k;
      rank, ranks := r, n;
      parentRank, children := MPI_PROC_NULL, 0;
      childRanks := new int[k];
      new;
      for i := 0 to k
        modifies childRanks
        invariant forall j | 0 <= j < i :: childRanks[j] == MPI_PROC_NULL
      {
        childRanks[i] := MPI_PROC_NULL;
      }
      if r > 0 {
        parentRank := (r - 1) / k;
      }
      MulMono(0, r, k);
      var left := r * k + 1;
      var right := r * k + k;
      if left < n {
        if right >= n {
          right := n - 1;
        }
        children := right - left + 1;
        for i := 0 to children
          modifies childRanks
          invariant forall j | 0 <= j < i :: childRanks[j] == left + j
          invariant forall j | i <= j < k :: childRanks[j] == MPI_PROC_NULL
        {
          childRanks[i] := left + i;
        }
      }
    }
  }
}
