/** The k-ary tree of ranks rooted at rank 0 that all collectives share. */
module Tree {

  lemma {:induction false} MulMono(a: int, b: int, k: nat)
    requires a <= b
    ensures a * k <= b * k
    decreases k
  {
    if k > 0 {
      MulMono(a, b, k - 1);
      assert a * k == a * (k - 1) + a && b * k == b * (k - 1) + b;
    }
  }

  lemma {:induction false} GrowsBy(q: nat, k: nat)
    requires k >= 1
    ensures q * k >= q
    decreases k
  {
    if k > 1 {
      GrowsBy(q, k - 1);
      assert q * k == q * (k - 1) + q;
    }
  }

  lemma DivUnique(a: int, k: nat, p: int, q: int)
    requires p * k <= a < p * k + k
    requires q * k <= a < q * k + k
    ensures p == q
  {
    assert (q + 1) * k == q * k + k;
    assert (p + 1) * k == p * k + k;
    if q < p {
      MulMono(q + 1, p, k);
    } else if q > p {
      MulMono(p + 1, q, k);
    }
  }

  lemma DivBounds(a: nat, k: nat)
    requires k >= 1
    ensures 0 <= a / k <= a
    ensures (a / k) * k <= a < (a / k) * k + k
  {
    var q := a / k;
    assert a == q * k + a % k;
    if q < 0 {
      MulMono(q, -1, k);
      assert false;
    }
    GrowsBy(q, k);
  }

  /** A job of `n` ranks whose communication tree has width `k`. */
  datatype Config = Config(n: nat, k: nat) {
    predicate Valid() {
      n >= 1 && k >= 1
    }
  }

  function Parent(cfg: Config, r: nat): (p: nat)
    requires cfg.Valid() && r >= 1
    ensures p < r
  {
    DivBounds(r - 1, cfg.k);
    (r - 1) / cfg.k
  }

  function Kids(cfg: Config, p: nat): (s: set<nat>)
    requires cfg.Valid()
    ensures forall c :: c in s <==> 1 <= c < cfg.n && Parent(cfg, c) == p
  {
    set c: nat | 1 <= c < cfg.n && Parent(cfg, c) == p
  }

  /** The parent, if there is one, and the children. */
  function Neighbours(cfg: Config, p: nat): set<nat>
    requires cfg.Valid()
  {
    Kids(cfg, p) + if p >= 1 then {Parent(cfg, p)} else {}
  }

  // ----- subtrees -----

  /** `r` is `y` or an ancestor of `y`. */
  predicate Above(cfg: Config, r: nat, y: nat)
    requires cfg.Valid()
    decreases y
  {
    y == r || (y > r && Above(cfg, r, Parent(cfg, y)))
  }

  function Subtree(cfg: Config, r: nat): (s: set<nat>)
    requires cfg.Valid()
    ensures forall y: nat :: y in s <==> y < cfg.n && Above(cfg, r, y)
  {
    set y: nat | y < cfg.n && Above(cfg, r, y)
  }

  /** Every rank hangs below rank 0. */
  lemma {:induction false} RootAboveAll(cfg: Config, y: nat)
    requires cfg.Valid()
    ensures Above(cfg, 0, y)
    decreases y
  {
    if y > 0 {
      RootAboveAll(cfg, Parent(cfg, y));
    }
  }

  /** A rank other than `p` is below `p` exactly if it is below a child of `p`, namely `ChildToward`. */
  function ChildToward(cfg: Config, p: nat, y: nat): (c: nat)
    requires cfg.Valid() && Above(cfg, p, y) && y != p
    ensures 1 <= c <= y && Parent(cfg, c) == p && Above(cfg, c, y)
    decreases y
  {
    if Parent(cfg, y) == p then y else ChildToward(cfg, p, Parent(cfg, y))
  }

  lemma {:induction false} AboveTransitive(cfg: Config, p: nat, c: nat, y: nat)
    requires cfg.Valid() && Above(cfg, p, c) && Above(cfg, c, y)
    ensures Above(cfg, p, y)
    decreases y
  {
    if y != c {
      AboveTransitive(cfg, p, c, Parent(cfg, y));
    }
  }

  /** The subtrees of two children of one rank have no rank in common. */
  lemma {:induction false} SiblingsApart(cfg: Config, c: nat, d: nat, y: nat)
    requires cfg.Valid() && c >= 1 && d >= 1 && Parent(cfg, c) == Parent(cfg, d)
    requires Above(cfg, c, y) && Above(cfg, d, y)
    ensures c == d
    decreases y
  {
    if y == c {
      BelowParentOnly(cfg, c, d);
    } else if y == d {
      BelowParentOnly(cfg, d, c);
    } else {
      SiblingsApart(cfg, c, d, Parent(cfg, y));
    }
  }

  lemma {:induction false} AboveIsSmaller(cfg: Config, r: nat, y: nat)
    requires cfg.Valid() && Above(cfg, r, y)
    ensures r <= y
  {
  }

  lemma BelowParentOnly(cfg: Config, c: nat, d: nat)
    requires cfg.Valid() && c >= 1 && d >= 1 && Parent(cfg, c) == Parent(cfg, d)
    requires Above(cfg, d, c)
    ensures c == d
  {
    if c != d {
      AboveIsSmaller(cfg, d, Parent(cfg, c));
    }
  }

  /** What lies below child `c` of `p`. */
  lemma BelowChild(cfg: Config, p: nat, c: nat, y: nat)
    requires cfg.Valid() && c >= 1 && Parent(cfg, c) == p
    ensures Above(cfg, c, y) <==> Above(cfg, p, y) && y != p && ChildToward(cfg, p, y) == c
  {
    if Above(cfg, c, y) {
      AboveTransitive(cfg, p, c, y);
      AboveIsSmaller(cfg, c, y);
      SiblingsApart(cfg, c, ChildToward(cfg, p, y), y);
    }
  }

  // ----- sums over sets of ranks -----

  /** The sum of `v` over the ranks of `s`. */
  function SetSum(v: seq<int>, s: set<nat>): int {
    if v == [] then 0
    else SetSum(v[..|v| - 1], s) + if |v| - 1 in s then v[|v| - 1] else 0
  }

  lemma {:induction false} SetSumUnion(v: seq<int>, a: set<nat>, b: set<nat>)
    requires a !! b
    ensures SetSum(v, a + b) == SetSum(v, a) + SetSum(v, b)
  {
    if v != [] {
      SetSumUnion(v[..|v| - 1], a, b);
    }
  }

  lemma {:induction false} SetSumAgree(v: seq<int>, v': seq<int>, s: set<nat>)
    requires |v'| == |v| && forall y: nat | y < |v| && y in s :: v'[y] == v[y]
    ensures SetSum(v', s) == SetSum(v, s)
  {
    if v != [] {
      SetSumAgree(v[..|v| - 1], v'[..|v| - 1], s);
    }
  }

  lemma {:induction false} SetSumEmpty(v: seq<int>)
    ensures SetSum(v, {}) == 0
  {
    if v != [] {
      SetSumEmpty(v[..|v| - 1]);
    }
  }

  lemma {:induction false} SetSumSingle(v: seq<int>, p: nat)
    requires p < |v|
    ensures SetSum(v, {p}) == v[p]
  {
    if p == |v| - 1 {
      SetSumOut(v[..|v| - 1], p);
    } else {
      SetSumSingle(v[..|v| - 1], p);
    }
  }

  lemma {:induction false} SetSumOut(v: seq<int>, p: nat)
    requires p >= |v|
    ensures SetSum(v, {p}) == 0
  {
    if v != [] {
      SetSumOut(v[..|v| - 1], p);
    }
  }

  function Total(v: seq<int>): int {
    if v == [] then 0 else Total(v[..|v| - 1]) + v[|v| - 1]
  }

  lemma {:induction false} EverybodyCounts(v: seq<int>, s: set<nat>)
    requires forall y: nat | y < |v| :: y in s
    ensures SetSum(v, s) == Total(v)
  {
    if v != [] {
      EverybodyCounts(v[..|v| - 1], s);
    }
  }

  lemma {:induction false} TotalGrows(v: seq<int>, v': seq<int>, p: nat)
    requires |v'| == |v|
    requires forall i | 0 <= i < |v| :: v[i] <= v'[i]
    ensures Total(v) + (if p < |v| then v'[p] - v[p] else 0) <= Total(v')
  {
    if v != [] {
      TotalGrows(v[..|v| - 1], v'[..|v| - 1], p);
    }
  }

  lemma {:induction false} TotalAtMost(v: seq<int>, b: int)
    requires forall i | 0 <= i < |v| :: v[i] <= b
    ensures Total(v) <= |v| * b
  {
    if v != [] {
      TotalAtMost(v[..|v| - 1], b);
      assert |v| * b == (|v| - 1) * b + b;
    }
  }

  lemma {:induction false} TotalAtLeast(v: seq<int>, b: int)
    requires forall i | 0 <= i < |v| :: v[i] >= b
    ensures Total(v) >= |v| * b
  {
    if v != [] {
      TotalAtLeast(v[..|v| - 1], b);
      assert |v| * b == (|v| - 1) * b + b;
    }
  }

  lemma {:induction false} TotalIsPositive(v: seq<int>)
    requires forall i | 0 <= i < |v| :: v[i] >= 0
    ensures Total(v) >= 0
  {
    if v != [] {
      TotalIsPositive(v[..|v| - 1]);
    }
  }

  lemma SubsetCard<T>(a: set<T>, b: set<T>)
    requires a <= b
    ensures |a| <= |b|
  {
    assert |b - a| == |b| - |a|;
  }

  lemma SubsetOfSameSize<T>(a: set<T>, b: set<T>)
    requires a <= b && |a| == |b|
    ensures a == b
  {
    assert |b - a| == |b| - |a|;
    assert b == a + (b - a);
  }
}
