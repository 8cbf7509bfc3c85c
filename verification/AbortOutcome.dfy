/** How an abort ends: after fewer rounds than there are ranks, every rank is in the abort state, or the ranks
    have left their main loops without it. */
module AbortOutcome {
  import opened Tree
  import opened Protocol
  import opened Moves
  import opened AbortSpread
  import opened AbortDiligence
  import opened CodeSafety
  import opened Rounds
  import opened Outcome

  ghost predicate AllWork(cfg: Config, s: State) {
    Shape(cfg, s) && forall x: nat | x < cfg.n :: s.phase[x] == Working
  }

  /** The ranks in the abort state. */
  ghost function Knowing(cfg: Config, s: State): (k: set<nat>)
    requires Shape(cfg, s)
    ensures forall x: nat :: x in k <==> x < cfg.n && s.abort.alarms[x].state
  {
    set x: nat | x < cfg.n && s.abort.alarms[x].state
  }

  /** A rank that does not know has a tree neighbour that does, if any rank does. */
  lemma Frontier(cfg: Config, known: nat -> bool, x: nat, z: nat) returns (p: nat, q: nat)
    requires cfg.Valid() && x < cfg.n && z < cfg.n && known(x) && !known(z)
    ensures p < cfg.n && q in Neighbours(cfg, p) && known(p) && !known(q)
  {
    if p': nat, q': nat :| p' < cfg.n && known(p') && q' in Neighbours(cfg, p') && !known(q') {
      p, q := p', q';
    } else {
      SpreadsUp(cfg, known, x);
      SpreadsDown(cfg, known, z);
      assert false;
    }
  }

  lemma WorkedBefore(cfg: Config, s: State, t: State)
    requires LeadsTo(cfg, s, t) && Shape(cfg, s) && AllWork(cfg, t)
    ensures AllWork(cfg, s)
  {
    forall x: nat | x < cfg.n ensures s.phase[x] == Working {
      WorkingBefore(cfg, s, t, x);
    }
  }

  /** As long as all ranks are in their main loops, one of them knows and one does not, every round lets another
      one know. */
  lemma AbortRound(cfg: Config, how: seq<Manner>, s: State, t: State, x: nat, z: nat)
    requires Reachable(cfg, s) && Round(cfg, how, s, t) && AllWork(cfg, t)
    requires x in Knowing(cfg, s) && z < cfg.n && z !in Knowing(cfg, s)
    ensures Knowing(cfg, s) < Knowing(cfg, t)
  {
    WorkedBefore(cfg, s, t);
    var known := (y: nat) => y in Knowing(cfg, s);
    var p, q := Frontier(cfg, known, x, z);
    AbortIsSent(cfg, s, p, q);
    assert Warned(cfg, s, q);
    assert CodeSafety.Diligent(cfg, q, how[q], s, t);
    forall y | y in Knowing(cfg, s) ensures y in Knowing(cfg, t) {
      AlarmStays(cfg, s, t, y);
    }
    assert q in Knowing(cfg, t);
  }

  /** More than `d` ranks know, or all. */
  ghost predicate Spreading(cfg: Config, s: State, x: nat, d: nat) {
    && Shape(cfg, s) && Reachable(cfg, s) && x in Knowing(cfg, s)
    && (AllWork(cfg, s) ==> |Knowing(cfg, s)| > d || forall z: nat | z < cfg.n :: z in Knowing(cfg, s))
  }

  lemma SpreadsOn(cfg: Config, how: seq<Manner>, s: State, t: State, x: nat, d: nat)
    requires Spreading(cfg, s, x, d) && Round(cfg, how, s, t)
    ensures Spreading(cfg, t, x, d + 1)
  {
    WorkingBefore(cfg, s, t, x);
    LeadsToReachable(cfg, s, t);
    AlarmStays(cfg, s, t, x);
    if AllWork(cfg, t) {
      WorkedBefore(cfg, s, t);
      if z: nat :| z < cfg.n && z !in Knowing(cfg, s) {
        AbortRound(cfg, how, s, t, x, z);
        SmallerCard(Knowing(cfg, s), Knowing(cfg, t));
      } else {
        forall z: nat | z < cfg.n ensures z in Knowing(cfg, t) {
          AlarmStays(cfg, s, t, z);
        }
      }
    }
  }

  lemma SmallerCard<T>(a: set<T>, b: set<T>)
    requires a < b
    ensures |a| < |b|
  {
    assert |b - a| == |b| - |a|;
  }

  lemma {:induction false} FewRanks(k: set<nat>, m: nat)
    requires forall x | x in k :: x < m
    ensures |k| <= m
    ensures |k| == m ==> forall x: nat | x < m :: x in k
    decreases m
  {
    if m > 0 {
      var less := k - {m - 1};
      FewRanks(less, m - 1);
      assert k == if m - 1 in k then less + {m - 1} else less;
      if |k| == m {
        forall x: nat | x < m ensures x in k {
          assert x < m - 1 ==> x in less;
        }
      }
    } else {
      assert k == {};
    }
  }

  /** When a rank has entered the abort state in a system whose ranks are all in their main loops, it takes
      fewer than n rounds until all have entered it, unless the ranks leave their main loops before. */
  lemma AbortReachesEverybody(cfg: Config, how: seq<Manner>, run: seq<State>, steps: seq<Step>, cuts: seq<nat>,
                              x: nat, k: nat, j: nat, z: nat)
    requires InRounds(cfg, how, run, steps, cuts) && k < |cuts| && Shape(cfg, run[cuts[k]])
    requires Reachable(cfg, run[cuts[k]]) && x in Knowing(cfg, run[cuts[k]])
    requires k + cfg.n <= j + 1 && k <= j < |cuts| && AllWork(cfg, run[cuts[j]]) && z < cfg.n
    ensures run[cuts[j]].abort.alarms[z].state
  {
    EndsAreRounds(cfg, how, run, steps, cuts);
    var ends := Ends(run, cuts);
    var spreading := (s: State, d: nat) => Spreading(cfg, s, x, d);
    FewRanks(Knowing(cfg, ends[k]), cfg.n);
    assert Knowing(cfg, ends[k]) != {};
    forall a: State, d: nat, b: State | spreading(a, d) && Round(cfg, how, a, b) ensures spreading(b, d + 1) {
      SpreadsOn(cfg, how, a, b, x, d);
    }
    KeptByRounds(cfg, how, ends, spreading, k, j);
    FewRanks(Knowing(cfg, ends[j]), cfg.n);
  }
}
