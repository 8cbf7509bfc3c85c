/** Work is shared: a rank that has items to spare, and hears a request, sends some of them. */
module Sharing {
  import opened Channels
  import opened Tree
  import opened WorkTransfer
  import opened WorkRank
  import Splitting
  import L = WorkLoop

  /** How many items the steps send away. */
  function Given(steps: seq<WorkStep>): nat {
    if steps == [] then 0 else (if steps[0].DoShare? then steps[0].items else 0) + Given(steps[1..])
  }

  /** Serving requests takes from the queue what is sent, and nothing else. */
  lemma {:induction false} ServingTakes(n: nat, w: Sys, x: nat, cleanup: bool, aborted: bool, steps: seq<WorkStep>,
                                        w': Sys)
    requires WorkPath(n, w, x, cleanup, aborted, steps, w') && Serves(steps) && x < n
    ensures |w'.desks| == n && |w'.desks[x].queue| + Given(steps) == |w.desks[x].queue|
    decreases |steps|
  {
    if steps != [] {
      var mid := WorkNext(n, w, x, steps[0], aborted);
      ServingTakes(n, mid, x, cleanup, aborted, steps[1..], w');
    }
  }

  lemma {:induction false} SomethingGiven(steps: seq<WorkStep>, i: nat)
    requires i < |steps| && steps[i].DoShare? && steps[i].items >= 1
    ensures Given(steps) >= 1
  {
    if i > 0 {
      SomethingGiven(steps[1..], i - 1);
    }
  }

  /** In equal mode a rank with more items than requestors turns none of them away. */
  lemma NobodyIsTurnedAway(steps: seq<WorkStep>, k: nat, sizes: seq<nat>, count: nat, i: nat)
    requires ServesAll(steps, k, sizes, false, count, true) && count > k && k <= i < 2 * k
    ensures steps[i].DoShare? && 1 <= steps[i].items <= sizes[i - k + 1]
  {
    Splitting.EveryoneGetsSome(sizes, count, k, i - k + 1);
  }

  /** In either mode a rank with two items or more does not turn away its first requestor. */
  lemma FirstIsServed(steps: seq<WorkStep>, k: nat, sizes: seq<nat>, count: nat, equal: bool)
    requires ServesAll(steps, k, sizes, false, count, equal) && count >= 2 && k >= 1
    ensures steps[k].DoShare? && 1 <= steps[k].items <= sizes[1]
  {
    Splitting.FirstGetsSome(sizes, count, k, equal);
  }

  /** A rank that may share sends items exactly if it has two or more and receives a request. */
  lemma SharesIfItCan(cfg: Config, x: nat, p: L.Parts, call: L.Call, q: L.Parts)
    requires L.Follows(cfg, x, false, p, call, q) && call.Serve?
    requires !call.backlog && !p.abort.alarms[x].flag
    ensures |q.work.desks| == cfg.n
    ensures |q.work.desks[x].queue| < |p.work.desks[x].queue| <==> |p.work.desks[x].queue| >= 2 && call.served != []
  {
    var steps, count := call.served, |p.work.desks[x].queue|;
    ServingTakes(cfg.n, p.work, x, false, false, steps, q.work);
    var k: nat, sizes: seq<nat> :| ServesAll(steps, k, sizes, false, count, call.equal);
    if count >= 2 && k >= 1 {
      FirstIsServed(steps, k, sizes, count, call.equal);
      SomethingGiven(steps, k);
    } else if k >= 1 {
      KeepsTheLast(steps, k, sizes, count, call.equal);
    }
  }

  /** A rank with one item keeps it. */
  lemma KeepsTheLast(steps: seq<WorkStep>, k: nat, sizes: seq<nat>, count: nat, equal: bool)
    requires ServesAll(steps, k, sizes, false, count, equal) && count <= 1 && k >= 1
    ensures Given(steps) == 0
  {
    if count == 1 {
      forall i | 1 <= i < |sizes| ensures sizes[i] == 0 {
        Splitting.RestIsSmall(sizes, i);
      }
    }
    forall i | 0 <= i < |steps| ensures !steps[i].DoShare? {
      assert k <= i && count == 1 ==> Fair(steps[i], sizes[i - k + 1]);
    }
    NothingGiven(steps);
  }

  lemma {:induction false} NothingGiven(steps: seq<WorkStep>)
    requires forall i | 0 <= i < |steps| :: !steps[i].DoShare?
    ensures Given(steps) == 0
  {
    if steps != [] {
      NothingGiven(steps[1..]);
    }
  }

  /** So does a rank that notices every request, if one is there for it. */
  lemma AlertRankShares(cfg: Config, x: nat, p: L.Parts, call: L.Call, q: L.Parts, y: nat, sent: bool)
    requires L.Did(cfg, x, false, p, call, q, {}, sent) && call.Serve?
    requires !call.backlog && !p.abort.alarms[x].flag
    requires y < cfg.n && At(p.work.request, y, x) != [] && |p.work.desks[x].queue| >= 2
    ensures |q.work.desks| == cfg.n && |q.work.desks[x].queue| < |p.work.desks[x].queue|
  {
    assert At(q.work.request, y, x) == [];
    SharesIfItCan(cfg, x, p, call, q);
  }
}
