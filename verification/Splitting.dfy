/** How a rank divides its queue among itself and the ranks that ask for work
    (spread_counts and CIRCLE_send_work_to_many in libcircle/token.c). */
module Splitting {
  import opened CStrings
  import opened StringPool

  /** Entry `i` of `count` spread over `ranks` entries. */
  function ShareOf(count: nat, ranks: nat, i: nat): nat
    requires ranks >= 1
  {
    count / ranks + if i < count % ranks then 1 else 0
  }

  function Sum(s: seq<nat>): nat {
    if s == [] then 0 else Sum(s[..|s| - 1]) + s[|s| - 1]
  }

  function Shares(count: nat, ranks: nat): seq<nat>
    requires ranks >= 1
  {
    seq(ranks, i requires 0 <= i < ranks => ShareOf(count, ranks, i))
  }

  lemma {:induction false} SumOfEntries(s: seq<nat>, base: nat, extra: nat)
    requires forall i | 0 <= i < |s| :: s[i] == base + if i < extra then 1 else 0
    ensures Sum(s) == |s| * base + if |s| < extra then |s| else extra
  {
    if s != [] {
      SumOfEntries(s[..|s| - 1], base, extra);
      assert |s| * base == (|s| - 1) * base + base;
    }
  }

  /** An even split of `count`, the larger shares first. */
  ghost predicate Even(s: seq<nat>, count: nat) {
    && Sum(s) == count
    && forall i, j | 0 <= i <= j < |s| :: s[j] <= s[i] <= s[j] + 1
  }

  /** The shares add up to the whole, no two differ by more than 1, and the larger ones come first. */
  lemma SharesAddUp(count: nat, ranks: nat)
    requires ranks >= 1
    ensures |Shares(count, ranks)| == ranks && Even(Shares(count, ranks), count)
  {
    SumOfEntries(Shares(count, ranks), count / ranks, count % ranks);
    assert count == ranks * (count / ranks) + count % ranks;
  }

  /** spread_counts, on the entries of `sizes` from `lo` on. */
  method SpreadCounts(sizes: array<nat>, lo: nat, ranks: nat, count: nat)
    requires ranks >= 1 && lo + ranks <= sizes.Length
    modifies sizes
    ensures sizes[..lo] == old(sizes[..lo]) && sizes[lo + ranks..] == old(sizes[lo + ranks..])
    ensures sizes[lo..lo + ranks] == Shares(count, ranks)
  {
    var base := count / ranks;
    var extra := count - base * ranks;
    ghost var shares := Shares(count, ranks);
    SharesAre(count, ranks, base, extra);
    var i := 0;
    while i < extra
      invariant 0 <= i <= extra
      invariant forall j | 0 <= j < lo || lo + ranks <= j < sizes.Length :: sizes[j] == old(sizes[j])
      invariant forall j | 0 <= j < i :: sizes[lo + j] == shares[j]
    {
      sizes[lo + i] := base + 1;
      i := i + 1;
    }
    while i < ranks
      invariant extra <= i <= ranks
      invariant forall j | 0 <= j < lo || lo + ranks <= j < sizes.Length :: sizes[j] == old(sizes[j])
      invariant forall j | 0 <= j < i :: sizes[lo + j] == shares[j]
    {
      sizes[lo + i] := base;
      i := i + 1;
    }
    assert sizes[lo..lo + ranks] == shares;
  }

  lemma SharesAre(count: nat, ranks: nat, base: int, extra: int)
    requires ranks >= 1 && base == count / ranks && extra == count - base * ranks
    ensures 0 <= extra < ranks && base >= 0
    ensures forall i | 0 <= i < ranks :: Shares(count, ranks)[i] == base + if i < extra then 1 else 0
  {
    assert extra == count % ranks;
  }

  /** How many items the random mode sends: any number but none, and one item is kept. */
  function SendTotal(count: nat, random: nat): (send: nat)
    requires count >= 1
    ensures send < count && (count >= 2 ==> send >= 1)
  {
    var send := random % count + 1;
    if send == count then send - 1 else send
  }

  /** No number is left out. */
  lemma AnyTotal(count: nat, send: nat)
    requires 1 <= send < count
    ensures SendTotal(count, send - 1) == send
  {
  }

  /** How `count` items are divided: what is kept comes first, and then what is meant for each of `rcount`
      requestors.  In equal mode the rank itself takes part in the split; in random mode it keeps one item
      at least and sends one at least, if it has two, and the requestors get equal shares. */
  ghost predicate Divides(sizes: seq<nat>, count: nat, rcount: nat, equal: bool) {
    && |sizes| == rcount + 1 && Sum(sizes) == count && 1 <= sizes[0] <= count
    && if equal then Even(sizes, count)
       else Even(sizes[1..], count - sizes[0]) && (count >= 2 ==> sizes[0] < count)
  }

  /** With more items than requestors, each of them is meant to get some in equal mode. */
  lemma EveryoneGetsSome(sizes: seq<nat>, count: nat, rcount: nat, i: nat)
    requires Divides(sizes, count, rcount, true) && count > rcount && i <= rcount
    ensures sizes[i] >= 1
  {
    if sizes[i] == 0 {
      forall j | 0 <= j < |sizes| ensures sizes[j] <= 1 {
        assert if j <= i then sizes[j] <= sizes[i] + 1 else sizes[j] <= sizes[i];
      }
      SumOfOnes(sizes, i);
    }
  }

  lemma {:induction false} SumOfOnes(s: seq<nat>, p: nat)
    requires forall i | 0 <= i < |s| :: s[i] <= 1
    ensures Sum(s) <= |s| && (p < |s| && s[p] == 0 ==> Sum(s) < |s|)
  {
    if s != [] {
      SumOfOnes(s[..|s| - 1], p);
    }
  }

  /** In any mode a rank with two items and a requestor means to send some, to the first one at least. */
  lemma FirstGetsSome(sizes: seq<nat>, count: nat, rcount: nat, equal: bool)
    requires Divides(sizes, count, rcount, equal) && count >= 2 && rcount >= 1
    ensures sizes[1] >= 1
  {
    var rest := sizes[1..];
    assert sizes == [sizes[0]] + rest;
    SumCons(sizes[0], rest);
    if sizes[1] == 0 {
      forall i | 0 <= i < |rest| ensures rest[i] == 0 {
        assert rest[i] == sizes[i + 1];
        if equal {
          assert sizes[i + 1] <= sizes[1];
        } else {
          assert rest[i] <= rest[0];
        }
      }
      SumOfNothing(rest);
    }
  }

  lemma {:induction false} SumOfNothing(s: seq<nat>)
    requires forall i | 0 <= i < |s| :: s[i] == 0
    ensures Sum(s) == 0
  {
    if s != [] {
      SumOfNothing(s[..|s| - 1]);
    }
  }

  lemma SharesDivide(count: nat, rcount: nat)
    requires count >= 1
    ensures Divides(Shares(count, rcount + 1), count, rcount, true)
  {
    SharesAddUp(count, rcount + 1);
    KeptShare(count, rcount + 1);
    SumAtLeast(Shares(count, rcount + 1), 0);
  }

  lemma RestDivides(count: nat, rcount: nat, send: nat)
    requires send < count && rcount >= 1 && (count >= 2 ==> send >= 1)
    ensures Divides([count - send] + Shares(send, rcount), count, rcount, false)
  {
    SharesAddUp(send, rcount);
    SumCons(count - send, Shares(send, rcount));
    assert ([count - send] + Shares(send, rcount))[1..] == Shares(send, rcount);
  }

  /** How many items to keep, then how many to send to each requestor.  `random` is what
      rand_r returns. */
  method Split(count: nat, rcount: nat, equal: bool, random: nat) returns (sizes: array<nat>)
    requires count >= 1 && rcount >= 1
    ensures fresh(sizes) && Divides(sizes[..], count, rcount, equal)
    ensures sizes[..] == if equal then Shares(count, rcount + 1)
                         else [count - SendTotal(count, random)] + Shares(SendTotal(count, random), rcount)
  {
    sizes := new nat[rcount + 1](_ => 0);
    if equal {
      SpreadCounts(sizes, 0, rcount + 1, count);
      assert sizes[..] == sizes[0..0 + (rcount + 1)] == Shares(count, rcount + 1);
      SharesDivide(count, rcount);
    } else {
      var send := random % count + 1;
      if send == count {
        send := send - 1;
      }
      SplitRandom(sizes, count, send);
      RestDivides(count, rcount, send);
    }
  }

  /** The remaining steps of the random mode, which sends `send` items. */
  method SplitRandom(sizes: array<nat>, count: nat, send: nat)
    requires send < count && sizes.Length >= 2
    modifies sizes
    ensures sizes[..] == [count - send] + Shares(send, sizes.Length - 1)
  {
    var rcount := sizes.Length - 1;
    sizes[0] := count - send;
    SpreadCounts(sizes, 1, rcount, send);
    assert sizes[..1] == [count - send];
    assert sizes[..] == sizes[..1] + sizes[1..1 + rcount];
  }

  lemma KeptShare(count: nat, ranks: nat)
    requires count >= 1 && ranks >= 1
    ensures ShareOf(count, ranks, 0) >= 1
  {
    if count % ranks == 0 {
      assert count == ranks * (count / ranks);
    }
  }

  lemma {:induction false} SumCons(x: nat, s: seq<nat>)
    ensures Sum([x] + s) == x + Sum(s)
  {
    if s == [] {
      assert ([x] + s)[..0] == [];
    } else {
      SumCons(x, s[..|s| - 1]);
      assert ([x] + s)[..|s|] == [x] + s[..|s| - 1];
    }
  }

  // ----- sending -----

  /** The items that a wire message carries. */
  ghost function ItemsOf(wire: Wire): seq<Item>
    requires WireOk(wire)
  {
    if wire.Code? then [] else Decode(wire.offsets, wire.data)
  }

  ghost predicate WireOk(wire: Wire) {
    wire.Transfer? ==> WellFormed(wire.offsets, wire.data)
  }

  ghost predicate AllOk(wires: seq<Wire>) {
    forall i | 0 <= i < |wires| :: WireOk(wires[i])
  }

  /** What a sequence of sends takes off the top of the stack: the first send took the top. */
  ghost function Carried(wires: seq<Wire>): seq<Item>
    requires AllOk(wires)
  {
    if wires == [] then [] else ItemsOf(wires[|wires| - 1]) + Carried(wires[..|wires| - 1])
  }

  /** What the reply carries of a queue whose strings are at `offs` in `b`, when `n` items are meant for the
      requestor: the bare code if none are; all of them if their block fits in one message; and if it does not, as
      many as the back-off arrives at. */
  ghost predicate Sent(b: seq<char>, offs: seq<nat>, n: int, abort: bool, wire: Wire) {
    && WireOk(wire) && n <= |offs| && InPool(b, offs)
    && if n <= 0 then wire == Code(if abort then PAYLOAD_ABORT else 0)
       else wire.Transfer? && 1 <= |ItemsOf(wire)| == wire.offsets[0] == BackedOff(b, offs, n) <= n
  }

  /** A reply carries what is meant for it, or as much of it as fits, from below what the `earlier` ones
      carry. */
  ghost predicate ServedAfter(b: seq<char>, offs: seq<nat>, earlier: seq<Wire>, n: nat, abort: bool,
                              wire: Wire) {
    && AllOk(earlier) && |Carried(earlier)| <= |offs|
    && Sent(b, offs[..|offs| - |Carried(earlier)|], n, abort, wire)
  }

  ghost predicate Served(b: seq<char>, offs: seq<nat>, wires: seq<Wire>, sizes: seq<nat>, abort: bool) {
    && |wires| < |sizes|
    && forall i {:trigger wires[i]} | 0 <= i < |wires| ::
         ServedAfter(b, offs, wires[..i], sizes[i + 1], abort, wires[i])
  }

  /** The reply carries all of `n` items, or fewer because their block is too long. */
  ghost predicate AllOrTooLong(b: seq<char>, offs: seq<nat>, n: nat, wire: Wire) {
    && WireOk(wire)
    && (|ItemsOf(wire)| == n
        || (1 <= |ItemsOf(wire)| < n <= |offs| && InPool(b, offs) && BlockLength(b, offs, n) > INT32_MAX))
  }

  lemma SentMeans(b: seq<char>, offs: seq<nat>, n: nat, abort: bool, wire: Wire)
    ensures Sent(b, offs, n, abort, wire) ==> AllOrTooLong(b, offs, n, wire)
  {
  }

  /** So reply `i` carries all of `sizes[i + 1]` items, unless their block is too long. */
  lemma ServedMeans(b: seq<char>, offs: seq<nat>, wires: seq<Wire>, sizes: seq<nat>, abort: bool, i: nat)
    requires Served(b, offs, wires, sizes, abort) && i < |wires|
    ensures AllOk(wires[..i]) && |Carried(wires[..i])| <= |offs|
    ensures AllOrTooLong(b, offs[..|offs| - |Carried(wires[..i])|], sizes[i + 1], wires[i])
  {
    assert ServedAfter(b, offs, wires[..i], sizes[i + 1], abort, wires[i]);
    SentMeans(b, offs[..|offs| - |Carried(wires[..i])|], sizes[i + 1], abort, wires[i]);
  }

  /** CIRCLE_send_work: the reply to one requestor. */
  method SendWork(pool: Pool, n: int, abort: bool) returns (wire: Wire)
    requires pool.Valid() && n < pool.count && pool.strings.Length <= INT32_MAX
    modifies pool`count
    ensures pool.Valid() && WireOk(wire)
    ensures old(pool.Items()) == pool.Items() + ItemsOf(wire)
    ensures n > 0 ==> wire.Transfer? && FitsInt32(wire.offsets) && |wire.data| <= INT32_MAX
    ensures Sent(pool.base[..], old(pool.strings[..pool.count]), n, abort, wire)
  {
    FitsInPool(pool.base[..], pool.strings[..pool.count], pool.head);
    if n <= 0 {
      return Code(if abort then PAYLOAD_ABORT else 0);
    }
    wire := pool.TakeBlock(n);
  }

  lemma {:induction false} SumAtLeast(s: seq<nat>, i: nat)
    requires i < |s|
    ensures Sum(s) >= s[i]
  {
    if i < |s| - 1 {
      SumAtLeast(s[..|s| - 1], i);
    }
  }

  /** The replies so far have taken the top of the queue `items`, whose strings are at `offs` in `b`, and have
      left `q`. */
  ghost predicate Taken(items: seq<Item>, q: seq<Item>, b: seq<char>, offs: seq<nat>, wires: seq<Wire>,
                        sizes: seq<nat>, abort: bool) {
    && AllOk(wires) && Served(b, offs, wires, sizes, abort)
    && |items| == |offs| && items == q + Carried(wires)
  }

  lemma TakeNext(items: seq<Item>, q: seq<Item>, q': seq<Item>, b: seq<char>, offs: seq<nat>, wires: seq<Wire>,
                 wire: Wire, sizes: seq<nat>, abort: bool)
    requires Taken(items, q, b, offs, wires, sizes, abort) && |wires| + 1 < |sizes| && |q| <= |offs|
    requires Sent(b, offs[..|q|], sizes[|wires| + 1], abort, wire) && q == q' + ItemsOf(wire)
    ensures Taken(items, q', b, offs, wires + [wire], sizes, abort)
  {
    assert |items| == |q| + |Carried(wires)|;
    assert offs[..|offs| - |Carried(wires)|] == offs[..|q|];
    assert ServedAfter(b, offs, wires, sizes[|wires| + 1], abort, wire);
    assert AllOk(wires + [wire]);
    ServedNext(b, offs, wires, wire, sizes, abort);
    CarriedNext(items, q, q', wires, wire);
  }

  /** The queue of the pool is the bottom of the one that is at `offs` in `b`. */
  ghost predicate Bottom(pool: Pool, b: seq<char>, offs: seq<nat>)
    reads pool, pool.base, pool.strings
  {
    pool.base[..] == b && pool.count <= pool.strings.Length && pool.strings[..pool.count] <= offs
  }

  /** The reply to the next requestor, when earlier replies have taken the top of the queue. */
  method SendNext(pool: Pool, n: nat, abort: bool, ghost b: seq<char>, ghost offs: seq<nat>) returns (wire: Wire)
    requires pool.Valid() && Bottom(pool, b, offs) && n < pool.count && pool.strings.Length <= INT32_MAX
    modifies pool`count
    ensures pool.Valid() && Bottom(pool, b, offs) && pool.count + n >= old(pool.count)
    ensures WireOk(wire) && old(pool.Items()) == pool.Items() + ItemsOf(wire)
    ensures Sent(b, offs[..old(pool.count)], n, abort, wire)
  {
    ghost var q := pool.Items();
    assert pool.strings[..pool.count] == offs[..pool.count];
    wire := SendWork(pool, n, abort);
    assert |q| == pool.count + |ItemsOf(wire)|;
  }

  /** What is meant for a requestor is not kept. */
  lemma RestIsSmall(sizes: seq<nat>, i: nat)
    requires 1 <= i < |sizes|
    ensures sizes[0] + sizes[i] <= Sum(sizes)
  {
    var rest := sizes[1..];
    assert sizes == [sizes[0]] + rest;
    SumCons(sizes[0], rest);
    SumAtLeast(rest, i - 1);
  }

  /** The loop over the requestors: every reply takes the next items off the top, even after
      an earlier reply has backed off, and what was meant to be kept is kept. */
  method SendAll(pool: Pool, sizes: seq<nat>, abort: bool) returns (wires: seq<Wire>)
    requires pool.Valid() && sizes != [] && sizes[0] >= 1
    requires Sum(sizes) == pool.count && pool.strings.Length <= INT32_MAX
    modifies pool`count
    ensures pool.Valid() && pool.count >= sizes[0]
    ensures |wires| == |sizes| - 1 && AllOk(wires)
    ensures Served(pool.base[..], old(pool.strings[..pool.count]), wires, sizes, abort)
    ensures old(pool.Items()) == pool.Items() + Carried(wires)
  {
    ghost var items, b, offs := pool.Items(), pool.base[..], pool.strings[..pool.count];
    wires := [];
    EnoughAtFirst(sizes);
    for i := 0 to |sizes| - 1
      invariant pool.Valid() && Bottom(pool, b, offs)
      invariant |wires| == i && Taken(items, pool.Items(), b, offs, wires, sizes, abort)
      invariant Enough(sizes, i, pool.count)
    {
      EnoughForNext(sizes, i, pool.count);
      ghost var q := pool.Items();
      var wire := SendNext(pool, sizes[i + 1], abort, b, offs);
      TakeNext(items, q, pool.Items(), b, offs, wires, wire, sizes, abort);
      wires := wires + [wire];
    }
    EnoughAtLast(sizes, pool.count);
  }

  lemma Associates<T>(a: seq<T>, b: seq<T>, c: seq<T>)
    ensures (a + b) + c == a + (b + c)
  {
  }

  lemma ServedNext(b: seq<char>, offs: seq<nat>, wires: seq<Wire>, wire: Wire, sizes: seq<nat>,
                   abort: bool)
    requires Served(b, offs, wires, sizes, abort) && |wires| + 1 < |sizes|
    requires ServedAfter(b, offs, wires, sizes[|wires| + 1], abort, wire)
    ensures Served(b, offs, wires + [wire], sizes, abort)
  {
    var all := wires + [wire];
    forall i | 0 <= i < |all| ensures ServedAfter(b, offs, all[..i], sizes[i + 1], abort, all[i]) {
      if i < |wires| {
        assert all[..i] == wires[..i] && all[i] == wires[i];
      } else {
        assert all[..i] == wires;
      }
    }
  }

  lemma CarriedNext(items: seq<Item>, rest: seq<Item>, rest': seq<Item>, wires: seq<Wire>, wire: Wire)
    requires AllOk(wires) && AllOk(wires + [wire]) && WireOk(wire)
    requires items == rest + Carried(wires) && rest == rest' + ItemsOf(wire)
    ensures items == rest' + Carried(wires + [wire])
  {
    assert (wires + [wire])[..|wires|] == wires;
    Associates(rest', ItemsOf(wire), Carried(wires));
  }

  /** CIRCLE_send_work_to_many: the replies carry the top of the stack, split as above. */
  method SendWorkToMany(pool: Pool, rcount: nat, equal: bool, random: nat, abort: bool)
    returns (wires: seq<Wire>, ghost sizes: seq<nat>)
    requires pool.Valid() && pool.count >= 1 && rcount >= 1 && pool.strings.Length <= INT32_MAX
    modifies pool`count
    ensures pool.Valid() && pool.count >= 1
    ensures |wires| == rcount && AllOk(wires)
    ensures old(pool.Items()) == pool.Items() + Carried(wires)
    ensures Divides(sizes, old(pool.count), rcount, equal)
    ensures Served(pool.base[..], old(pool.strings[..pool.count]), wires, sizes, abort)
  {
    var shares := Split(pool.count, rcount, equal, random);
    sizes := shares[..];
    wires := SendAll(pool, shares[..], abort);
  }

  /** What is still to be sent includes the next share. */
  lemma RestCovers(s: seq<nat>, i: nat)
    requires i + 1 < |s|
    ensures Sum(s[..i + 2]) == Sum(s[..i + 1]) + s[i + 1] <= Sum(s)
  {
    assert s[..i + 2][..i + 1] == s[..i + 1];
    SumPrefix(s, i + 2);
  }

  /** `left` items are enough for the share that is kept and those after the first `i` requestors. */
  ghost predicate Enough(sizes: seq<nat>, i: nat, left: int)
    requires i < |sizes|
  {
    left >= sizes[0] + (Sum(sizes) - Sum(sizes[..i + 1]))
  }

  lemma EnoughAtFirst(sizes: seq<nat>)
    requires sizes != []
    ensures Enough(sizes, 0, Sum(sizes))
  {
    assert sizes[..1][..0] == [];
  }

  lemma EnoughForNext(sizes: seq<nat>, i: nat, left: nat)
    requires i + 1 < |sizes| && Enough(sizes, i, left) && sizes[0] >= 1
    ensures sizes[i + 1] < left && Enough(sizes, i + 1, left - sizes[i + 1])
  {
    RestCovers(sizes, i);
  }

  lemma EnoughAtLast(sizes: seq<nat>, left: int)
    requires sizes != [] && Enough(sizes, |sizes| - 1, left)
    ensures left >= sizes[0]
  {
    assert sizes[..|sizes|] == sizes;
  }

  lemma {:induction false} SumPrefix(s: seq<nat>, k: nat)
    requires k <= |s|
    ensures Sum(s[..k]) <= Sum(s)
    decreases |s|
  {
    if k < |s| {
      SumPrefix(s[..|s| - 1], k);
      assert s[..|s| - 1][..k] == s[..k];
    } else {
      assert s[..k] == s;
    }
  }
}
