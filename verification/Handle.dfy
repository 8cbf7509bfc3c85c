/** What a user callback does to the queue through its handle (CIRCLE_enqueue and CIRCLE_dequeue in
    libcircle/worker.c) is what the protocol takes it to do. */
module Handle {
  import opened CStrings
  import opened StringPool
  import opened BlockTransfer
  import W = WorkTransfer

  /** What the code does not refuse and does not mistake: C strings whose length is not cut down to that of a
      short one. */
  predicate Passable(op: W.Op) {
    op.Enqueue? ==> NUL !in op.item && !LooksShort(op.item)
  }

  /** One call through the handle: what it has pushed, and what it has popped. */
  method Call(pool: Pool, op: W.Op) returns (pushed: seq<Item>, popped: seq<Item>)
    requires pool.Valid() && Passable(op)
    modifies pool, pool.base, pool.strings
    ensures pool.Valid()
    ensures pool.base == old(pool.base) || fresh(pool.base)
    ensures pool.strings == old(pool.strings) || fresh(pool.strings)
    ensures match op
            case Enqueue(item) =>
              && popped == [] && pushed == (if |item| < MAX_STRING_LEN then [item] else [])
              && pool.Items() == old(pool.Items()) + pushed
            case Dequeue =>
              && pushed == [] && |popped| == (if old(pool.Items()) == [] then 0 else 1)
              && pool.Items() + popped == old(pool.Items())
  {
    pushed, popped := [], [];
    match op {
      case Enqueue(item) =>
        var rc := pool.Push(Str(item));
        if rc == 0 {
          pushed := [item];
        }
      case Dequeue =>
        var rc, str := pool.Pop(true);
        if rc == 0 {
          popped := [str];
        }
    }
  }

  /** What is left of a callback, from the queue `q` on, completes it. */
  ghost predicate StillToDo(items: seq<Item>, ops: seq<W.Op>, q: seq<Item>, rest: seq<W.Op>, pushed: seq<Item>,
                            popped: seq<Item>) {
    var whole, r := W.Callback(items, ops), W.Callback(q, rest);
    whole.0 == r.0 && whole.1 == multiset(pushed) + r.1 && whole.2 == multiset(popped) + r.2
  }

  lemma OneEnqueue(items: seq<Item>, ops: seq<W.Op>, q: seq<Item>, item: Item, rest: seq<W.Op>, pushed: seq<Item>,
                   popped: seq<Item>)
    requires StillToDo(items, ops, q, [W.Enqueue(item)] + rest, pushed, popped)
    ensures var put := if |item| < MAX_STRING_LEN then [item] else [];
            StillToDo(items, ops, q + put, rest, pushed + put, popped)
  {
    assert ([W.Enqueue(item)] + rest)[1..] == rest;
    if |item| < MAX_STRING_LEN {
      assert multiset(pushed + [item]) == multiset(pushed) + multiset{item};
    } else {
      assert q + [] == q && pushed + [] == pushed;
    }
  }

  lemma OneDequeue(items: seq<Item>, ops: seq<W.Op>, q: seq<Item>, rest: seq<W.Op>, pushed: seq<Item>,
                   popped: seq<Item>, q': seq<Item>, got: seq<Item>)
    requires StillToDo(items, ops, q, [W.Dequeue] + rest, pushed, popped)
    requires |got| == (if q == [] then 0 else 1) && q' + got == q
    ensures StillToDo(items, ops, q', rest, pushed, popped + got)
  {
    assert ([W.Dequeue] + rest)[1..] == rest;
    if q == [] {
      assert popped + got == popped;
    } else {
      assert q' == q[..|q| - 1] && got == [q[|q| - 1]];
      assert multiset(popped + got) == multiset(popped) + multiset{q[|q| - 1]};
    }
  }

  lemma AllDone(items: seq<Item>, ops: seq<W.Op>, q: seq<Item>, pushed: seq<Item>, popped: seq<Item>)
    requires StillToDo(items, ops, q, [], pushed, popped)
    ensures W.Callback(items, ops) == (q, multiset(pushed), multiset(popped))
  {
    assert multiset(pushed) + multiset{} == multiset(pushed) && multiset(popped) + multiset{} == multiset(popped);
  }

  /** The next call of a callback. */
  method Next(pool: Pool, ops: seq<W.Op>, i: nat, pushed0: seq<Item>, popped0: seq<Item>, ghost items: seq<Item>)
    returns (pushed: seq<Item>, popped: seq<Item>)
    requires pool.Valid() && i < |ops| && Passable(ops[i])
    requires StillToDo(items, ops, pool.Items(), ops[i..], pushed0, popped0)
    modifies pool, pool.base, pool.strings
    ensures pool.Valid()
    ensures pool.base == old(pool.base) || fresh(pool.base)
    ensures pool.strings == old(pool.strings) || fresh(pool.strings)
    ensures StillToDo(items, ops, pool.Items(), ops[i + 1..], pushed, popped)
  {
    ghost var q := pool.Items();
    var put, got := Call(pool, ops[i]);
    assert ops[i..] == [ops[i]] + ops[i + 1..];
    pushed, popped := pushed0 + put, popped0 + got;
    match ops[i] {
      case Enqueue(item) =>
        OneEnqueue(items, ops, q, item, ops[i + 1..], pushed0, popped0);
        assert popped == popped0;
      case Dequeue =>
        OneDequeue(items, ops, q, ops[i + 1..], pushed0, popped0, pool.Items(), got);
        assert pushed == pushed0;
    }
  }

  /** The calls of a callback, one after the other: the queue that they leave is the one of the protocol, and
      so are the items that the calls have pushed and popped. */
  method RunCallback(pool: Pool, ops: seq<W.Op>) returns (pushed: seq<Item>, popped: seq<Item>)
    requires pool.Valid() && forall i | 0 <= i < |ops| :: Passable(ops[i])
    modifies pool, pool.base, pool.strings
    ensures pool.Valid()
    ensures pool.base == old(pool.base) || fresh(pool.base)
    ensures pool.strings == old(pool.strings) || fresh(pool.strings)
    ensures W.Callback(old(pool.Items()), ops) == (pool.Items(), multiset(pushed), multiset(popped))
  {
    ghost var items := pool.Items();
    pushed, popped := [], [];
    assert ops[0..] == ops;
    for i := 0 to |ops|
      invariant pool.Valid()
      invariant pool.base == old(pool.base) || fresh(pool.base)
      invariant pool.strings == old(pool.strings) || fresh(pool.strings)
      invariant StillToDo(items, ops, pool.Items(), ops[i..], pushed, popped)
    {
      pushed, popped := Next(pool, ops, i, pushed, popped, items);
    }
    assert ops[|ops|..] == [];
    AllDone(items, ops, pool.Items(), pushed, popped);
  }

  /** The process callback of rank `x`, on the pool: the step that the protocol takes, which counts as created
      and as processed exactly the items that the calls have pushed and popped. */
  method ProcessOnPool(pool: Pool, ops: seq<W.Op>, ghost n: nat, ghost x: nat, ghost w: W.Sys)
    returns (pushed: seq<Item>, popped: seq<Item>)
    requires Matches(pool, n, w, x) && pool.count > 0 && forall i | 0 <= i < |ops| :: Passable(ops[i])
    modifies pool, pool.base, pool.strings
    ensures W.CanProcess(n, w, x) && Matches(pool, n, W.Process(n, w, x, ops), x)
    ensures W.Process(n, w, x, ops).created == w.created + multiset(pushed)
    ensures W.Process(n, w, x, ops).processed == w.processed + multiset(popped)
  {
    pushed, popped := RunCallback(pool, ops);
  }
}
