/** The local queue: a stack of strings in a pool of bytes with an array of offsets
    (libcircle/queue.c), and the byte side of a work transfer (libcircle/token.c). */
module StringPool {
  import opened CStrings
  import opened Memory

  /** A `char*` argument. */
  datatype CString = Null | Str(text: Item)

  const PAYLOAD_ABORT: int := -32

  /** A work reply as it is sent: a single number, or an offsets message and a data message. */
  datatype Wire =
    | Code(code: int)
    | Transfer(offsets: seq<nat>, data: seq<char>)

  const CHUNK: nat := 4096

  /** A size_t stored in a uint32_t. */
  function Truncated(n: nat): nat {
    n % 0x1_0000_0000
  }

  /** The length checks of CIRCLE_internal_queue_push accept the string. */
  predicate PassesCheck(text: Item) {
    1 <= Truncated(|text| + 1) <= MAX_STRING_LEN
  }

  /** A string of 4 GiB or more whose length exceeds that of a short one by a multiple of 4 GiB. */
  predicate LooksShort(text: Item) {
    |text| >= 0x1_0000_0000 && |text| % 0x1_0000_0000 < MAX_STRING_LEN
  }

  /** The checks accept exactly the strings that are short enough, unless one only looks short. */
  lemma CheckIsRight(text: Item)
    ensures (PassesCheck(text) <==> |text| < MAX_STRING_LEN) <==> !LooksShort(text)
  {
    CarryOrNot(|text|);
  }

  /** The NUL adds one, or carries into the upper 32 bits. */
  lemma CarryOrNot(n: nat)
    ensures Truncated(n + 1) == if n % 0x1_0000_0000 == 0xFFFF_FFFF then 0 else n % 0x1_0000_0000 + 1
  {
  }

  /** The shortest such string is taken for an empty one. */
  lemma LooksEmpty(text: Item)
    requires |text| == 0x1_0000_0000
    ensures LooksShort(text) && Truncated(|text| + 1) == 1 && PassesCheck(text)
  {
  }

  class Pool {
    var base: array<char>     // the pool; `bytes` is its length
    var head: nat             // the next free byte
    var strings: array<nat>   // offsets; `str_count` is its length
    var count: nat
    const page: nat           // the system's page size

    ghost predicate Valid()
      reads this, base, strings
    {
      && page >= 1
      && count <= strings.Length
      && strings.Length % CHUNK == 0
      && Stacked(base[..], strings[..count], head)
    }

    /** The strings in the queue, the top of the stack last. */
    ghost function Items(): (s: seq<Item>)
      requires Valid()
      reads this, base, strings
      ensures |s| == count
    {
      Stack(base[..], strings[..count], head)
    }

    constructor (page: nat)
      requires page >= 1
      ensures Valid() && Items() == []
      ensures fresh(base) && fresh(strings)
    {
      this.page := page;
      strings := new nat[CHUNK](_ => 0);
      base := new char[MAX_STRING_LEN * CHUNK](_ => NUL);
      count := 0;
      head := 0;
    }

    /** Grow the offset array to hold `size` entries. */
    method StrExtend(size: nat)
      requires Valid()
      modifies this`strings
      ensures Valid() && Items() == old(Items()) && strings[..count] == old(strings[..count])
      ensures strings.Length >= size && (strings == old(strings) || fresh(strings))
    {
      var capacity := strings.Length;
      while capacity < size
        invariant strings.Length <= capacity && capacity % CHUNK == 0
      {
        capacity := capacity + CHUNK;
      }
      var grown := Realloc(strings, capacity, 0);
      assert grown[..count] == grown[..strings.Length][..count] == strings[..count];
      strings := grown;
    }

    /** Grow the pool to `size` bytes. */
    method Extend(size: nat)
      requires Valid()
      modifies this`base
      ensures Valid() && Items() == old(Items())
      ensures base.Length >= size && base.Length >= old(base.Length) && (base == old(base) || fresh(base))
    {
      var capacity := base.Length;
      while capacity < size
        invariant base.Length <= capacity
      {
        capacity := capacity + page * 4096;
      }
      var grown := Realloc(base, capacity, NUL);
      assert grown[..][..head] == grown[..base.Length][..head] == base[..][..head];
      FitsBelowHead(base[..], grown[..], strings[..count], head);
      assert Stack(grown[..], strings[..count], head) == Stack(base[..], strings[..count], head);
      base := grown;
    }

    /** CIRCLE_internal_queue_push. */
    method Push(str: CString) returns (rc: int)
      requires Valid()
      requires str.Str? ==> NUL !in str.text && !LooksShort(str.text)
      modifies this`base, this`head, this`strings, this`count, base, strings
      ensures Valid()
      ensures base == old(base) || fresh(base)
      ensures strings == old(strings) || fresh(strings)
      ensures rc == if str.Str? && |str.text| < MAX_STRING_LEN then 0 else -1
      ensures Items() == if rc == 0 then old(Items()) + [str.text] else old(Items())
    {
      if str.Null? {
        return -1;
      }
      var len := Truncated(|str.text| + 1);
      if len <= 0 {
        return -1;
      }
      if len > MAX_STRING_LEN {
        return -1;
      }
      if count + 1 > strings.Length {
        StrExtend(count + 1);
      }
      if head + len > base.Length {
        Extend(head + len);
      }
      Append(str.text);
      return 0;
    }

    /** Copy a string to the head of a pool that has room for it. */
    method Append(text: Item)
      requires Valid()
      requires NUL !in text && |text| < MAX_STRING_LEN
      requires count < strings.Length && head + |text| + 1 <= base.Length
      modifies this`head, this`count, base, strings
      ensures Valid() && Items() == old(Items()) + [text]
    {
      ghost var b, offs, h, items := base[..], strings[..count], head, Items();
      Store(text);
      ghost var b', offs', h' := base[..], strings[..count + 1], h + |text| + 1;
      assert Stacked(b', offs', h') && Stack(b', offs', h') == items + [text] by {
        PushedStack(b, b', offs, h, text);
      }
      head := head + |text| + 1;
      count := count + 1;
      assert Valid() && Items() == Stack(b', offs', h') by {
        assert base[..] == b' && strings[..count] == offs' && head == h';
      }
    }

    /** Write a string and its offset above the queue. */
    method Store(text: Item)
      requires count < strings.Length && head + |text| + 1 <= base.Length
      modifies base, strings
      ensures strings[..count + 1] == old(strings[..count]) + [head]
      ensures base[..][..head] == old(base[..])[..head]
      ensures base[..][head..head + |text|] == text && base[..][head + |text|] == NUL
    {
      strings[count] := head;
      StrCpy(base, head, text);
      assert base[..][head..head + |text|] == base[head..head + |text|];
    }

    /** CIRCLE_internal_queue_pop; `buffer` tells whether the caller has given a buffer to copy to. */
    method Pop(buffer: bool) returns (rc: int, str: Item)
      requires Valid()
      modifies this`head, this`count
      ensures Valid()
      ensures rc == if old(count) >= 1 && buffer then 0 else -1
      ensures if rc == 0 then old(Items()) == Items() + [str] else Items() == old(Items()) && str == []
    {
      if count < 1 {
        return -1, [];
      }
      if !buffer {
        return -1, [];
      }
      str := DropTop();
      rc := 0;
    }

    /** Take the last string off. */
    method DropTop() returns (str: Item)
      requires Valid() && count >= 1
      modifies this`head, this`count
      ensures Valid() && old(Items()) == Items() + [str]
    {
      var current := strings[count - 1];
      PoppedStack(base[..], strings[..count], head);
      assert strings[..count][..count - 1] == strings[..count - 1];
      var len := Strlen(current);
      str := base[current..current + len];
      head := current;
      count := count - 1;
    }

    /** How many of the last `n` items go into one message, and how many bytes they take. */
    method ChooseCount(n: nat) returns (k: nat, len: int)
      requires Valid() && 1 <= n <= count
      ensures InPool(base[..], strings[..count]) && 1 <= k <= n
      ensures k == BackedOff(base[..], strings[..count], n)
      ensures 0 <= len == BlockLength(base[..], strings[..count], k) <= INT32_MAX
    {
      ghost var b, offs := base[..], strings[..count];
      FitsInPool(b, offs, head);
      OneStringFits(b, offs, head);
      k := n;
      var startOffset: int, endOffset: int := strings[count - k], strings[count - 1];
      var last := Strlen(endOffset);
      len := endOffset - startOffset + last + 1;
      while len > INT32_MAX && k > 1
        invariant 1 <= k <= n
        invariant startOffset == strings[count - k]
        invariant len == BlockLength(b, offs, k)
        invariant BackedOff(b, offs, n) == BackedOff(b, offs, k)
        decreases k
      {
        var next := k - k / 10;
        if next >= k {
          next := k - 1;
        }
        k := next;
        startOffset := strings[count - k];
        len := endOffset - startOffset + last + 1;
      }
      if len > INT32_MAX {
        assert false;  // a single item too large to send: cannot happen
      }
      BlockIsPositive(b, offs, head, k);
    }

    /** The offsets of the last `k` items relative to the first of them. */
    method Rebase(k: nat) returns (rel: seq<nat>)
      requires Valid() && 1 <= k <= count
      ensures Rebased(strings[..count], count - k, rel)
    {
      ghost var offs := strings[..count];
      var start := count - k;
      rel := [];
      for i := 0 to k
        invariant |rel| == i && forall j: nat | j < i :: rel[j] + offs[start] == offs[start + j]
      {
        if i > 0 {
          OffsetsIncrease(base[..], offs, head, start, start + i);
        }
        rel := rel + [strings[start + i] - strings[start]];
      }
    }

    /** The two messages that carry the last `k` items. */
    method MakeBlock(k: nat, len: nat) returns (wire: Wire)
      requires Valid() && 1 <= k < count && strings.Length <= INT32_MAX
      requires InPool(base[..], strings[..count])
      requires len == BlockLength(base[..], strings[..count], k) <= INT32_MAX
      ensures wire.Transfer? && wire.offsets != [] && wire.offsets[0] == k
      ensures Carries(base[..], strings[..count], head, k, wire)
    {
      ghost var b, offs := base[..], strings[..count];
      var startOffset := strings[count - k];
      BlockInPool(b, offs, head, k);
      var rel := Rebase(k);
      wire := Transfer([k, len] + rel, base[startOffset..startOffset + len]);
      BlockTaken(b, offs, head, k, rel);
      assert wire == BlockOf(b, offs, k, rel);
    }

    /** The last `n` items, or as many of them as fit in one message, leave the queue
        (CIRCLE_send_work from the computation of the block on).  The head stays where it is,
        so that a gap is left below the next item pushed. */
    method TakeBlock(n: nat) returns (wire: Wire)
      requires Valid() && 1 <= n < count && strings.Length <= INT32_MAX
      modifies this`count
      ensures Valid()
      ensures wire.Transfer? && WellFormed(wire.offsets, wire.data)
      ensures FitsInt32(wire.offsets) && |wire.data| <= INT32_MAX
      ensures InPool(base[..], strings[..old(count)])
      ensures wire.offsets[0] == BackedOff(base[..], strings[..old(count)], n)
      ensures old(Items()) == Items() + Decode(wire.offsets, wire.data)
    {
      ghost var offs := strings[..count];
      var k, len := ChooseCount(n);
      wire := MakeBlock(k, len);
      count := count - k;
      assert strings[..count] == offs[..count];
    }

    /** Make room in an empty queue for a transfer, and receive its data and its offsets. */
    method Fill(offsets: seq<nat>, data: seq<char>)
      requires Valid() && count == 0
      requires |offsets| >= 3 && offsets[0] == |offsets| - 2 && offsets[1] == |data|
      modifies this`base, this`strings, base, strings
      ensures strings.Length % CHUNK == 0 && |offsets[2..]| <= strings.Length
      ensures |data| <= base.Length && base[..][..|data|] == data && strings[..offsets[0]] == offsets[2..]
      ensures base == old(base) || fresh(base)
      ensures strings == old(strings) || fresh(strings)
    {
      var items, chars := offsets[0], offsets[1];
      if head + chars > base.Length {
        Extend(head + chars);
      }
      Memcpy(base, data);
      if items > strings.Length {
        StrExtend(items);
      }
      FillStrings(strings, offsets[2..]);
    }

    /** CIRCLE_work_receive from the check of the pool's capacity on: the queue, which is empty,
        becomes the items of the transfer. */
    method ReceiveBlock(offsets: seq<nat>, data: seq<char>)
      requires Valid() && count == 0 && WellFormed(offsets, data)
      modifies this`base, this`head, this`strings, this`count, base, strings
      ensures Valid() && Items() == Decode(offsets, data)
      ensures base == old(base) || fresh(base)
      ensures strings == old(strings) || fresh(strings)
    {
      Fill(offsets, data);
      ghost var b, offs := base[..], offsets[2..];
      ReceivedStack(b, data, offs);
      count := offsets[0];
      assert strings[..count] == offs && strings[0] == offs[0] && strings[count - 1] == offs[count - 1];
      if strings[0] != 0 {
        assert false;  // the base offset of a transfer is always 0
      }
      var last := Strlen(strings[count - 1]);
      head := strings[count - 1] + last + 1;
      assert Valid() && Items() == Texts(data, offs) by {
        assert head == EndOf(b, offs) && base[..] == b;
      }
    }

    /** strlen(base + off) */
    method Strlen(off: nat) returns (len: nat)
      requires off <= base.Length
      ensures len == StrLen(base[..], off)
    {
      len := 0;
      while off + len < base.Length && base[off + len] != NUL
        invariant off + len <= base.Length
        invariant forall j | off <= j < off + len :: base[j] != NUL
      {
        len := len + 1;
      }
      StrLenIs(base[..], off, len);
    }
  }

  /** strcpy to offset `at` of `a`. */
  method StrCpy(a: array<char>, at: nat, text: Item)
    requires at + |text| + 1 <= a.Length
    modifies a
    ensures a[..at] == old(a[..at]) && a[at..at + |text|] == text && a[at + |text|] == NUL
  {
    for i := 0 to |text|
      invariant a[..at] == old(a[..at]) && a[at..at + i] == text[..i]
    {
      a[at + i] := text[i];
    }
    a[at + |text|] := NUL;
  }

  /** Receive `data` at the bottom of `a`. */
  method Memcpy(a: array<char>, data: seq<char>)
    requires |data| <= a.Length
    modifies a
    ensures a[..][..|data|] == data
  {
    for i := 0 to |data|
      invariant a[..i] == data[..i]
    {
      a[i] := data[i];
    }
    assert a[..][..|data|] == a[..|data|];
  }

  method FillStrings(a: array<nat>, offs: seq<nat>)
    requires |offs| <= a.Length
    modifies a
    ensures a[..|offs|] == offs
  {
    for i := 0 to |offs|
      invariant a[..i] == offs[..i]
    {
      a[i] := offs[i];
    }
  }

  /** The strings of a transfer, copied to the bottom of the pool, form a stack that ends
      where the last string ends. */
  lemma ReceivedStack(b: seq<char>, data: seq<char>, offs: seq<nat>)
    requires Fits(data, offs, |data|) && offs != [] && offs[0] == 0
    requires |data| <= |b| && b[..|data|] == data
    ensures InPool(b, offs) && Stacked(b, offs, EndOf(b, offs))
    ensures InPool(data, offs) && Stack(b, offs, EndOf(b, offs)) == Texts(data, offs)
  {
    FitsBelowHead(data, b, offs, |data|);
    var head := EndOf(b, offs);
    forall i: nat | i < |offs| ensures SlotAt(b, offs, head, i) {
      assert SlotAt(b, offs, |data|, i);
    }
    assert SlotAt(b, offs, |data|, |offs| - 1);
  }

  /** Writing a string at the head pushes it. */
  lemma PushedStack(b: seq<char>, b': seq<char>, offs: seq<nat>, head: nat, text: Item)
    requires Stacked(b, offs, head) && |b'| == |b| && head + |text| + 1 <= |b|
    requires b'[..head] == b[..head] && b'[head..head + |text|] == text && b'[head + |text|] == NUL
    requires NUL !in text && |text| < MAX_STRING_LEN
    ensures Stacked(b', offs + [head], head + |text| + 1)
    ensures Stack(b', offs + [head], head + |text| + 1) == Stack(b, offs, head) + [text]
  {
    FitsBelowHead(b, b', offs, head);
    forall j | head <= j < head + |text| ensures b'[j] != NUL {
      assert b'[j] == text[j - head];
    }
    StrLenIs(b', head, |text|);
    var offs', head' := offs + [head], head + |text| + 1;
    forall i: nat | i < |offs'| ensures SlotAt(b', offs', head', i) {
      if i < |offs| {
        assert SlotAt(b', offs, head, i);
      }
    }
    FitsInPool(b', offs', head');
    assert offs'[..|offs|] == offs;
  }

  /** Without its last string, and with the head where that string began. */
  lemma PoppedStack(b: seq<char>, offs: seq<nat>, head: nat)
    requires Stacked(b, offs, head) && offs != []
    ensures var k := |offs| - 1;
            && offs[k] <= |b| && Stacked(b, offs[..k], offs[k])
            && Stack(b, offs, head) == Stack(b, offs[..k], offs[k]) + [Text(b, offs[k])]
  {
    var k := |offs| - 1;
    assert SlotAt(b, offs, head, k);
    FitsPrefix(b, offs, head, k, offs[k]);
    FitsInPool(b, offs, head);
  }

  /** `wire` carries the last `k` strings, and the others are left a stack. */
  ghost predicate Carries(b: seq<char>, offs: seq<nat>, head: nat, k: nat, wire: Wire)
    requires Stacked(b, offs, head) && k <= |offs|
  {
    && wire.Transfer? && WellFormed(wire.offsets, wire.data)
    && FitsInt32(wire.offsets) && |wire.data| <= INT32_MAX
    && Stacked(b, offs[..|offs| - k], head)
    && Stack(b, offs, head) == Stack(b, offs[..|offs| - k], head) + Decode(wire.offsets, wire.data)
  }

  lemma BlockInPool(b: seq<char>, offs: seq<nat>, head: nat, k: nat)
    requires Fits(b, offs, head) && 1 <= k <= |offs|
    ensures InPool(b, offs)
    ensures 0 <= BlockLength(b, offs, k) && offs[|offs| - k] + BlockLength(b, offs, k) <= |b|
  {
    BlockIsPositive(b, offs, head, k);
  }

  /** The two messages that carry the last `k` strings, whose relative offsets are `rel`. */
  ghost function BlockOf(b: seq<char>, offs: seq<nat>, k: nat, rel: seq<nat>): Wire
    requires InPool(b, offs) && 1 <= k <= |offs|
    requires 0 <= BlockLength(b, offs, k) && offs[|offs| - k] + BlockLength(b, offs, k) <= |b|
  {
    var start, len := offs[|offs| - k], BlockLength(b, offs, k);
    Transfer([k, len] + rel, b[start..start + len])
  }

  /** The block of the last strings: what is sent decodes to what leaves the stack. */
  lemma BlockDecodes(b: seq<char>, offs: seq<nat>, head: nat, rel: seq<nat>, data: seq<char>)
    requires Stacked(b, offs, head) && 1 <= |rel| < |offs|
    requires Rebased(offs, |offs| - |rel|, rel) && IsBlock(b, offs, |offs| - |rel|, data)
    ensures WellFormed([|rel|, |data|] + rel, data)
    ensures Stacked(b, offs[..|offs| - |rel|], head)
    ensures Stack(b, offs, head) == Stack(b, offs[..|offs| - |rel|], head) + Decode([|rel|, |data|] + rel, data)
  {
    var start, items := |offs| - |rel|, Stack(b, offs, head);
    assert WellFormed([|rel|, |data|] + rel, data) && Decode([|rel|, |data|] + rel, data) == items[start..] by {
      BlockIsTransfer(b, offs, head, start, rel, data);
    }
    assert Stacked(b, offs[..start], head) && Stack(b, offs[..start], head) == items[..start] by {
      DroppedStack(b, offs, head, |rel|);
    }
    assert items == items[..start] + items[start..];
  }

  lemma BlockTaken(b: seq<char>, offs: seq<nat>, head: nat, k: nat, rel: seq<nat>)
    requires Stacked(b, offs, head) && 1 <= k < |offs| <= INT32_MAX - 2
    requires Rebased(offs, |offs| - k, rel) && InPool(b, offs) && BlockLength(b, offs, k) <= INT32_MAX
    requires 0 <= BlockLength(b, offs, k) && offs[|offs| - k] + BlockLength(b, offs, k) <= |b|
    ensures Carries(b, offs, head, k, BlockOf(b, offs, k, rel))
  {
    var wire := BlockOf(b, offs, k, rel);
    assert FitsInt32(wire.offsets) by {
      TransferFitsInt32(b, offs, head, |offs| - k, rel, BlockLength(b, offs, k));
    }
    BlockDecodes(b, offs, head, rel, wire.data);
  }
}
