/** NUL-terminated strings in a pool of bytes, and arrays of offsets into it. */
module CStrings {

  const NUL: char := '\0'

  /** CIRCLE_MAX_STRING_LEN: the largest string with its NUL. */
  const MAX_STRING_LEN: nat := 4096

  const INT32_MAX: int := 0x7fff_ffff

  type Item = seq<char>

  /** The number of characters from `off` to the first NUL, or to the end of `b`. */
  function StrLen(b: seq<char>, off: nat): (n: nat)
    requires off <= |b|
    ensures off + n <= |b|
    decreases |b| - off
  {
    if off == |b| || b[off] == NUL then 0 else 1 + StrLen(b, off + 1)
  }

  /** The string that starts at `off`. */
  function Text(b: seq<char>, off: nat): Item
    requires off <= |b|
  {
    b[off..off + StrLen(b, off)]
  }

  /** A string with its NUL starts at `off` and ends at or before `limit`. */
  ghost predicate Slot(b: seq<char>, off: nat, limit: nat) {
    && off < limit <= |b|
    && off + StrLen(b, off) < limit
    && StrLen(b, off) < MAX_STRING_LEN
  }

  ghost function Limit(offs: seq<nat>, head: nat, i: nat): nat
    requires i < |offs|
  {
    if i + 1 < |offs| then offs[i + 1] else head
  }

  /** String `i` lies between its offset and the next one, or `head` if it is the last. */
  ghost predicate SlotAt(b: seq<char>, offs: seq<nat>, head: nat, i: nat)
    requires i < |offs|
  {
    Slot(b, offs[i], Limit(offs, head, i))
  }

  /** The strings at `offs` lie in `b` below `head`, in increasing order and disjoint;
      there may be gaps between them. */
  ghost predicate Fits(b: seq<char>, offs: seq<nat>, head: nat) {
    && head <= |b|
    && forall i: nat | i < |offs| :: SlotAt(b, offs, head, i)
  }

  ghost predicate InPool(b: seq<char>, offs: seq<nat>) {
    forall i: nat | i < |offs| :: offs[i] <= |b|
  }

  lemma FitsInPool(b: seq<char>, offs: seq<nat>, head: nat)
    requires Fits(b, offs, head)
    ensures InPool(b, offs)
  {
    forall i: nat | i < |offs| ensures offs[i] <= |b| {
      assert SlotAt(b, offs, head, i);
    }
  }

  ghost function Texts(b: seq<char>, offs: seq<nat>): (ts: seq<Item>)
    requires InPool(b, offs)
    ensures |ts| == |offs|
  {
    if offs == [] then []
    else
      var k := |offs| - 1;
      assert InPool(b, offs[..k]) && offs[k] <= |b|;
      Texts(b, offs[..k]) + [Text(b, offs[k])]
  }

  lemma {:induction false} TextsAt(b: seq<char>, offs: seq<nat>, i: nat)
    requires InPool(b, offs) && i < |offs|
    ensures offs[i] <= |b| && Texts(b, offs)[i] == Text(b, offs[i])
  {
    var k := |offs| - 1;
    if i < k {
      assert InPool(b, offs[..k]);
      TextsAt(b, offs[..k], i);
    }
  }

  /** The strings of a queue: they fit, and the first one starts at the bottom of the pool. */
  ghost predicate Stacked(b: seq<char>, offs: seq<nat>, head: nat) {
    && Fits(b, offs, head)
    && if offs == [] then head == 0 else offs[0] == 0
  }

  /** The strings of a queue, the top of the stack last. */
  ghost function Stack(b: seq<char>, offs: seq<nat>, head: nat): (ts: seq<Item>)
    requires Stacked(b, offs, head)
    ensures |ts| == |offs|
  {
    FitsInPool(b, offs, head);
    Texts(b, offs)
  }

  // ----- properties of strings -----

  /** `StrLen` is where the first NUL is. */
  lemma {:induction false} StrLenIs(b: seq<char>, off: nat, n: nat)
    requires off + n <= |b|
    requires forall j | off <= j < off + n :: b[j] != NUL
    requires off + n < |b| ==> b[off + n] == NUL
    ensures StrLen(b, off) == n
    decreases n
  {
    if n > 0 {
      StrLenIs(b, off + 1, n - 1);
    }
  }

  lemma {:induction false} StrLenMeans(b: seq<char>, off: nat)
    requires off <= |b|
    ensures forall j | off <= j < off + StrLen(b, off) :: b[j] != NUL
    ensures off + StrLen(b, off) < |b| ==> b[off + StrLen(b, off)] == NUL
    decreases |b| - off
  {
    if off < |b| && b[off] != NUL {
      StrLenMeans(b, off + 1);
    }
  }

  lemma SliceOfSlice<T>(s: seq<T>, a: nat, b: nat, l: nat, r: nat)
    requires a <= b <= |s| && l <= r <= b - a
    ensures s[a..b][l..r] == s[a + l..a + r]
  {
    var t := s[a..b];
    forall i | 0 <= i < r - l ensures t[l..r][i] == s[a + l..a + r][i] {
      assert t[l + i] == s[a + (l + i)];
    }
  }

  /** A string is the same wherever its characters and its NUL are found. */
  lemma TextMoves(b: seq<char>, off: nat, b': seq<char>, off': nat)
    requires off <= |b| && off + StrLen(b, off) < |b|
    requires off' + StrLen(b, off) < |b'|
    requires b'[off'..off' + StrLen(b, off) + 1] == b[off..off + StrLen(b, off) + 1]
    ensures StrLen(b', off') == StrLen(b, off) && Text(b', off') == Text(b, off)
  {
    StrLenMeans(b, off);
    SameNulAt(b, off, b', off', StrLen(b, off));
    SliceOfSlice(b, off, off + StrLen(b, off) + 1, 0, StrLen(b, off));
    SliceOfSlice(b', off', off' + StrLen(b, off) + 1, 0, StrLen(b, off));
  }

  lemma SameNulAt(b: seq<char>, off: nat, b': seq<char>, off': nat, n: nat)
    requires off + n < |b| && off' + n < |b'| && b'[off'..off' + n + 1] == b[off..off + n + 1]
    requires b[off + n] == NUL && forall j | off <= j < off + n :: b[j] != NUL
    ensures StrLen(b', off') == n
  {
    var same := b[off..off + n + 1];
    assert b'[off' + n] == same[n] == b[off + n];
    forall j | off' <= j < off' + n ensures b'[j] != NUL {
      assert b'[j] == same[j - off'] == b[off + (j - off')];
    }
    StrLenIs(b', off', n);
  }

  /** What happens at or above `head` does not matter. */
  lemma FitsBelowHead(b: seq<char>, b': seq<char>, offs: seq<nat>, head: nat)
    requires Fits(b, offs, head) && head <= |b'|
    requires b'[..head] == b[..head]
    ensures Fits(b', offs, head) && InPool(b, offs) && InPool(b', offs) && Texts(b', offs) == Texts(b, offs)
  {
    FitsInPool(b, offs, head);
    forall i: nat | i < |offs| ensures SlotAt(b', offs, head, i) {
      TextBelowHead(b, b', offs, head, i);
    }
    FitsInPool(b', offs, head);
    forall i: nat | i < |offs| ensures Texts(b', offs)[i] == Texts(b, offs)[i] {
      TextBelowHead(b, b', offs, head, i);
      TextsAt(b, offs, i);
      TextsAt(b', offs, i);
    }
  }

  lemma TextBelowHead(b: seq<char>, b': seq<char>, offs: seq<nat>, head: nat, i: nat)
    requires Fits(b, offs, head) && head <= |b'| && i < |offs|
    requires b'[..head] == b[..head]
    ensures SlotAt(b', offs, head, i) && offs[i] <= |b| && Text(b', offs[i]) == Text(b, offs[i])
  {
    LimitBelowHead(b, offs, head, i);
    assert SlotAt(b, offs, head, i);
    var l, r := offs[i], offs[i] + StrLen(b, offs[i]) + 1;
    assert b'[l..r] == b'[..head][l..r] == b[..head][l..r] == b[l..r];
    TextMoves(b, offs[i], b', offs[i]);
  }

  lemma {:induction false} LimitBelowHead(b: seq<char>, offs: seq<nat>, head: nat, i: nat)
    requires Fits(b, offs, head) && i < |offs|
    ensures offs[i] < Limit(offs, head, i) <= head
    decreases |offs| - i
  {
    assert SlotAt(b, offs, head, i);
    if i + 1 < |offs| {
      LimitBelowHead(b, offs, head, i + 1);
    }
  }

  /** Offsets increase. */
  lemma {:induction false} OffsetsIncrease(b: seq<char>, offs: seq<nat>, head: nat, i: nat, j: nat)
    requires Fits(b, offs, head) && i < j < |offs|
    ensures offs[i] < offs[j] <= |b| && offs[i] + StrLen(b, offs[i]) < offs[j]
    decreases j - i
  {
    assert SlotAt(b, offs, head, i) && SlotAt(b, offs, head, j);
    if i + 1 < j {
      OffsetsIncrease(b, offs, head, i + 1, j);
      assert SlotAt(b, offs, head, i + 1);
    }
  }

  /** Fewer strings fit too, with the head anywhere above them. */
  lemma FitsPrefix(b: seq<char>, offs: seq<nat>, head: nat, k: nat, head': nat)
    requires Fits(b, offs, head) && k <= |offs|
    requires head' <= |b| && (if k < |offs| then offs[k] <= head' else head <= head')
    ensures Fits(b, offs[..k], head')
  {
    forall i: nat | i < k ensures SlotAt(b, offs[..k], head', i) {
      assert SlotAt(b, offs, head, i);
    }
  }

  // ----- the wire format of a transfer -----

  /** The offsets message: number of items, number of characters, offset of each item. */
  ghost predicate WellFormed(offsets: seq<nat>, data: seq<char>) {
    && |offsets| >= 3
    && offsets[0] == |offsets| - 2
    && offsets[1] == |data|
    && offsets[2] == 0
    && Fits(data, offsets[2..], |data|)
  }

  /** The items that a transfer carries. */
  ghost function Decode(offsets: seq<nat>, data: seq<char>): seq<Item>
    requires WellFormed(offsets, data)
  {
    FitsInPool(data, offsets[2..], |data|);
    Texts(data, offsets[2..])
  }

  /** Every number of the offsets message fits a 32-bit integer, and so does their number. */
  ghost predicate FitsInt32(offsets: seq<nat>) {
    |offsets| <= INT32_MAX && forall i | 0 <= i < |offsets| :: offsets[i] <= INT32_MAX
  }

  /** Where the last string of `offs` ends. */
  ghost function EndOf(b: seq<char>, offs: seq<nat>): nat
    requires offs != [] && offs[|offs| - 1] <= |b|
  {
    offs[|offs| - 1] + StrLen(b, offs[|offs| - 1]) + 1
  }

  /** `rel` is the offsets of the strings from `start` on, relative to the first of them. */
  ghost predicate Rebased(offs: seq<nat>, start: nat, rel: seq<nat>) {
    && start < |offs| && |rel| == |offs| - start
    && forall i: nat | i < |rel| :: rel[i] + offs[start] == offs[start + i]
  }

  /** `data` is the bytes of the strings from `start` on, gaps included. */
  ghost predicate IsBlock(b: seq<char>, offs: seq<nat>, start: nat, data: seq<char>) {
    && start < |offs| && offs[|offs| - 1] <= |b|
    && offs[start] <= EndOf(b, offs) <= |b|
    && data == b[offs[start]..EndOf(b, offs)]
  }

  /** The end of a string of a block is at most the end of the block, or the next offset. */
  lemma SlotInBlock(b: seq<char>, offs: seq<nat>, head: nat, j: nat)
    requires Fits(b, offs, head) && j < |offs| && offs[|offs| - 1] <= |b|
    ensures offs[j] <= |b| && offs[j] + StrLen(b, offs[j]) < EndOf(b, offs) <= head
    ensures StrLen(b, offs[j]) < MAX_STRING_LEN
    ensures j + 1 < |offs| ==> offs[j] + StrLen(b, offs[j]) < offs[j + 1] < EndOf(b, offs)
  {
    var last := |offs| - 1;
    assert SlotAt(b, offs, head, j) && SlotAt(b, offs, head, last);
    if j < last {
      OffsetsIncrease(b, offs, head, j, last);
      if j + 1 < last {
        OffsetsIncrease(b, offs, head, j + 1, last);
      }
    }
  }

  lemma SlotMoves(b: seq<char>, offs: seq<nat>, head: nat, start: nat, rel: seq<nat>, data: seq<char>, i: nat)
    requires Fits(b, offs, head) && Rebased(offs, start, rel) && IsBlock(b, offs, start, data) && i < |rel|
    ensures SlotAt(data, rel, |data|, i) && Text(data, rel[i]) == Text(b, offs[start + i])
  {
    var j := start + i;
    SlotInBlock(b, offs, head, j);
    var n := StrLen(b, offs[j]);
    assert rel[i] + offs[start] == offs[j];
    SliceOfSlice(b, offs[start], EndOf(b, offs), rel[i], rel[i] + n + 1);
    TextMoves(b, offs[j], data, rel[i]);
    if j + 1 < |offs| {
      assert rel[i + 1] + offs[start] == offs[j + 1];
    }
  }

  /** A block with its rebased offsets is a well-formed transfer of its strings. */
  lemma BlockIsTransfer(b: seq<char>, offs: seq<nat>, head: nat, start: nat, rel: seq<nat>, data: seq<char>)
    requires Fits(b, offs, head) && Rebased(offs, start, rel) && IsBlock(b, offs, start, data)
    ensures InPool(b, offs)
    ensures WellFormed([|rel|, |data|] + rel, data)
    ensures Decode([|rel|, |data|] + rel, data) == Texts(b, offs)[start..]
  {
    FitsInPool(b, offs, head);
    forall i: nat | i < |rel| ensures SlotAt(data, rel, |data|, i) {
      SlotMoves(b, offs, head, start, rel, data, i);
    }
    assert ([|rel|, |data|] + rel)[2..] == rel;
    assert rel[0] + offs[start] == offs[start + 0];
    FitsInPool(data, rel, |data|);
    forall i: nat | i < |rel| ensures Texts(data, rel)[i] == Texts(b, offs)[start..][i] {
      SlotMoves(b, offs, head, start, rel, data, i);
      TextsAt(data, rel, i);
      TextsAt(b, offs, start + i);
    }
  }

  // ----- how much is sent -----

  /** The bytes that sending the last `k` strings takes. */
  ghost function BlockLength(b: seq<char>, offs: seq<nat>, k: nat): int
    requires InPool(b, offs) && 1 <= k <= |offs|
  {
    EndOf(b, offs) - offs[|offs| - k]
  }

  /** A tenth less, and at least one less. */
  function LessItems(k: nat): (next: nat)
    requires k > 1
    ensures 1 <= next < k
  {
    if k - k / 10 >= k then k - 1 else k - k / 10
  }

  /** How many of the last `k` strings are sent: fewer, as long as their block is too long. */
  ghost function BackedOff(b: seq<char>, offs: seq<nat>, k: nat): (r: nat)
    requires InPool(b, offs) && 1 <= k <= |offs|
    ensures 1 <= r <= k
    ensures r == k || BlockLength(b, offs, k) > INT32_MAX
    ensures r == 1 || BlockLength(b, offs, r) <= INT32_MAX
  {
    if BlockLength(b, offs, k) > INT32_MAX && k > 1 then BackedOff(b, offs, LessItems(k)) else k
  }

  /** The back-off sends all strings if their block fits; otherwise it has just tried a number of them that is
      larger by a tenth, or by one if that is less than ten, and found their block too long. */
  lemma {:induction false} BackOffIsTight(b: seq<char>, offs: seq<nat>, n: nat)
    requires InPool(b, offs) && 1 <= n <= |offs|
    ensures BlockLength(b, offs, n) <= INT32_MAX ==> BackedOff(b, offs, n) == n
    ensures BlockLength(b, offs, n) > INT32_MAX && n > 1 ==>
              exists k: nat :: TriedBefore(b, offs, n, BackedOff(b, offs, n), k)
    decreases n
  {
    if BlockLength(b, offs, n) > INT32_MAX && n > 1 {
      var next := LessItems(n);
      BackOffIsTight(b, offs, next);
      if BlockLength(b, offs, next) <= INT32_MAX || next == 1 {
        assert BackedOff(b, offs, n) == BackedOff(b, offs, next) == next;
        assert TriedBefore(b, offs, n, next, n);
      } else {
        var k: nat :| TriedBefore(b, offs, next, BackedOff(b, offs, next), k);
        assert TriedBefore(b, offs, n, BackedOff(b, offs, n), k);
      }
    }
  }

  /** On the way down from `n` strings to `r`, the number before `r` was `k`, and too large. */
  ghost predicate TriedBefore(b: seq<char>, offs: seq<nat>, n: nat, r: nat, k: nat)
    requires InPool(b, offs) && n <= |offs|
  {
    && r < k <= n && BlockLength(b, offs, k) > INT32_MAX
    && k - r == if k < 10 then 1 else k / 10
  }

  /** A single string is never too long. */
  lemma OneStringFits(b: seq<char>, offs: seq<nat>, head: nat)
    requires Fits(b, offs, head) && offs != []
    ensures InPool(b, offs) && 1 <= BlockLength(b, offs, 1) <= MAX_STRING_LEN
  {
    FitsInPool(b, offs, head);
    assert SlotAt(b, offs, head, |offs| - 1);
  }

  lemma BlockIsPositive(b: seq<char>, offs: seq<nat>, head: nat, k: nat)
    requires Fits(b, offs, head) && 1 <= k <= |offs|
    ensures InPool(b, offs) && k <= BlockLength(b, offs, k) && EndOf(b, offs) <= head
  {
    FitsInPool(b, offs, head);
    OffsetsSpread(b, offs, head, |offs| - k);
    assert SlotAt(b, offs, head, |offs| - 1);
  }

  /** Each string takes at least one byte. */
  lemma {:induction false} OffsetsSpread(b: seq<char>, offs: seq<nat>, head: nat, i: nat)
    requires Fits(b, offs, head) && i < |offs|
    ensures offs[i] + (|offs| - 1 - i) <= offs[|offs| - 1]
    decreases |offs| - i
  {
    assert SlotAt(b, offs, head, i);
    if i + 1 < |offs| {
      OffsetsSpread(b, offs, head, i + 1);
    }
  }

  /** All numbers of a transfer fit once its block does. */
  lemma TransferFitsInt32(b: seq<char>, offs: seq<nat>, head: nat, start: nat, rel: seq<nat>, len: nat)
    requires Fits(b, offs, head) && Rebased(offs, start, rel) && InPool(b, offs)
    requires len == BlockLength(b, offs, |rel|) <= INT32_MAX && |rel| + 2 <= INT32_MAX
    ensures FitsInt32([|rel|, len] + rel)
  {
    forall i: nat | i < |rel| ensures rel[i] <= len {
      SlotInBlock(b, offs, head, start + i);
      assert rel[i] + offs[start] == offs[start + i];
    }
    BlockIsPositive(b, offs, head, |rel|);
  }

  /** Dropping the last `k` strings, and leaving the head where it is, leaves a stack. */
  lemma DroppedStack(b: seq<char>, offs: seq<nat>, head: nat, k: nat)
    requires Stacked(b, offs, head) && k < |offs|
    ensures Stacked(b, offs[..|offs| - k], head)
    ensures Stack(b, offs[..|offs| - k], head) == Stack(b, offs, head)[..|offs| - k]
  {
    var m := |offs| - k;
    if k > 0 {
      LimitBelowHead(b, offs, head, m);
    }
    FitsPrefix(b, offs, head, m, head);
    FitsInPool(b, offs, head);
    forall i: nat | i < m ensures Texts(b, offs[..m])[i] == Texts(b, offs)[i] {
      TextsAt(b, offs, i);
      TextsAt(b, offs[..m], i);
    }
  }
}
