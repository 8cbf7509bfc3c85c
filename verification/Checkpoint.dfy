/** Writing the queue to a checkpoint file and reading it back
    (CIRCLE_internal_queue_write and CIRCLE_internal_queue_read in libcircle/queue.c).

    The file is a sequence of characters.  Opening a file that exists, writing and closing it
    succeed.
 */
module Checkpoint {
  import opened CStrings
  import opened StringPool

  const NEWLINE: char := '\n'

  /** The rank's checkpoint file, if there is one. */
  datatype Disk = NoFile | File(text: seq<char>)

  // ----- what is written and what is read -----

  /** Draining a stack prints its strings from the top down, each with a newline. */
  function Printed(items: seq<Item>): seq<char> {
    if items == [] then []
    else items[|items| - 1] + [NEWLINE] + Printed(items[..|items| - 1])
  }

  function Reversed(items: seq<Item>): (r: seq<Item>)
    ensures |r| == |items|
  {
    if items == [] then [] else [items[|items| - 1]] + Reversed(items[..|items| - 1])
  }

  /** How many characters fgets takes: through the first newline, but at most `room`. */
  function LineLength(file: seq<char>, room: nat): (n: nat)
    ensures n <= |file| && n <= room
    ensures room >= 1 && file != [] ==> n >= 1
    decreases |file|
  {
    if room == 0 || file == [] then 0
    else if file[0] == NEWLINE then 1
    else 1 + LineLength(file[1..], room - 1)
  }

  /** What is pushed for one line: the last character before the NUL is dropped, whatever it is. */
  function LineItems(line: seq<char>): seq<Item> {
    var len := StrLen(line, 0);
    if len > 0 then [line[..len - 1]] else []
  }

  function Parsed(file: seq<char>): seq<Item>
    decreases |file|
  {
    if file == [] then []
    else
      var n := LineLength(file, MAX_STRING_LEN - 1);
      LineItems(file[..n]) + Parsed(file[n..])
  }

  /** The file after writing a queue: an empty queue leaves the file of an earlier write, if any. */
  function Saved(items: seq<Item>, disk: Disk): Disk {
    if items == [] then disk else File(Printed(items))
  }

  /** What reading the file pushes. */
  function Loaded(disk: Disk): seq<Item> {
    if disk.NoFile? then [] else Parsed(disk.text)
  }

  // ----- the two operations -----

  /** CIRCLE_internal_queue_write. */
  method Write(pool: Pool, disk: Disk) returns (rc: int, after: Disk)
    requires pool.Valid()
    modifies pool`head, pool`count
    ensures pool.Valid() && pool.Items() == []
    ensures rc == 0 && after == Saved(old(pool.Items()), disk)
  {
    if pool.count == 0 {
      return 0, disk;
    }
    var text := [];
    ghost var items := pool.Items();
    while pool.count > 0
      invariant pool.Valid()
      invariant Printed(items) == text + Printed(pool.Items())
      decreases pool.count
    {
      ghost var before := pool.Items();
      var code, str := pool.Pop(true);
      assert before[..|before| - 1] == pool.Items();
      PrintedNext(text, str, Printed(pool.Items()));
      text := text + str + [NEWLINE];
    }
    return 0, File(text);
  }

  lemma PrintedNext(text: seq<char>, str: Item, rest: seq<char>)
    ensures text + (str + [NEWLINE] + rest) == (text + str + [NEWLINE]) + rest
  {
  }

  /** fgets into a buffer of MAX_STRING_LEN. */
  method Fgets(file: seq<char>, from: nat) returns (n: nat)
    requires from <= |file|
    ensures n == LineLength(file[from..], MAX_STRING_LEN - 1)
  {
    n := 0;
    while n < MAX_STRING_LEN - 1 && from + n < |file|
      invariant from + n <= |file| && n <= MAX_STRING_LEN - 1
      invariant LineLength(file[from..], MAX_STRING_LEN - 1) == n + LineLength(file[from + n..], MAX_STRING_LEN - 1 - n)
    {
      n := n + 1;
      if file[from + n - 1] == NEWLINE {
        return;
      }
    }
  }

  /** Read one line and push it. */
  method ReadLine(pool: Pool, file: seq<char>, at: nat) returns (next: nat)
    requires pool.Valid() && at < |file|
    modifies pool`base, pool`head, pool`strings, pool`count, pool.base, pool.strings
    ensures pool.Valid() && at < next <= |file|
    ensures pool.base == old(pool.base) || fresh(pool.base)
    ensures pool.strings == old(pool.strings) || fresh(pool.strings)
    ensures next == at + LineLength(file[at..], MAX_STRING_LEN - 1)
    ensures pool.Items() == old(pool.Items()) + LineItems(file[at..next])
  {
    var n := Fgets(file, at);
    next := at + n;
    PushLine(pool, file[at..next]);
  }

  /** CIRCLE_internal_queue_read. */
  method Read(pool: Pool, disk: Disk) returns (rc: int)
    requires pool.Valid()
    modifies pool`base, pool`head, pool`strings, pool`count, pool.base, pool.strings
    ensures pool.Valid() && pool.Items() == old(pool.Items()) + Loaded(disk)
    ensures rc == if disk.NoFile? then -1 else 0
  {
    if disk.NoFile? {
      return -1;
    }
    ReadLines(pool, disk.text);
    rc := 0;
  }

  method ReadLines(pool: Pool, file: seq<char>)
    requires pool.Valid()
    modifies pool`base, pool`head, pool`strings, pool`count, pool.base, pool.strings
    ensures pool.Valid() && pool.Items() == old(pool.Items()) + Parsed(file)
  {
    var at := 0;
    ghost var items := pool.Items();
    assert file[0..] == file;
    while at < |file|
      invariant at <= |file| && pool.Valid()
      invariant pool.base == old(pool.base) || fresh(pool.base)
      invariant pool.strings == old(pool.strings) || fresh(pool.strings)
      invariant pool.Items() + Parsed(file[at..]) == items + Parsed(file)
    {
      ghost var before := pool.Items();
      var next := ReadLine(pool, file, at);
      ParsedNext(file, at, next, before);
      at := next;
    }
    assert file[at..] == [];
  }

  lemma ParsedUnfolds(rest: seq<char>, n: nat)
    requires rest != [] && n == LineLength(rest, MAX_STRING_LEN - 1)
    ensures Parsed(rest) == LineItems(rest[..n]) + Parsed(rest[n..])
  {
  }

  lemma ParsedNext(file: seq<char>, at: nat, next: nat, before: seq<Item>)
    requires at < next <= |file| && next == at + LineLength(file[at..], MAX_STRING_LEN - 1)
    ensures before + Parsed(file[at..]) == (before + LineItems(file[at..next])) + Parsed(file[next..])
  {
    var line, rest := file[at..next], file[next..];
    assert Parsed(file[at..]) == LineItems(line) + Parsed(rest) by {
      ParsedUnfolds(file[at..], next - at);
      assert file[at..][..next - at] == line;
      assert file[at..][next - at..] == rest;
    }
  }

  /** Push one line without its last character. */
  method PushLine(pool: Pool, line: seq<char>)
    requires pool.Valid() && |line| < MAX_STRING_LEN
    modifies pool`base, pool`head, pool`strings, pool`count, pool.base, pool.strings
    ensures pool.Valid() && pool.Items() == old(pool.Items()) + LineItems(line)
    ensures pool.base == old(pool.base) || fresh(pool.base)
    ensures pool.strings == old(pool.strings) || fresh(pool.strings)
  {
    StrLenMeans(line, 0);
    var len := Strnlen(line);
    if len > 0 {
      var code := pool.Push(Str(line[..len - 1]));
    }
  }

  /** strlen of a line that ends at its NUL or at its end. */
  method Strnlen(line: seq<char>) returns (len: nat)
    ensures len == StrLen(line, 0)
  {
    len := 0;
    while len < |line| && line[len] != NUL
      invariant len <= |line|
      invariant forall j | 0 <= j < len :: line[j] != NUL
    {
      len := len + 1;
    }
    StrLenIs(line, 0, len);
  }

  // ----- the round trip -----

  /** What a pool may hold. */
  ghost predicate Storable(item: Item) {
    NUL !in item && |item| < MAX_STRING_LEN
  }

  /** What survives a checkpoint. */
  predicate Survives(item: Item) {
    NEWLINE !in item && |item| <= MAX_STRING_LEN - 2
  }

  lemma {:induction false} LineThroughNewline(item: Item, rest: seq<char>, room: nat)
    requires NEWLINE !in item && |item| + 1 <= room
    ensures LineLength(item + [NEWLINE] + rest, room) == |item| + 1
    decreases |item|
  {
    var file := item + [NEWLINE] + rest;
    if item != [] {
      assert file[0] == item[0];
      assert file[1..] == item[1..] + [NEWLINE] + rest;
      LineThroughNewline(item[1..], rest, room - 1);
    }
  }

  lemma {:induction false} LineOfFullBuffer(item: Item, rest: seq<char>, room: nat)
    requires NEWLINE !in item && |item| == room
    ensures LineLength(item + rest, room) == room
    decreases |item|
  {
    var file := item + rest;
    if item != [] {
      assert file[0] == item[0];
      assert file[1..] == item[1..] + rest;
      LineOfFullBuffer(item[1..], rest, room - 1);
    }
  }

  lemma NoNulMeansWhole(line: seq<char>)
    requires NUL !in line && line != []
    ensures LineItems(line) == [line[..|line| - 1]]
  {
    StrLenIs(line, 0, |line|);
  }

  /** A string that survives is read back as it was. */
  lemma GoodItemParses(item: Item, rest: seq<char>)
    requires Survives(item) && NUL !in item
    ensures Parsed(item + [NEWLINE] + rest) == [item] + Parsed(rest)
  {
    var file, n := item + [NEWLINE] + rest, |item| + 1;
    LineThroughNewline(item, rest, MAX_STRING_LEN - 1);
    assert file[..n] == item + [NEWLINE] && file[n..] == rest;
    NoNulMeansWhole(item + [NEWLINE]);
    assert (item + [NEWLINE])[..|item|] == item;
  }

  /** The line that is read first ends inside any other string. */
  lemma BadItemIsCut(item: Item, rest: seq<char>) returns (n: nat)
    requires !Survives(item)
    ensures 1 <= n <= |item| && n == LineLength(item + [NEWLINE] + rest, MAX_STRING_LEN - 1)
  {
    var room := MAX_STRING_LEN - 1;
    var j := 0;
    while j < |item| && j < room && item[j] != NEWLINE
      invariant j <= |item| && j <= room && NEWLINE !in item[..j]
    {
      j := j + 1;
    }
    assert j == |item| ==> item[..j] == item;
    if j == room {
      n := room;
      assert item + [NEWLINE] + rest == item[..n] + (item[n..] + [NEWLINE] + rest);
      LineOfFullBuffer(item[..n], item[n..] + [NEWLINE] + rest, room);
    } else if j < |item| {
      n := j + 1;
      assert item + [NEWLINE] + rest == item[..j] + [NEWLINE] + (item[n..] + [NEWLINE] + rest);
      LineThroughNewline(item[..j], item[n..] + [NEWLINE] + rest, room);
    } else {
      assert false;
    }
  }

  /** It is read back as two strings or more. */
  lemma {:induction false} ItemsPerString(item: Item, rest: seq<char>)
    requires NUL !in item
    ensures |Parsed(item + [NEWLINE] + rest)| >= 1 + |Parsed(rest)| + if Survives(item) then 0 else 1
    decreases |item|
  {
    if Survives(item) {
      GoodItemParses(item, rest);
    } else {
      var n := BadItemIsCut(item, rest);
      var file := item + [NEWLINE] + rest;
      assert file[..n] == item[..n] && file[n..] == item[n..] + [NEWLINE] + rest;
      NoNulMeansWhole(item[..n]);
      ItemsPerString(item[n..], rest);
    }
  }

  lemma {:induction false} GoodItemsParse(items: seq<Item>)
    requires forall i | 0 <= i < |items| :: Storable(items[i]) && Survives(items[i])
    ensures Parsed(Printed(items)) == Reversed(items)
  {
    if items != [] {
      var k := |items| - 1;
      GoodItemsParse(items[..k]);
      GoodItemParses(items[k], Printed(items[..k]));
    }
  }

  lemma {:induction false} ItemsPerStack(items: seq<Item>)
    requires forall i | 0 <= i < |items| :: Storable(items[i])
    ensures |Parsed(Printed(items))| >= |items|
  {
    if items != [] {
      var k := |items| - 1;
      ItemsPerStack(items[..k]);
      ItemsPerString(items[k], Printed(items[..k]));
    }
  }

  /** A string that does not survive makes one string more. */
  lemma {:induction false} OneStringMore(items: seq<Item>, i: nat)
    requires forall i | 0 <= i < |items| :: Storable(items[i])
    requires i < |items| && !Survives(items[i])
    ensures |Parsed(Printed(items))| > |items|
  {
    var k := |items| - 1;
    ItemsPerString(items[k], Printed(items[..k]));
    if i < k {
      OneStringMore(items[..k], i);
    } else {
      ItemsPerStack(items[..k]);
    }
  }

  lemma PrintedRoundTrip(items: seq<Item>)
    requires forall i | 0 <= i < |items| :: Storable(items[i])
    ensures Parsed(Printed(items)) == Reversed(items) <==> forall i | 0 <= i < |items| :: Survives(items[i])
  {
    if forall i | 0 <= i < |items| :: Survives(items[i]) {
      GoodItemsParse(items);
    } else {
      var i: nat :| i < |items| && !Survives(items[i]);
      OneStringMore(items, i);
    }
  }

  /** Every line that fgets takes from the text begins with a NUL. */
  predicate Blank(text: seq<char>)
    decreases |text|
  {
    text == [] || (text[0] == NUL && Blank(text[LineLength(text, MAX_STRING_LEN - 1)..]))
  }

  /** Only such a text has nothing to read. */
  lemma {:induction false} BlankIsUnread(text: seq<char>)
    ensures Parsed(text) == [] <==> Blank(text)
    decreases |text|
  {
    if text != [] {
      var n := LineLength(text, MAX_STRING_LEN - 1);
      assert text[..n][0] == text[0];
      BlankIsUnread(text[n..]);
    }
  }

  /** A text without NULs, as any that a checkpoint is written with, has something to read unless it
      is empty. */
  lemma PlainIsRead(text: seq<char>)
    requires NUL !in text
    ensures Parsed(text) == [] <==> text == []
  {
    BlankIsUnread(text);
  }

  /** A file that holds no NUL. */
  predicate Plain(disk: Disk) {
    disk.File? ==> NUL !in disk.text
  }

  lemma {:induction false} PrintedIsPlain(items: seq<Item>)
    requires forall i | 0 <= i < |items| :: Storable(items[i])
    ensures NUL !in Printed(items)
  {
    if items != [] {
      PrintedIsPlain(items[..|items| - 1]);
    }
  }

  /** Writing checkpoints leaves the file without NULs. */
  lemma SavedIsPlain(items: seq<Item>, disk: Disk)
    requires Plain(disk) && forall i | 0 <= i < |items| :: Storable(items[i])
    ensures Plain(Saved(items, disk))
  {
    PrintedIsPlain(items);
  }

  /** When a checkpoint gives the queue back: every string in it is free of newlines and at most
      MAX_STRING_LEN - 2 long; and if there is none, the file that was there is blank. */
  predicate RoundTrips(items: seq<Item>, disk: Disk) {
    if items == [] then disk.NoFile? || Blank(disk.text)
    else forall i | 0 <= i < |items| :: Survives(items[i])
  }

  /** Writing a queue and reading the file back gives the reversed queue if and only if
      `RoundTrips` holds, whatever the file was before; and for an empty queue over a file without
      NULs that is to say: there was no file, or an empty one. */
  lemma CheckpointRoundTrip(items: seq<Item>, disk: Disk)
    requires forall i | 0 <= i < |items| :: Storable(items[i])
    ensures Loaded(Saved(items, disk)) == Reversed(items) <==> RoundTrips(items, disk)
    ensures items == [] && Plain(disk) ==> (RoundTrips(items, disk) <==> disk.NoFile? || disk.text == [])
  {
    PrintedRoundTrip(items);
    if disk.File? {
      BlankIsUnread(disk.text);
    }
  }

  /** What a pool holds may be stored. */
  lemma TextsAreStorable(b: seq<char>, offs: seq<nat>, head: nat, i: nat)
    requires Stacked(b, offs, head) && i < |offs|
    ensures Storable(Stack(b, offs, head)[i])
  {
    FitsInPool(b, offs, head);
    TextsAt(b, offs, i);
    assert SlotAt(b, offs, head, i);
    StrLenMeans(b, offs[i]);
  }

  /** A checkpoint written and read back into the emptied queue. */
  method SaveAndLoad(pool: Pool, disk: Disk) returns (after: Disk)
    requires pool.Valid()
    modifies pool, pool.base, pool.strings
    ensures pool.Valid() && after == Saved(old(pool.Items()), disk)
    ensures pool.Items() == Reversed(old(pool.Items())) <==> RoundTrips(old(pool.Items()), disk)
  {
    ghost var items := pool.Items();
    forall i: nat | i < |items| ensures Storable(items[i]) {
      TextsAreStorable(pool.base[..], pool.strings[..pool.count], pool.head, i);
    }
    var rc;
    rc, after := Write(pool, disk);
    rc := Read(pool, after);
    assert [] + Loaded(after) == Loaded(after);
    CheckpointRoundTrip(items, disk);
  }

  lemma {:induction false} ReversedAt(items: seq<Item>, i: nat)
    requires i < |items|
    ensures Reversed(items)[i] == items[|items| - 1 - i]
  {
    if i > 0 {
      ReversedAt(items[..|items| - 1], i - 1);
    }
  }

  lemma ReversedReversed(items: seq<Item>)
    ensures Reversed(Reversed(items)) == items
  {
    var back := Reversed(items);
    forall i | 0 <= i < |items| ensures Reversed(back)[i] == items[i] {
      ReversedAt(back, i);
      ReversedAt(items, |items| - 1 - i);
    }
  }

  lemma ReversedSurvives(items: seq<Item>, i: nat)
    requires forall i | 0 <= i < |items| :: Storable(items[i]) && Survives(items[i])
    requires i < |items|
    ensures Storable(Reversed(items)[i]) && Survives(Reversed(items)[i])
  {
    ReversedAt(items, i);
  }

  /** Two checkpoints in a row give back the queue. */
  lemma TwoRoundTrips(items: seq<Item>, disk: Disk)
    requires forall i | 0 <= i < |items| :: Storable(items[i])
    requires RoundTrips(items, disk)
    ensures var once := Saved(items, disk);
            Loaded(Saved(Loaded(once), once)) == items
  {
    CheckpointRoundTrip(items, disk);
    if items != [] {
      PrintedTwice(items);
    }
  }

  lemma PrintedTwice(items: seq<Item>)
    requires forall i | 0 <= i < |items| :: Storable(items[i]) && Survives(items[i])
    ensures Parsed(Printed(items)) == Reversed(items) && Parsed(Printed(Reversed(items))) == items
  {
    var back := Reversed(items);
    forall i | 0 <= i < |back| ensures Storable(back[i]) && Survives(back[i]) {
      ReversedSurvives(items, i);
    }
    assert Parsed(Printed(items)) == back by {
      GoodItemsParse(items);
    }
    assert Parsed(Printed(back)) == items by {
      GoodItemsParse(back);
      ReversedReversed(items);
    }
  }

  /** A queue that is empty when it is written does not come back empty if an earlier checkpoint is
      left: the strings of that one are read. */
  lemma StaleFileIsRead(item: Item)
    requires Storable(item) && Survives(item)
    ensures Loaded(Saved([], File(item + [NEWLINE]))) == [item]
    ensures !RoundTrips([], File(item + [NEWLINE]))
  {
    assert item + [NEWLINE] + [] == item + [NEWLINE];
    GoodItemParses(item, []);
  }

  /** The longest string that may be pushed does not survive: it loses its last character, and
      an empty string is read after it. */
  lemma LongestStringIsDamaged(item: Item)
    requires |item| == MAX_STRING_LEN - 1 && NEWLINE !in item && NUL !in item
    ensures Storable(item)
    ensures forall disk :: Loaded(Saved([item], disk)) == [item[..|item| - 1], []]
  {
    var file := item + [NEWLINE];
    assert [item][..0] == [];
    assert Printed([item]) == file;
    LineOfFullBuffer(item, [NEWLINE], |item|);
    NoNulMeansWhole(item);
    assert file[..|item|] == item && file[|item|..] == [] + [NEWLINE] + [];
    GoodItemParses([], []);
  }
}
