/** The pool of output buffers and the chains built from it.

A chain is a linked list of 256-byte buffers in which every item caches a
pointer to the tail; here it is named by the ghost sequence of its items.
*/
module OutputMemory {
  import opened Basics

  const BUFFER_SIZE: nat := 256

  class OutputBuffer {
    var next: OutputBuffer?
    var last: OutputBuffer?
    const data: array<char>
    var dataLength: nat
    var bytesRead: nat
    var isReferenced: bool
    var hadOverflow: bool
    var references: nat

    constructor (n: OutputBuffer?)
      ensures next == n && fresh(data) && data.Length == BUFFER_SIZE
    {
      next, last := n, null;
      data := new char[BUFFER_SIZE](_ => '\0');
      dataLength, bytesRead, references := 0, 0, 0;
      isReferenced, hadOverflow := false, false;
    }
  }

  ghost predicate Linked(items: seq<OutputBuffer>)
    reads items`next
  {
    forall i {:trigger items[i].next} | 0 <= i < |items| :: items[i].next == At(items, i + 1)
  }

  function At(items: seq<OutputBuffer>, i: nat): OutputBuffer? { if i < |items| then items[i] else null }

  /** No buffer occurs twice, and no two share storage. */
  ghost predicate Distinct(items: seq<OutputBuffer>) {
    && (forall i | 0 <= i < |items| :: items[i].data.Length == BUFFER_SIZE)
    && (forall i, j | 0 <= i < j < |items| :: items[i] != items[j] && items[i].data != items[j].data)
  }

  ghost predicate Apart(items: seq<OutputBuffer>, others: seq<OutputBuffer>) {
    forall a, b | a in items && b in others :: a != b && a.data != b.data
  }

  /** The items of a linked list of buffers in use. */
  ghost predicate List(items: seq<OutputBuffer>)
    reads items`next, items`dataLength, items`references
  {
    items != [] && Distinct(items) && Linked(items) && Filled(items) && Claimed(items)
  }

  /** The items of a chain: a list in which each knows the tail. */
  ghost predicate Chain(items: seq<OutputBuffer>)
    reads items`next, items`last, items`dataLength, items`references
  {
    List(items) && Points(items, items[|items| - 1])
  }

  ghost predicate Points(items: seq<OutputBuffer>, tail: OutputBuffer)
    reads items`last
  {
    forall b | b in items :: b.last == tail
  }

  ghost predicate Filled(items: seq<OutputBuffer>)
    reads items`dataLength
  {
    forall b | b in items :: b.dataLength <= BUFFER_SIZE
  }

  ghost predicate Claimed(items: seq<OutputBuffer>)
    reads items`references
  {
    forall b | b in items :: b.references >= 1
  }

  /** The bytes written to a chain. */
  ghost function Bytes(items: seq<OutputBuffer>): seq<char>
    requires Distinct(items)
    requires Filled(items)
    reads items`dataLength, DataOf(items)
  {
    if items == [] then []
    else
      var b := items[|items| - 1];
      Bytes(items[..|items| - 1]) + b.data[..b.dataLength]
  }

  ghost function DataOf(items: seq<OutputBuffer>): set<array<char>> {
    set b | b in items :: b.data
  }

  twostate lemma {:induction false} BytesUnchanged(items: seq<OutputBuffer>)
    requires Distinct(items) && Filled(items) && old(Filled(items))
    requires forall b | b in items :: b.dataLength == old(b.dataLength) && b.data[..] == old(b.data[..])
    ensures Bytes(items) == old(Bytes(items))
  {
    if items != [] {
      BytesUnchanged(items[..|items| - 1]);
      var b := items[|items| - 1];
      assert b.data[..b.dataLength] == b.data[..][..b.dataLength];
    }
  }

  lemma {:induction false} BytesPrefix(items: seq<OutputBuffer>, n: nat)
    requires Distinct(items) && Filled(items) && n <= |items|
    ensures Distinct(items[..n]) && Filled(items[..n]) && Bytes(items[..n]) <= Bytes(items)
    decreases |items|
  {
    if n < |items| {
      BytesPrefix(items[..|items| - 1], n);
      assert items[..|items| - 1][..n] == items[..n];
    } else {
      assert items[..n] == items;
    }
  }

  lemma {:induction false} BytesOfTail(items: seq<OutputBuffer>)
    requires items != [] && Distinct(items) && Filled(items)
    ensures var front, tail := items[..|items| - 1], items[|items| - 1];
      && Distinct(front) && Filled(front) && tail.data.Length == BUFFER_SIZE && tail.dataLength <= BUFFER_SIZE
      && Bytes(items) == Bytes(front) + tail.data[..tail.dataLength]
  {
  }

  /** The items before the tail are other objects with other storage. */
  lemma {:induction false} FrontApart(items: seq<OutputBuffer>)
    requires items != [] && Distinct(items)
    ensures var tail := items[|items| - 1]; forall b | b in items[..|items| - 1] :: b != tail && b.data != tail.data
    ensures forall i | 0 <= i < |items| - 1 :: items[i] != items[|items| - 1]
  {
  }

  lemma {:induction false} StillFilled(items: seq<OutputBuffer>)
    requires items != [] && items[|items| - 1].dataLength <= BUFFER_SIZE && Filled(items[..|items| - 1])
    ensures Filled(items)
  {
  }

  lemma {:induction false} Reassociate(a: seq<char>, b: seq<char>, c: seq<char>)
    ensures a + b + c == a + (b + c)
  {
  }

  /** Every item has exactly one holder. */
  ghost predicate Unshared(items: seq<OutputBuffer>)
    reads items`references
  {
    forall b | b in items :: b.references == 1
  }

  /** None of the items is marked as having been shared. */
  ghost predicate Unmarked(items: seq<OutputBuffer>)
    reads items`isReferenced
  {
    forall b | b in items :: !b.isReferenced
  }

  /** The number of bytes in each item. */
  ghost function Sizes(items: seq<OutputBuffer>): (sizes: seq<nat>)
    reads items`dataLength
    ensures |sizes| == |items| && forall i | 0 <= i < |items| :: sizes[i] == items[i].dataLength
  {
    if items == [] then [] else Sizes(items[..|items| - 1]) + [items[|items| - 1].dataLength]
  }

  /** Of a chain whose items had these sizes, all but the last keep them, and what was added starts with a full buffer:
      every item from the old tail on, but the new tail, is full. */
  ghost predicate Topped(sizes: seq<nat>, items': seq<OutputBuffer>)
    reads items'`dataLength
  {
    && 0 < |sizes| <= |items'|
    && (forall i | 0 <= i < |sizes| - 1 :: items'[i].dataLength == sizes[i])
    && (forall i | |sizes| - 1 <= i < |items'| - 1 :: items'[i].dataLength == BUFFER_SIZE)
  }

  /** Free space in the tail of a chain. */
  ghost function Room(items: seq<OutputBuffer>): int
    requires items != []
    reads items`dataLength
  {
    BUFFER_SIZE - items[|items| - 1].dataLength
  }

  /** The buffers of a chain and of the free list, with their data. */
  ghost function Storage(items: seq<OutputBuffer>, free: seq<OutputBuffer>): set<object> {
    (set b | b in items + free :: b as object) + (set b | b in items + free :: b.data as object)
  }

  lemma {:induction false} InStorage(items: seq<OutputBuffer>, free: seq<OutputBuffer>)
    ensures forall i | 0 <= i < |items| :: items[i] in Storage(items, free) && items[i].data in Storage(items, free)
    ensures forall i | 0 <= i < |free| :: free[i] in Storage(items, free) && free[i].data in Storage(items, free)
  {
    forall i | 0 <= i < |items| ensures items[i] in items + free { assert (items + free)[i] == items[i]; }
    forall i | 0 <= i < |free| ensures free[i] in items + free { assert (items + free)[|items| + i] == free[i]; }
  }

  /** A chain grew from `items` to `items'` by taking buffers off the front of the free list. */
  ghost predicate Took(items: seq<OutputBuffer>, free: seq<OutputBuffer>, items': seq<OutputBuffer>,
                       free': seq<OutputBuffer>) {
    && |items| <= |items'| <= |items| + |free|
    && items' == items + free[..|items'| - |items|]
    && free' == free[|items'| - |items|..]
  }

  lemma {:induction false} TookSizes(items: seq<OutputBuffer>, free: seq<OutputBuffer>, items': seq<OutputBuffer>,
                                     free': seq<OutputBuffer>)
    requires Took(items, free, items', free')
    ensures |items| <= |items'| <= |items| + |free| && |free'| == |free| + |items| - |items'|
    ensures |items'| > |items| ==> items' != items
  {
  }

  lemma {:induction false} TookFacts(items: seq<OutputBuffer>, free: seq<OutputBuffer>, items': seq<OutputBuffer>,
                                     free': seq<OutputBuffer>)
    requires Took(items, free, items', free')
    ensures Storage(items', free') <= Storage(items, free)
    ensures |items| <= |items'| && (items != [] ==> items'[0] == items[0])
  {
    assert forall b | b in items' + free' :: b in items + free;
  }

  lemma {:induction false} TookTail(items: seq<OutputBuffer>, free: seq<OutputBuffer>, items': seq<OutputBuffer>,
                                    free': seq<OutputBuffer>)
    requires Took(items, free, items', free') && items != []
    ensures items' != [] && items'[|items'| - 1] in Storage(items, free)
    ensures items'[|items'| - 1].data in Storage(items, free)
    ensures |items'| == |items| ==> items' == items && free' == free
    ensures |items'| >= |items| && forall i | 0 <= i < |items| :: items'[i] == items[i]
  {
    assert items'[|items'| - 1] in items + free;
  }

  lemma {:induction false} SliceJoin(s: seq<char>, i: nat, n: nat)
    requires i + n <= |s|
    ensures forall t: seq<char> :: t + s[..i] + s[i..][..n] == t + s[..i + n]
  {
    assert s[..i] + s[i..][..n] == s[..i + n];
    forall t: seq<char> ensures t + s[..i] + s[i..][..n] == t + s[..i + n] {
      assert t + s[..i] + s[i..][..n] == t + (s[..i] + s[i..][..n]);
    }
  }

  lemma {:induction false} TookTrans(items0: seq<OutputBuffer>, free0: seq<OutputBuffer>, items1: seq<OutputBuffer>,
                                     free1: seq<OutputBuffer>,
                  items2: seq<OutputBuffer>, free2: seq<OutputBuffer>)
    ensures Took(items0, free0, items0, free0)
    ensures Took(items0, free0, items1, free1) && Took(items1, free1, items2, free2) ==>
      Took(items0, free0, items2, free2)
  {
  }

  /** A chain as it was before something was written to it. */
  datatype Progress = Progress(items: seq<OutputBuffer>, free: seq<OutputBuffer>, bytes: seq<char>, sizes: seq<nat>,
                               room: int, sole: bool, unmarked: bool)

  /** A recorded maximum has kept up: it is the old one or the present number, whichever is greater. */
  predicate PeakKept(before: nat, after: nat, used: nat) { after == Max(before, used) }

  lemma {:induction false} PeakTrans(p0: nat, p1: nat, used1: nat, p2: nat, used2: nat)
    requires PeakKept(p0, p1, used1) && PeakKept(p1, p2, used2) && used1 <= used2
    ensures PeakKept(p0, p2, used2)
  {
  }

  class Pool {
    const bufferCount: nat
    const reservedBuffers: nat
    var freeOutputBuffers: OutputBuffer?
    var usedOutputBuffers: nat
    var maxUsedOutputBuffers: nat
    ghost var free: seq<OutputBuffer>

    ghost predicate Valid()
      reads this, free`next
    {
      && Distinct(free) && Linked(free)
      && freeOutputBuffers == At(free, 0)
      && usedOutputBuffers + |free| == bufferCount
      && usedOutputBuffers <= maxUsedOutputBuffers
    }

    /** A list whose items are all in use. */
    ghost predicate Held(items: seq<OutputBuffer>)
      reads this, free`next, items`next, items`dataLength, items`references
    {
      Valid() && List(items) && Apart(items, free) && |items| <= usedOutputBuffers
    }

    /** A chain whose items are all in use. */
    ghost predicate Live(items: seq<OutputBuffer>)
      reads this, free`next, items`next, items`last, items`dataLength, items`references
    {
      items != [] && Held(items) && Chain(items)
    }

    /** Creates the buffers, all of them free. */
    constructor (bufferCount: nat, reservedBuffers: nat)
      ensures Valid() && this.bufferCount == bufferCount && this.reservedBuffers == reservedBuffers
      ensures |free| == bufferCount && usedOutputBuffers == 0 && maxUsedOutputBuffers == 0
      ensures forall i | 0 <= i < |free| :: fresh(free[i]) && fresh(free[i].data)
    {
      this.bufferCount, this.reservedBuffers := bufferCount, reservedBuffers;
      freeOutputBuffers, free := null, [];
      usedOutputBuffers, maxUsedOutputBuffers := 0, 0;
      new;
      for i := 0 to bufferCount
        invariant |free| == i && Distinct(free) && Linked(free) && freeOutputBuffers == At(free, 0)
        invariant usedOutputBuffers == 0 && maxUsedOutputBuffers == 0
        invariant forall i | 0 <= i < |free| :: fresh(free[i]) && fresh(free[i].data)
      {
        var b := new OutputBuffer(freeOutputBuffers);
        assert forall k | 0 < k <= |free| :: ([b] + free)[k] == free[k - 1];
        free := [b] + free;
        freeOutputBuffers := b;
      }
    }

    method Allocate() returns (buf: OutputBuffer?)
      requires Valid()
      modifies this, free
      ensures Valid()
      ensures maxUsedOutputBuffers == Max(old(maxUsedOutputBuffers), usedOutputBuffers)
      ensures buf == null <==> old(free) == []
      ensures buf == null ==> free == old(free)
      ensures buf != null ==>
        buf == old(free)[0] && free == old(free)[1..] && (forall b | b in free :: unchanged(b)) && Live([buf])
      ensures buf != null ==>
        buf.dataLength == 0 && buf.bytesRead == 0 && buf.references == 1 && !buf.isReferenced && !buf.hadOverflow
    {
      hide Linked, Distinct;
      buf := freeOutputBuffers;
      EmptyOrNot();
      if buf != null {
        RestFree();
        freeOutputBuffers := buf.next;
        usedOutputBuffers := usedOutputBuffers + 1;
        if usedOutputBuffers > maxUsedOutputBuffers { maxUsedOutputBuffers := usedOutputBuffers; }
        Clear(buf);
        free := free[1..];
        IsAlone(buf);
      }
    }

    method Clear(buf: OutputBuffer)
      modifies buf
      ensures buf.next == null && buf.last == buf && buf.dataLength == 0 && buf.bytesRead == 0 && buf.references == 1
      ensures !buf.isReferenced && !buf.hadOverflow
    {
      buf.next, buf.last := null, buf;
      buf.dataLength, buf.bytesRead, buf.references := 0, 0, 1;
      buf.isReferenced, buf.hadOverflow := false, false;
    }

    lemma {:induction false} EmptyOrNot()
      requires Valid()
      ensures freeOutputBuffers == null <==> free == []
      ensures free != [] ==> freeOutputBuffers == free[0]
    {
    }

    /** The free list without its first buffer. */
    lemma {:induction false} RestFree()
      requires Valid() && free != []
      ensures Distinct(free[1..]) && Linked(free[1..]) && free[0].next == At(free[1..], 0)
      ensures forall i | 0 <= i < |free| - 1 :: free[1..][i] != free[0]
      ensures Apart([free[0]], free[1..]) && free[0].data.Length == BUFFER_SIZE
    {
      assert forall i | 0 <= i < |free| - 1 :: free[1..][i] == free[i + 1];
    }

    lemma {:induction false} IsAlone(buf: OutputBuffer)
      requires Valid() && Apart([buf], free) && buf.data.Length == BUFFER_SIZE && usedOutputBuffers >= 1
      requires buf.next == null && buf.last == buf && buf.dataLength == 0 && buf.references == 1
      ensures Live([buf])
    {
    }

    /** Releases one claim on a buffer, which goes back to the pool with the last one; returns the next item of its
        list. */
    method Release(buf: OutputBuffer, ghost items: seq<OutputBuffer>) returns (nextBuffer: OutputBuffer?)
      requires Held(items) && buf in items
      modifies this, buf`next, buf`references, buf`bytesRead
      ensures Valid() && maxUsedOutputBuffers == old(maxUsedOutputBuffers)
      ensures nextBuffer == old(buf.next) && (buf == items[0] ==> nextBuffer == At(items, 1))
      ensures old(buf.references) > 1 ==> free == old(free) && Held(items) && buf.references == old(buf.references) - 1
      ensures old(buf.references) == 1 ==> free == [buf] + old(free)
      ensures old(buf.references) == 1 && buf == items[0] && |items| > 1 ==> Held(items[1..])
      ensures old(buf.references) == 1 && buf == items[0] && old(Unshared(items)) ==> Unshared(items[1..])
    {
      hide Linked;
      nextBuffer := buf.next;
      RestIsList(items);
      if buf.references > 1 {
        buf.references := buf.references - 1;
        buf.bytesRead := 0;
      } else {
        PushFree(buf);
      }
    }

    method PushFree(buf: OutputBuffer)
      requires Valid() && buf.data.Length == BUFFER_SIZE && Apart([buf], free) && 0 < usedOutputBuffers
      modifies this, buf`next
      ensures Valid() && free == [buf] + old(free)
      ensures usedOutputBuffers == old(usedOutputBuffers) - 1 && maxUsedOutputBuffers == old(maxUsedOutputBuffers)
    {
      buf.next := freeOutputBuffers;
      freeOutputBuffers := buf;
      usedOutputBuffers := usedOutputBuffers - 1;
      assert forall i | 0 < i <= |free| :: ([buf] + free)[i] == free[i - 1];
      free := [buf] + free;
    }

    /** Adds an empty buffer to the end of a chain, if there is one. */
    method Grow(buf: OutputBuffer, ghost items: seq<OutputBuffer>) returns (ok: bool, ghost items': seq<OutputBuffer>)
      requires Live(items) && buf == items[0]
      modifies this, items, free
      ensures Live(items') && items'[0] == buf
      ensures old(usedOutputBuffers) <= usedOutputBuffers
      ensures PeakKept(old(maxUsedOutputBuffers), maxUsedOutputBuffers, usedOutputBuffers)
      ensures ok <==> old(free) != []
      ensures ok ==> items' == items + [old(free)[0]] && free == old(free)[1..] && items'[|items|].dataLength == 0
      ensures !ok ==> items' == items && free == old(free) && buf.hadOverflow
      ensures ok ==> buf.hadOverflow == old(buf.hadOverflow)
      ensures forall b | b in items :: b.dataLength == old(b.dataLength)
      ensures old(Unshared(items)) ==> Unshared(items')
      ensures old(Unmarked(items)) ==> Unmarked(items')
    {
      hide Linked, Points, Distinct, Filled, Bytes, Apart, Claimed, Unshared, Unmarked;
      items' := items;
      ghost var before := free;
      Disjoint(items, before);
      var nextBuffer := Allocate();
      ok := nextBuffer != null;
      if !ok {
        buf.hadOverflow := true;
        return;
      }
      HeadClaims(items);
      nextBuffer.references := buf.references;
      NewClaimed(nextBuffer);
      items' := items + [nextBuffer];
      GrownMarks(items, nextBuffer);
      Append(buf, nextBuffer, items, [nextBuffer]);
      GrowDone(items, nextBuffer);
    }

    lemma {:induction false} HeadClaims(items: seq<OutputBuffer>)
      requires List(items)
      ensures items[0].references >= 1 && (Unshared(items) ==> items[0].references == 1)
    {
    }

    lemma {:induction false} NewClaimed(buf: OutputBuffer)
      requires buf.references >= 1
      ensures Claimed([buf])
    {
    }

    lemma {:induction false} GrownMarks(items: seq<OutputBuffer>, buf: OutputBuffer)
      ensures Unshared(items) && buf.references == 1 ==> Unshared(items + [buf])
      ensures Unmarked(items) && !buf.isReferenced ==> Unmarked(items + [buf])
    {
    }

    lemma {:induction false} GrowDone(items: seq<OutputBuffer>, buf: OutputBuffer)
      requires Valid() && Chain(items + [buf]) && Apart(items, free) && Apart([buf], free)
      requires |items| < usedOutputBuffers
      ensures Live(items + [buf])
    {
      hide Linked, Distinct;
    }

    lemma {:induction false} Disjoint(items: seq<OutputBuffer>, others: seq<OutputBuffer>)
      requires Apart(items, others)
      ensures forall i, j | 0 <= i < |items| && 0 <= j < |others| :: items[i] != others[j]
      ensures others != [] ==> Apart(items, others[1..]) && Apart(items, [others[0]])
    {
      forall i, j | 0 <= i < |items| && 0 <= j < |others| ensures items[i] != others[j] {
        assert items[i] in items && others[j] in others;
      }
      if others != [] { assert others[0] in others; }
    }

    /** Makes sure that the tail of a chain is not full, unless there is no buffer left. */
    method MakeRoom(buf: OutputBuffer, ghost items: seq<OutputBuffer>)
      returns (ok: bool, ghost items': seq<OutputBuffer>)
      requires Live(items) && buf == items[0]
      modifies this, items, free
      ensures Live(items') && Bytes(items') == old(Bytes(items))
      ensures Took(items, old(free), items', free)
      ensures |items'| == if ok && old(Room(items)) == 0 then |items| + 1 else |items|
      ensures old(usedOutputBuffers) <= usedOutputBuffers
      ensures PeakKept(old(maxUsedOutputBuffers), maxUsedOutputBuffers, usedOutputBuffers)
      ensures ok <==> old(free) != [] || old(Room(items)) > 0
      ensures buf.hadOverflow == (old(buf.hadOverflow) || !ok)
      ensures buf.last == items'[|items'| - 1]
      ensures Room(items') == if items' == items then old(Room(items)) else BUFFER_SIZE
      ensures 0 <= Room(items') && (ok ==> 0 < Room(items'))
      ensures old(Unshared(items)) ==> Unshared(items')
      ensures old(Unmarked(items)) ==> Unmarked(items')
      ensures forall i | 0 <= i < |items| :: items[i].dataLength == old(items[i].dataLength)
    {
      hide Linked, Points, Bytes, Apart, Distinct, Claimed, Filled, Unshared, Unmarked, Held;
      ok, items' := true, items;
      LiveBytes(items);
      PeakNow(items);
      HeadKnowsTail(items);
      if buf.last.dataLength == BUFFER_SIZE {
        ok, items' := Grow(buf, items);
        LiveBytes(items');
        FirstItems(items, items');
        BytesUnchanged(items);
        if ok { EmptyTail(items, items'); }
        HeadKnowsTail(items');
      }
    }

    lemma {:induction false} LiveBytes(items: seq<OutputBuffer>)
      requires Live(items)
      ensures Distinct(items) && Filled(items) && Chain(items)
    {
    }

    lemma {:induction false} FirstItems(items: seq<OutputBuffer>, items': seq<OutputBuffer>)
      requires items <= items' && Distinct(items') && Filled(items')
      ensures Distinct(items) && Filled(items)
    {
    }

    /** One pass of the loop of `Cat`: makes room if the tail is full, then fills it. */
    method CatSome(buf: OutputBuffer, src: seq<char>, ghost items: seq<OutputBuffer>)
      returns (n: nat, ghost items': seq<OutputBuffer>)
      requires Live(items) && buf == items[0] && src != []
      modifies this, Storage(items, free)
      ensures Live(items') && n <= |src|
      ensures Bytes(items') == old(Bytes(items)) + src[..n]
      ensures old(usedOutputBuffers) <= usedOutputBuffers
      ensures PeakKept(old(maxUsedOutputBuffers), maxUsedOutputBuffers, usedOutputBuffers)
      ensures Took(items, old(free), items', free)
      ensures |items'| == if old(Room(items)) == 0 && n > 0 then |items| + 1 else |items|
      ensures n == 0 <==> old(free) == [] && old(Room(items)) == 0
      ensures n == 0 ==> free == [] && items' == items
      ensures buf.hadOverflow == (old(buf.hadOverflow) || n == 0)
      ensures old(Room(items)) + (|items'| - |items|) * BUFFER_SIZE == n + Room(items')
      ensures old(Unshared(items)) ==> Unshared(items')
      ensures old(Unmarked(items)) ==> Unmarked(items')
      ensures Topped(old(Sizes(items)), items')
    {
      hide Held, Chain, Valid, Bytes, Storage, Unshared, Unmarked, Took, Sizes;
      var ok;
      n := 0;
      InStorage(items, free);
      ok, items' := MakeRoom(buf, items);
      TookTail(items, old(free), items', free);
      if ok {
        n := Min(|src|, BUFFER_SIZE - buf.last.dataLength);
        Fill(buf.last, src[..n], items');
      }
    }

    lemma {:induction false} HeadKnowsTail(items: seq<OutputBuffer>)
      requires Chain(items)
      ensures items[0].last == items[|items| - 1] && 0 <= Room(items)
    {
    }

    lemma {:induction false} LiveTail(items: seq<OutputBuffer>)
      requires Live(items)
      ensures items != [] && 0 <= Room(items) && Distinct(items) && Filled(items)
    {
      HeadKnowsTail(items);
    }

    lemma {:induction false} EmptyTail(items: seq<OutputBuffer>, items': seq<OutputBuffer>)
      requires Chain(items') && items' != [] && items == items'[..|items'| - 1] && items'[|items'| - 1].dataLength == 0
      requires Distinct(items) && Filled(items)
      ensures Bytes(items') == Bytes(items)
    {
    }

    /** Appends as much of `src` as there is room for, and reports how much that was. It stops short only when the
        tail is full and the pool empty, and then flags an overflow; it uses no more buffers than it needs. */
    method Cat(buf: OutputBuffer, src: seq<char>, ghost items: seq<OutputBuffer>)
      returns (copied: nat, ghost items': seq<OutputBuffer>)
      requires Live(items) && buf == items[0]
      modifies this, Storage(items, free)
      ensures Live(items') && copied <= |src|
      ensures Bytes(items') == old(Bytes(items)) + src[..copied]
      ensures old(usedOutputBuffers) <= usedOutputBuffers
      ensures PeakKept(old(maxUsedOutputBuffers), maxUsedOutputBuffers, usedOutputBuffers)
      ensures Took(items, old(free), items', free)
      ensures copied == |src| ==> buf.hadOverflow == old(buf.hadOverflow)
      ensures copied < |src| ==> free == [] && Room(items') == 0 && buf.hadOverflow
      ensures old(Room(items)) + (|items'| - |items|) * BUFFER_SIZE == copied + Room(items')
      ensures items' != items ==> Room(items') < BUFFER_SIZE
      ensures old(Unshared(items)) ==> Unshared(items')
      ensures old(Unmarked(items)) ==> Unmarked(items')
      ensures Topped(old(Sizes(items)), items')
    {
      hide *;
      AppendedNone(items, src);
      PeakNow(items);
      ghost var so := Progress(items, free, Bytes(items), Sizes(items), Room(items), Unshared(items), Unmarked(items));
      copied, items' := 0, items;
      while copied < |src|
        invariant items' != [] && items'[0] == buf && buf.hadOverflow == old(buf.hadOverflow)
        invariant old(usedOutputBuffers) <= usedOutputBuffers
        invariant PeakKept(old(maxUsedOutputBuffers), maxUsedOutputBuffers, usedOutputBuffers)
        invariant Appended(so, src, copied, items') && Storage(items', free) <= old(Storage(items, free))
        invariant copied <= |src|
        decreases |src| - copied
      {
        var n;
        ghost var peak, used := maxUsedOutputBuffers, usedOutputBuffers;
        n, items' := AppendSome(buf, src, copied, items', so);
        PeakTrans(old(maxUsedOutputBuffers), peak, used, maxUsedOutputBuffers, usedOutputBuffers);
        if n == 0 { break; }
        copied := copied + n;
      }
      AppendedAll(so, src, copied, items');
    }

    lemma {:induction false} PeakNow(items: seq<OutputBuffer>)
      requires Live(items)
      ensures PeakKept(maxUsedOutputBuffers, maxUsedOutputBuffers, usedOutputBuffers)
    {
    }

    /** `items` has grown to `items'` by the first `copied` bytes of `src`. */
    ghost predicate Appended(so: Progress, src: seq<char>, copied: nat, items': seq<OutputBuffer>)
      reads this, free`next, items'`next, items'`last, items'`dataLength, items'`references, items'`isReferenced
      reads DataOf(items')
    {
      && Live(items') && copied <= |src|
      && Took(so.items, so.free, items', free)
      && Bytes(items') == so.bytes + src[..copied]
      && so.room + (|items'| - |so.items|) * BUFFER_SIZE == copied + Room(items')
      && (items' != so.items ==> Room(items') < BUFFER_SIZE)
      && (so.sole ==> Unshared(items')) && (so.unmarked ==> Unmarked(items')) && Topped(so.sizes, items')
    }

    lemma {:induction false} AppendedNone(items: seq<OutputBuffer>, src: seq<char>)
      requires Live(items)
      ensures items != [] && Distinct(items) && Filled(items)
      ensures var so := Progress(items, free, Bytes(items), Sizes(items), Room(items), Unshared(items),
                                 Unmarked(items));
        Appended(so, src, 0, items)
    {
      assert Bytes(items) + src[..0] == Bytes(items);
    }

    lemma {:induction false} AppendedAll(so: Progress, src: seq<char>, copied: nat, items': seq<OutputBuffer>)
      requires Appended(so, src, copied, items')
      ensures Live(items') && Distinct(items') && Filled(items') && copied <= |src| && items' != []
      ensures Bytes(items') == so.bytes + src[..copied] && Took(so.items, so.free, items', free)
      ensures so.room + (|items'| - |so.items|) * BUFFER_SIZE == copied + Room(items')
      ensures (items' != so.items ==> Room(items') < BUFFER_SIZE) && (so.sole ==> Unshared(items'))
      ensures (so.unmarked ==> Unmarked(items')) && Topped(so.sizes, items')
    {
    }

    method AppendSome(buf: OutputBuffer, src: seq<char>, copied: nat, ghost before: seq<OutputBuffer>,
                      ghost so: Progress)
      returns (n: nat, ghost items': seq<OutputBuffer>)
      requires Appended(so, src, copied, before) && copied < |src| && before != [] && buf == before[0]
      modifies this, Storage(before, free)
      ensures copied + n <= |src| && Appended(so, src, copied + n, items')
      ensures items' != [] && items'[0] == buf && Storage(items', free) <= old(Storage(before, free))
      ensures old(usedOutputBuffers) <= usedOutputBuffers
      ensures PeakKept(old(maxUsedOutputBuffers), maxUsedOutputBuffers, usedOutputBuffers)
      ensures buf.hadOverflow == (old(buf.hadOverflow) || n == 0)
      ensures n == 0 ==> free == [] && Room(items') == 0
    {
      hide Distinct, Linked, Points, Bytes, Apart, Filled, Claimed, Unshared, Unmarked, Took, Storage, Topped;
      ghost var sizes := Sizes(before);
      ToppedSizes(so.sizes, before);
      n, items' := CatSome(buf, src[copied..], before);
      TookFacts(before, old(free), items', free);
      TookTrans(so.items, so.free, before, old(free), items', free);
      ToppedTrans(so.sizes, sizes, items');
      SliceJoin(src, copied, n);
    }

    lemma {:induction false} ToppedSizes(sizes: seq<nat>, items: seq<OutputBuffer>)
      requires Topped(sizes, items)
      ensures var sizes1 := Sizes(items);
        && 0 < |sizes| <= |sizes1| && (forall i | 0 <= i < |sizes| - 1 :: sizes1[i] == sizes[i])
        && (forall i | |sizes| - 1 <= i < |sizes1| - 1 :: sizes1[i] == BUFFER_SIZE)
    {
      hide Sizes;
    }

    lemma {:induction false} ToppedTrans(sizes: seq<nat>, sizes1: seq<nat>, items': seq<OutputBuffer>)
      requires 0 < |sizes| <= |sizes1| && Topped(sizes1, items')
      requires forall i | 0 <= i < |sizes| - 1 :: sizes1[i] == sizes[i]
      requires forall i | |sizes| - 1 <= i < |sizes1| - 1 :: sizes1[i] == BUFFER_SIZE
      ensures Topped(sizes, items')
    {
    }

    /** Writing no more than `GetBytesLeft` promised always succeeds and leaves the reserved buffers alone. */
    method CatReserved(buf: OutputBuffer, src: seq<char>, ghost items: seq<OutputBuffer>)
      returns (ok: bool, ghost items': seq<OutputBuffer>)
      requires Live(items) && buf == items[0]
      modifies this, Storage(items, free)
      ensures Live(items') && Bytes(items') == if ok then old(Bytes(items)) + src else old(Bytes(items))
      ensures ok <==> |src| <= BytesLeft(old(Room(items)), |old(free)|, reservedBuffers)
      ensures ok ==> buf.hadOverflow == old(buf.hadOverflow) && |free| >= Min(|old(free)|, reservedBuffers)
    {
      hide *;
      items' := items;
      LiveTail(items);
      var left := GetBytesLeft(buf, items);
      ok := |src| <= left;
      LiveTail(items);
      BytesUnchanged(items);
      if ok {
        var copied;
        ghost var free0 := free;
        copied, items' := Cat(buf, src, items);
        TookSizes(items, free0, items', free);
        LiveTail(items');
        Reservation(old(Room(items)), |old(free)|, reservedBuffers, |src|, copied, |items'| - |items|, Room(items'));
        assert src[..|src|] == src;
      }
    }

    /** Copies bytes behind those already in the tail of a chain. */
    method Fill(tail: OutputBuffer, chunk: seq<char>, ghost items: seq<OutputBuffer>)
      requires Live(items) && tail == items[|items| - 1] && tail.dataLength + |chunk| <= BUFFER_SIZE
      modifies tail`dataLength, tail.data
      ensures Live(items) && Bytes(items) == old(Bytes(items)) + chunk
      ensures Room(items) == old(Room(items)) - |chunk|
      ensures forall i | 0 <= i < |items| - 1 :: items[i].dataLength == old(items[i].dataLength)
    {
      hide Linked, Points, Valid, Apart, Claimed, Filled, Distinct, Bytes;
      FrontApart(items);
      BytesOfTail(items);
      ghost var front, kept := Bytes(items[..|items| - 1]), tail.data[..tail.dataLength];
      StoreBytes(tail, chunk);
      StillFilled(items);
      BytesUnchanged(items[..|items| - 1]);
      BytesOfTail(items);
      Reassociate(front, kept, chunk);
    }

    method StoreBytes(tail: OutputBuffer, chunk: seq<char>)
      requires tail.data.Length == BUFFER_SIZE && tail.dataLength + |chunk| <= BUFFER_SIZE
      modifies tail`dataLength, tail.data
      ensures tail.dataLength == old(tail.dataLength) + |chunk|
      ensures tail.data[..tail.dataLength] == old(tail.data[..tail.dataLength]) + chunk
    {
      var n := tail.dataLength;
      forall i | 0 <= i < |chunk| { tail.data[n + i] := chunk[i]; }
      tail.dataLength := n + |chunk|;
    }

    /** How much can be written without touching the reserved buffers. */
    method GetBytesLeft(writingBuffer: OutputBuffer, ghost items: seq<OutputBuffer>) returns (n: nat)
      requires Live(items) && writingBuffer == items[0]
      ensures n == BytesLeft(Room(items), |free|, reservedBuffers)
    {
      var freeBuffers := bufferCount - usedOutputBuffers;
      var bytesLeft := BUFFER_SIZE - writingBuffer.last.dataLength;
      n := if freeBuffers < reservedBuffers then bytesLeft
           else bytesLeft + (freeBuffers - reservedBuffers) * BUFFER_SIZE;
    }

    method ReleaseAll(buf: OutputBuffer?, ghost items: seq<OutputBuffer>)
      requires Valid() && buf == At(items, 0) && (items != [] ==> Held(items) && Unshared(items))
      modifies this, items`next, items`references, items`bytesRead
      ensures Valid() && free == Reversed(items) + old(free) && maxUsedOutputBuffers == old(maxUsedOutputBuffers)
    {
      hide *;
      var item := buf;
      ghost var k := 0;
      ReleaseStarts(items, free);
      while item != null
        invariant k <= |items| && item == At(items, k) && Valid()
        invariant k < |items| ==> Held(items[k..]) && Unshared(items[k..])
        invariant free == Reversed(items[..k]) + old(free) && maxUsedOutputBuffers == old(maxUsedOutputBuffers)
        decreases |items| - k
      {
        ReleaseNext(items, k, old(free));
        item := Release(item, items[k..]);
        k := k + 1;
      }
      ReleaseEnds(items, k);
    }

    lemma {:induction false} ReleaseStarts(items: seq<OutputBuffer>, free: seq<OutputBuffer>)
      ensures items[0..] == items && Reversed(items[..0]) + free == free
    {
    }

    lemma {:induction false} ReleaseNext(items: seq<OutputBuffer>, k: nat, free: seq<OutputBuffer>)
      requires At(items, k) != null && (k < |items| ==> Held(items[k..]) && Unshared(items[k..]))
      ensures k < |items| && items[k..][0] == items[k] && items[k..][1..] == items[k + 1..] && items[k] in items[k..]
      ensures At(items, k) == items[k] && At(items, k + 1) == At(items[k..], 1) && items[k].references == 1
      ensures Reversed(items[..k + 1]) + free == [items[k]] + (Reversed(items[..k]) + free)
    {
      hide Reversed, Linked, Distinct, Filled, Valid, Apart;
      assert items[k..][0] == items[k];
      ReversedGrows(items, k);
    }

    lemma {:induction false} ReleaseEnds(items: seq<OutputBuffer>, k: nat)
      requires k <= |items| && At(items, k) == null
      ensures items[..k] == items
    {
    }

    /** Unlinks and releases the last item of a list. */
    method DropLast(buffer: OutputBuffer, ghost items: seq<OutputBuffer>) returns (previousItem: OutputBuffer)
      requires Held(items) && Unshared(items) && |items| > 1 && buffer == items[0]
      modifies this, items`next, items`references, items`bytesRead
      ensures Held(items[..|items| - 1]) && Unshared(items[..|items| - 1])
      ensures previousItem == items[|items| - 2] && (previousItem == buffer <==> |items| == 2)
      ensures free == [items[|items| - 1]] + old(free) && maxUsedOutputBuffers == old(maxUsedOutputBuffers)
    {
      ghost var k := 1;
      previousItem := buffer;
      var lastItem := previousItem.next;
      while lastItem.next != null
        invariant 1 <= k < |items| && previousItem == items[k - 1] && lastItem == items[k]
        decreases |items| - k
      {
        previousItem := lastItem;
        lastItem := lastItem.next;
        k := k + 1;
      }
      Unlink(previousItem, items);
      var _ := Release(lastItem, [lastItem]);
    }

    method Unlink(previousItem: OutputBuffer, ghost items: seq<OutputBuffer>)
      requires Held(items) && |items| > 1 && previousItem == items[|items| - 2]
      modifies previousItem`next
      ensures Held(items[..|items| - 1]) && Held([items[|items| - 1]])
    {
      assert items == items[..|items| - 1] + [items[|items| - 1]];
      previousItem.next := null;
    }

    /** Drops items from the end of a list until enough bytes are released or only the head is left. */
    method Trim(buffer: OutputBuffer, bytesNeeded: nat, ghost items: seq<OutputBuffer>)
      returns (released: nat, previousItem: OutputBuffer, ghost items': seq<OutputBuffer>,
               ghost dropped: seq<OutputBuffer>)
      requires Held(items) && Unshared(items) && |items| > 1 && buffer == items[0]
      modifies this, items`next, items`references, items`bytesRead
      ensures Trimmed(items, bytesNeeded, items', dropped, released) && previousItem == items'[|items'| - 1]
      ensures Held(items') && Unshared(items') && free == dropped + old(free)
      ensures maxUsedOutputBuffers == old(maxUsedOutputBuffers)
    {
      hide *;
      released, previousItem, items', dropped := 0, buffer, items, [];
      var more := true;
      TrimStart(items, bytesNeeded);
      while more
        invariant items' != [] && items'[0] == buffer
        invariant forall i | 0 <= i < |items'| :: i < |items| && items'[i] == items[i]
        invariant more ==> |items'| > 1 && TrimGoesOn(items, bytesNeeded, items', dropped, released)
        invariant !more ==>
          Trimmed(items, bytesNeeded, items', dropped, released) && previousItem == items'[|items'| - 1]
        invariant Held(items') && Unshared(items') && free == dropped + old(free)
        invariant maxUsedOutputBuffers == old(maxUsedOutputBuffers)
        decreases more, |items'|
      {
        ghost var init, x := items'[..|items'| - 1], items'[|items'| - 1];
        previousItem := DropLast(buffer, items');
        TrimStep(items, bytesNeeded, items', dropped, released);
        Regroup([x], dropped, old(free));
        released, items', dropped := released + BUFFER_SIZE, init, [x] + dropped;
        more := previousItem != buffer && released < bytesNeeded;
      }
    }

    /** `items` is cut into `items'` and `dropped`: enough is released, or all but the head, and no more than needed. */
    ghost predicate Trimmed(items: seq<OutputBuffer>, bytesNeeded: nat, items': seq<OutputBuffer>,
                            dropped: seq<OutputBuffer>, released: nat) {
      && items == items' + dropped && items' != [] && dropped != []
      && released == |dropped| * BUFFER_SIZE && released < Max(bytesNeeded, 1) + BUFFER_SIZE
      && (|items'| == 1 || released >= bytesNeeded)
    }

    ghost predicate TrimGoesOn(items: seq<OutputBuffer>, bytesNeeded: nat, items': seq<OutputBuffer>,
                               dropped: seq<OutputBuffer>, released: nat) {
      items == items' + dropped && released == |dropped| * BUFFER_SIZE && (released == 0 || released < bytesNeeded)
    }

    lemma {:induction false} TrimStart(items: seq<OutputBuffer>, bytesNeeded: nat)
      ensures TrimGoesOn(items, bytesNeeded, items, [], 0)
      ensures [] + free == free
    {
    }

    lemma {:induction false} TrimStep(items: seq<OutputBuffer>, bytesNeeded: nat, items': seq<OutputBuffer>,
                                      dropped: seq<OutputBuffer>, released: nat)
      requires TrimGoesOn(items, bytesNeeded, items', dropped, released) && |items'| > 1
      ensures var init, x := items'[..|items'| - 1], items'[|items'| - 1];
              if |init| > 1 && released + BUFFER_SIZE < bytesNeeded
              then TrimGoesOn(items, bytesNeeded, init, [x] + dropped, released + BUFFER_SIZE)
              else Trimmed(items, bytesNeeded, init, [x] + dropped, released + BUFFER_SIZE)
    {
      assert items' == items'[..|items'| - 1] + [items'[|items'| - 1]];
    }

    lemma {:induction false} Regroup(a: seq<OutputBuffer>, b: seq<OutputBuffer>, c: seq<OutputBuffer>)
      ensures a + b + c == a + (b + c)
    {
    }

    /** Frees buffers from the end of a chain that is nobody else's: what remains is a whole-buffer prefix, and the
        result is 256 times the number of buffers freed. */
    method Truncate(buffer: OutputBuffer?, bytesNeeded: nat, ghost items: seq<OutputBuffer>)
      returns (released: nat, ghost items': seq<OutputBuffer>, ghost dropped: seq<OutputBuffer>)
      requires Valid() && buffer == At(items, 0)
      requires buffer != null ==> Live(items) && (!buffer.isReferenced ==> Unshared(items))
      modifies this, items`next, items`last, items`references, items`bytesRead
      ensures Valid() && maxUsedOutputBuffers == old(maxUsedOutputBuffers)
      ensures items == items' + dropped && free == dropped + old(free) && released == |dropped| * BUFFER_SIZE
      ensures buffer != null ==>
        Live(items') && Bytes(items') <= old(Bytes(items)) && (old(Unshared(items)) ==> Unshared(items'))
      ensures released == 0 <==> |items| <= 1 || old(buffer.isReferenced)
      ensures released > 0 ==>
        (|items'| == 1 || released >= bytesNeeded) && released < Max(bytesNeeded, 1) + BUFFER_SIZE
    {
      hide Linked, Apart, Claimed, Valid, Unshared, Distinct, Filled, Points, Bytes, Chain, Held;
      released, items', dropped := 0, items, [];
      if buffer == null { return; }
      LiveBytes(items);
      SecondItem(items);
      if buffer.next == null || buffer.isReferenced { return; }
      released, items', dropped := TruncateSome(buffer, bytesNeeded, items);
    }

    lemma {:induction false} SecondItem(items: seq<OutputBuffer>)
      requires Chain(items)
      ensures items != [] && (items[0].next == null <==> |items| == 1)
    {
    }

    method TruncateSome(buffer: OutputBuffer, bytesNeeded: nat, ghost items: seq<OutputBuffer>)
      returns (released: nat, ghost items': seq<OutputBuffer>, ghost dropped: seq<OutputBuffer>)
      requires Live(items) && Unshared(items) && |items| > 1 && buffer == items[0]
      modifies this, items`next, items`last, items`references, items`bytesRead
      ensures Valid() && Live(items') && Unshared(items') && maxUsedOutputBuffers == old(maxUsedOutputBuffers)
      ensures items == items' + dropped && free == dropped + old(free) && released == |dropped| * BUFFER_SIZE
      ensures Bytes(items') <= old(Bytes(items)) && released > 0
      ensures |items'| == 1 || released >= bytesNeeded
      ensures released < Max(bytesNeeded, 1) + BUFFER_SIZE
    {
      hide Linked, Apart, Claimed, Valid, Unshared, Distinct, Filled, Points, Bytes, Held, Chain;
      LiveBytes(items);
      forall n | 0 <= n <= |items|
        ensures Distinct(items[..n]) && Filled(items[..n]) && Bytes(items[..n]) <= Bytes(items)
      {
        BytesPrefix(items, n);
      }
      var previousItem;
      released, previousItem, items', dropped := Trim(buffer, bytesNeeded, items);
      assert items[..|items'|] == items' && forall i | 0 <= i < |items'| :: items'[i] == items[i];
      SetTail(buffer, previousItem, items');
      BytesUnchanged(items');
      StillValid(items');
    }

    lemma {:induction false} StillValid(items: seq<OutputBuffer>)
      requires Live(items)
      ensures Valid()
    {
    }

    method SetTail(buffer: OutputBuffer, tail: OutputBuffer, ghost items: seq<OutputBuffer>)
      requires Held(items) && buffer == items[0] && tail == items[|items| - 1]
      modifies items`last
      ensures Live(items)
    {
      SetLast(buffer, null, tail, items, 0, |items|);
      assert items[0..|items|] == items;
    }

    /** Lets go of all items but the head of a chain, and empties that. */
    method Reset(buf: OutputBuffer, ghost items: seq<OutputBuffer>)
      requires Live(items) && buf == items[0] && Unshared(items)
      modifies this, items
      ensures Live([buf]) && Unshared([buf]) && Bytes([buf]) == [] && free == Reversed(items[1..]) + old(free)
      ensures maxUsedOutputBuffers == old(maxUsedOutputBuffers) && buf.hadOverflow == old(buf.hadOverflow)
      ensures buf.isReferenced == old(buf.isReferenced) && buf.dataLength == 0
    {
      hide Apart, Linked, Points;
      ResetParts(items);
      ghost var rest, free0 := items[1..], free;
      if buf.next != null {
        ReleaseAll(buf.next, rest);
        ResetFree(buf, rest, free0);
        buf.next, buf.last := null, buf;
      }
      buf.dataLength := 0;
      ResetDone(buf, rest, free0);
    }

    lemma {:induction false} ResetParts(items: seq<OutputBuffer>)
      requires Live(items) && Unshared(items)
      ensures items[0].next == At(items[1..], 0) && (|items| > 1 ==> Held(items[1..]) && Unshared(items[1..]))
      ensures forall i | 0 <= i < |items| - 1 :: items[1..][i] == items[i + 1] && items[1..][i] != items[0]
      ensures Apart([items[0]], items[1..]) && Apart([items[0]], free)
      ensures items[0].last == items[|items| - 1] && |items| <= usedOutputBuffers
    {
      RestIsList(items);
      assert items[0] in items && forall b | b in items[1..] :: b in items;
    }

    lemma {:induction false} ResetFree(buf: OutputBuffer, rest: seq<OutputBuffer>, free0: seq<OutputBuffer>)
      requires Apart([buf], rest) && Apart([buf], free0) && free == Reversed(rest) + free0
      ensures Apart([buf], free) && |free| == |rest| + |free0|
      ensures forall i | 0 <= i < |free| :: free[i] != buf
    {
      hide Reversed, Apart;
      ReversedLength(rest);
      ReversedApart([buf], rest);
      ApartJoin([buf], Reversed(rest), free0);
      Disjoint([buf], free);
      assert [buf][0] == buf;
    }

    lemma {:induction false} ResetDone(buf: OutputBuffer, rest: seq<OutputBuffer>, free0: seq<OutputBuffer>)
      requires Valid() && Apart([buf], rest) && Apart([buf], free0) && free == Reversed(rest) + free0
      requires buf.data.Length == BUFFER_SIZE && buf.next == null && buf.last == buf && buf.dataLength == 0
      requires buf.references == 1
      requires 0 < usedOutputBuffers
      ensures Live([buf]) && Unshared([buf]) && Bytes([buf]) == []
    {
      ResetFree(buf, rest, free0);
      assert Bytes([buf]) == Bytes([buf][..0]) + buf.data[..0];
    }

    /** Replaces the contents of a chain. */
    method Copy(buf: OutputBuffer, src: seq<char>, ghost items: seq<OutputBuffer>)
      returns (copied: nat, ghost items': seq<OutputBuffer>)
      requires Live(items) && buf == items[0] && Unshared(items)
      modifies this, Storage(items, free)
      ensures Live(items') && Unshared(items') && copied <= |src| && Bytes(items') == src[..copied]
      ensures PeakKept(old(maxUsedOutputBuffers), maxUsedOutputBuffers, usedOutputBuffers)
      ensures Took([buf], Reversed(items[1..]) + old(free), items', free)
      ensures BUFFER_SIZE + (|items'| - 1) * BUFFER_SIZE == copied + Room(items')
      ensures |items'| > 1 ==> Room(items') < BUFFER_SIZE
      ensures (!old(buf.isReferenced) ==> Unmarked(items')) && Topped([0], items')
      ensures copied == |src| ==> buf.hadOverflow == old(buf.hadOverflow)
      ensures copied < |src| ==> free == [] && Room(items') == 0 && buf.hadOverflow
    {
      hide Held, Chain, Valid, Bytes, Storage, Took, Unshared, Reversed;
      InStorage(items, free);
      Reset(buf, items);
      ResetStorage(items, old(free));
      assert Sizes([buf]) == [0];
      copied, items' := Cat(buf, src, [buf]);
      assert [] + src[..copied] == src[..copied];
    }
  }

  // ---------------------------------------------------------------- sharing a chain

  /** Adds claims to every item of a list. */
  method IncreaseReferences(buf: OutputBuffer, refs: nat, ghost items: seq<OutputBuffer>)
    requires List(items) && buf == items[0]
    modifies items`references, items`isReferenced
    ensures List(items)
    ensures forall b | b in items :: b.references == old(b.references) + refs && (refs > 0 ==> b.isReferenced)
  {
    if refs > 0 {
      var item: OutputBuffer? := buf;
      ghost var k := 0;
      while item != null
        invariant k <= |items| && item == At(items, k)
        invariant forall i | 0 <= i < |items| ::
            if i < k then items[i].references == old(items[i].references) + refs && items[i].isReferenced
            else items[i].references == old(items[i].references)
        decreases |items| - k
      {
        item.references := item.references + refs;
        item.isReferenced := true;
        item := item.next;
        k := k + 1;
      }
    }
  }

  /** How many of the holders have not yet released item i, if holder h has released its first `past[h]` items. */
  function Pending(past: seq<nat>, i: nat): nat {
    if past == [] then 0 else Pending(past[1..], i) + if past[0] <= i then 1 else 0
  }

  lemma {:induction false} PendingStep(past: seq<nat>, h: nat, i: nat)
    requires h < |past|
    ensures Pending(past[h := past[h] + 1], i) == Pending(past, i) - if past[h] == i then 1 else 0
  {
    if h == 0 {
      assert past[0 := past[0] + 1][1..] == past[1..];
    } else {
      assert past[h := past[h] + 1][1..] == past[1..][h - 1 := past[h] + 1];
      PendingStep(past[1..], h - 1, i);
    }
  }

  lemma {:induction false} PendingCounts(past: seq<nat>, h: nat, i: nat)
    requires h < |past| && past[h] <= i
    ensures Pending(past, i) >= 1
    ensures Pending(past, i) == 1 ==> forall g | 0 <= g < |past| && past[g] <= i :: g == h
  {
    PendingOne(past, h, i);
    forall g | 0 <= g < |past| && past[g] <= i && g != h ensures Pending(past, i) >= 2 {
      PendingTwo(past, g, h, i);
    }
  }

  lemma {:induction false} PendingTwo(past: seq<nat>, g: nat, h: nat, i: nat)
    requires g < |past| && h < |past| && g != h && past[g] <= i && past[h] <= i
    ensures Pending(past, i) >= 2
  {
    if g > 0 && h > 0 { PendingTwo(past[1..], g - 1, h - 1, i); }
    else { PendingOne(past[1..], if g == 0 then h - 1 else g - 1, i); }
  }

  lemma {:induction false} PendingOne(past: seq<nat>, h: nat, i: nat)
    requires h < |past| && past[h] <= i
    ensures Pending(past, i) >= 1
  {
    if h > 0 { PendingOne(past[1..], h - 1, i); }
  }

  /** A chain shared by several holders, the first m items of which are back in the pool: an item's count is the number
      of holders that still have to release it, and every holder's next item is still in use. */
  ghost predicate SharedOut(pool: Pool, items: seq<OutputBuffer>, past: seq<nat>, m: nat, free: seq<OutputBuffer>)
    reads pool, pool.free`next, items`next, items`dataLength, items`references
  {
    && m <= |items| && pool.Valid() && pool.free == Reversed(items[..m]) + free
    && (forall h | 0 <= h < |past| :: m <= past[h] <= |items|)
    && (m < |items| ==> pool.Held(items[m..]) && Pending(past, m) >= 1)
    && (forall i | m <= i < |items| :: items[i].references == Pending(past, i))
  }

  /** One holder releases its next item. */
  method HolderRelease(pool: Pool, buf: OutputBuffer, ghost h: nat, ghost items: seq<OutputBuffer>,
                       ghost past: seq<nat>, ghost m: nat, ghost free: seq<OutputBuffer>)
    returns (next: OutputBuffer?, ghost m': nat)
    requires SharedOut(pool, items, past, m, free) && h < |past| && past[h] < |items| && buf == items[past[h]]
    modifies pool, buf`next, buf`references, buf`bytesRead
    ensures next == At(items, past[h] + 1)
    ensures SharedOut(pool, items, past[h := past[h] + 1], m', free) && m <= m' <= m + 1
    ensures m' == m + 1 <==> old(buf.references) == 1
    ensures pool.maxUsedOutputBuffers == old(pool.maxUsedOutputBuffers)
  {
    hide *;
    SharedNow(pool, items, past, m, free, h);
    OneHolderMoves(past, h, m);
    m' := if buf.references == 1 then m + 1 else m;
    next := pool.Release(buf, items[m..]);
    assert forall i | m <= i < |items| && i != past[h] :: items[i].references == old(items[i].references);
    if m' == m {
      SharedKept(pool, items, past, h, m, free);
    } else {
      SharedFreed(pool, items, past, m, free, h);
    }
  }

  lemma {:induction false} SharedNow(pool: Pool, items: seq<OutputBuffer>, past: seq<nat>, m: nat,
                                     free: seq<OutputBuffer>, h: nat)
    requires SharedOut(pool, items, past, m, free) && h < |past| && past[h] < |items|
    ensures m <= past[h] && pool.Held(items[m..]) && items[past[h]] in items[m..] && Pending(past, m) >= 1
    ensures forall g | 0 <= g < |past| :: m <= past[g] <= |items|
    ensures pool.free == Reversed(items[..m]) + free && items[m..][0] == items[m]
    ensures forall i | m <= i < |items| :: items[i].references == Pending(past, i)
    ensures items[past[h]].next == At(items, past[h] + 1)
    ensures forall i | m <= i < |items| && i != past[h] :: items[i] != items[past[h]]
  {
    hide Pending, Reversed, Apart, Filled;
    var rest, i := items[m..], past[h];
    assert forall j | m <= j < |items| :: rest[j - m] == items[j];
    assert At(rest, i - m + 1) == At(items, i + 1);
  }

  lemma {:induction false} SharedKept(pool: Pool, items: seq<OutputBuffer>, past: seq<nat>, h: nat, m: nat,
                                      free: seq<OutputBuffer>)
    requires m < |items| && pool.Valid() && pool.Held(items[m..]) && pool.free == Reversed(items[..m]) + free
    requires h < |past| && past[h] < |items| && Pending(past[h := past[h] + 1], m) >= 1
    requires forall g | 0 <= g < |past| :: m <= past[g] <= |items|
    requires forall i | m <= i < |items| :: items[i].references == Pending(past[h := past[h] + 1], i)
    ensures SharedOut(pool, items, past[h := past[h] + 1], m, free)
  {
    hide Pending, Reversed, Pool.Held, Pool.Valid;
  }

  lemma {:induction false} SharedFreed(pool: Pool, items: seq<OutputBuffer>, past: seq<nat>, m: nat,
                                       free: seq<OutputBuffer>, h: nat)
    requires h < |past| && past[h] == m < |items| && pool.Valid()
    requires m + 1 < |items| ==> pool.Held(items[m..][1..]) && Pending(past[h := m + 1], m + 1) >= 1
    requires pool.free == [items[m]] + (Reversed(items[..m]) + free)
    requires var past' := past[h := m + 1]; forall g | 0 <= g < |past'| :: m + 1 <= past'[g] <= |items|
    requires forall i | m < i < |items| :: items[i].references == Pending(past[h := m + 1], i)
    ensures SharedOut(pool, items, past[h := m + 1], m + 1, free)
  {
    hide Pending, Reversed, Pool.Held, Pool.Valid;
    ReversedGrows(items, m);
    assert items[m..][1..] == items[m + 1..];
  }

  /** A holder's turn: nothing happens if it has reached the end of the chain. */
  method HolderTurn(pool: Pool, h: nat, before: seq<OutputBuffer?>, ghost items: seq<OutputBuffer>,
                    ghost past: seq<nat>, ghost m: nat, ghost free: seq<OutputBuffer>)
    returns (cursors: seq<OutputBuffer?>, ghost past': seq<nat>, ghost m': nat)
    requires SharedOut(pool, items, past, m, free) && h < |past| == |before| && before[h] == At(items, past[h])
    modifies pool, items`next, items`references, items`bytesRead
    ensures past' == past[h := if past[h] < |items| then past[h] + 1 else past[h]]
    ensures cursors == before[h := At(items, past'[h])] && SharedOut(pool, items, past', m', free)
  {
    hide SharedOut;
    cursors, past', m' := before, past, m;
    if before[h] != null {
      var next;
      assert before[h] == items[past[h]];
      next, m' := HolderRelease(pool, before[h], h, items, past, m, free);
      cursors, past' := before[h := next], past[h := past[h] + 1];
    }
  }

  /** Lets the holders of a shared chain release it in the order of the schedule. */
  method RunHolders(pool: Pool, start: seq<OutputBuffer?>, schedule: seq<nat>, ghost items: seq<OutputBuffer>,
                    ghost free: seq<OutputBuffer>)
    returns (cursors: seq<OutputBuffer?>, ghost past: seq<nat>, ghost m: nat)
    requires items != [] && SharedOut(pool, items, seq(|start|, _ => 0), 0, free)
    requires forall h | h in schedule :: h < |start|
    requires forall h | 0 <= h < |start| :: start[h] == items[0]
    modifies pool, items`next, items`references, items`bytesRead
    ensures |cursors| == |past| == |start| && SharedOut(pool, items, past, m, free)
    ensures forall h | 0 <= h < |start| ::
      past[h] == Min(|items|, Turns(schedule, h)) && cursors[h] == At(items, past[h])
  {
    hide *;
    cursors, past, m := start, seq(|start|, _ => 0), 0;
    var k := 0;
    AlongStart(items, schedule, past, cursors);
    while k < |schedule|
      invariant k <= |schedule| && |cursors| == |past| == |start|
      invariant SharedOut(pool, items, past, m, free) && Along(items, schedule[..k], past, cursors)
    {
      assert schedule[k] in schedule;
      AlongStep(items, schedule, k, past, cursors);
      cursors, past, m := HolderTurn(pool, schedule[k], cursors, items, past, m, free);
      k := k + 1;
    }
    assert schedule[..k] == schedule;
    AlongIs(items, schedule, past, cursors);
  }

  /** Each holder has had its turns, and got that far. */
  ghost predicate Along(items: seq<OutputBuffer>, schedule: seq<nat>, past: seq<nat>, cursors: seq<OutputBuffer?>) {
    |past| == |cursors| &&
    forall h | 0 <= h < |past| :: past[h] == Min(|items|, Turns(schedule, h)) && cursors[h] == At(items, past[h])
  }

  lemma {:induction false} AlongStart(items: seq<OutputBuffer>, schedule: seq<nat>, past: seq<nat>,
                                      cursors: seq<OutputBuffer?>)
    requires items != [] && |past| == |cursors|
    requires forall h | 0 <= h < |past| :: past[h] == 0 && cursors[h] == items[0]
    ensures Along(items, schedule[..0], past, cursors)
  {
  }

  lemma {:induction false} AlongStep(items: seq<OutputBuffer>, schedule: seq<nat>, k: nat, past: seq<nat>,
                                     cursors: seq<OutputBuffer?>)
    requires k < |schedule| && schedule[k] < |past| && Along(items, schedule[..k], past, cursors)
    ensures cursors[schedule[k]] == At(items, past[schedule[k]])
    ensures var h := schedule[k]; var past' := past[h := if past[h] < |items| then past[h] + 1 else past[h]];
      Along(items, schedule[..k + 1], past', cursors[h := At(items, past'[h])])
  {
    hide Turns, At;
    TurnsGrow(schedule, k);
  }

  lemma {:induction false} AlongIs(items: seq<OutputBuffer>, schedule: seq<nat>, past: seq<nat>,
                                   cursors: seq<OutputBuffer?>)
    requires Along(items, schedule, past, cursors)
    ensures |past| == |cursors|
    ensures forall h | 0 <= h < |past| ::
      past[h] == Min(|items|, Turns(schedule, h)) && cursors[h] == At(items, past[h])
  {
  }

  /** Shares a chain among n holders and lets them release it in any interleaving. Whatever the schedule, the buffers go
      back to the pool in chain order, each once and only when the last holder is done with it; when all are done, the
      whole chain is back. */
  method ReleaseByHolders(pool: Pool, buf: OutputBuffer, n: nat, schedule: seq<nat>, ghost items: seq<OutputBuffer>)
    returns (cursors: seq<OutputBuffer?>, ghost past: seq<nat>, ghost m: nat)
    requires pool.Held(items) && Unshared(items) && buf == items[0] && 0 < n
    requires forall h | h in schedule :: h < n
    modifies pool, items`next, items`references, items`bytesRead, items`isReferenced
    ensures |cursors| == |past| == n && SharedOut(pool, items, past, m, old(pool.free))
    ensures forall h | 0 <= h < n :: past[h] == Min(|items|, Turns(schedule, h)) && cursors[h] == At(items, past[h])
    ensures (forall h | 0 <= h < n :: cursors[h] == null) ==>
              pool.free == Reversed(items) + old(pool.free) && |pool.free| == |items| + |old(pool.free)|
  {
    IncreaseReferences(buf, n - 1, items);
    StartSharing(pool, items, seq(n, _ => 0));
    hide SharedOut, Turns, Reversed;
    cursors, past, m := RunHolders(pool, seq(n, _ => buf), schedule, items, pool.free);
    AllReleased(pool, items, past, cursors, m, old(pool.free));
  }

  lemma {:induction false} StartSharing(pool: Pool, items: seq<OutputBuffer>, past: seq<nat>)
    requires pool.Held(items) && past != [] && forall h | 0 <= h < |past| :: past[h] == 0
    requires forall b | b in items :: b.references == |past|
    ensures SharedOut(pool, items, past, 0, pool.free)
  {
    assert items[0..] == items && items[..0] == [];
    forall i | 0 <= i < |items| ensures Pending(past, i) == |past| { PendingAll(past, i); }
  }

  lemma {:induction false} PendingAll(past: seq<nat>, i: nat)
    requires forall h | 0 <= h < |past| :: past[h] == 0
    ensures Pending(past, i) == |past|
  {
    if past != [] { PendingAll(past[1..], i); }
  }

  /** How often holder h is scheduled. */
  function Turns(schedule: seq<nat>, h: nat): nat {
    if schedule == [] then 0
    else Turns(schedule[..|schedule| - 1], h) + if schedule[|schedule| - 1] == h then 1 else 0
  }

  lemma {:induction false} TurnsGrow(schedule: seq<nat>, k: nat)
    requires k < |schedule|
    ensures forall h: nat :: Turns(schedule[..k + 1], h) == Turns(schedule[..k], h) + if schedule[k] == h then 1 else 0
  {
    assert schedule[..k + 1][..k] == schedule[..k];
  }

  lemma {:induction false} AllReleased(pool: Pool, items: seq<OutputBuffer>, past: seq<nat>,
                                       cursors: seq<OutputBuffer?>, m: nat, free: seq<OutputBuffer>)
    requires SharedOut(pool, items, past, m, free) && |cursors| == |past|
    requires forall h | 0 <= h < |past| :: cursors[h] == At(items, past[h])
    ensures (forall h | 0 <= h < |past| :: cursors[h] == null) ==>
              pool.free == Reversed(items) + free && |pool.free| == |items| + |free|
  {
    if forall h | 0 <= h < |past| :: cursors[h] == null {
      if m < |items| {
        var _ := PendingSome(past, m);
        assert false;
      }
      assert items[..m] == items;
      ReversedLength(items);
    }
  }

  lemma {:induction false} ReversedApart(items: seq<OutputBuffer>, others: seq<OutputBuffer>)
    requires Apart(items, others)
    ensures Apart(items, Reversed(others))
  {
    if others != [] {
      assert others[|others| - 1] in others;
      ReversedApart(items, others[..|others| - 1]);
    }
  }

  lemma {:induction false} ReversedHas(items: seq<OutputBuffer>, b: OutputBuffer)
    ensures b in Reversed(items) <==> b in items
  {
    if items != [] {
      ReversedHas(items[..|items| - 1], b);
      assert items == items[..|items| - 1] + [items[|items| - 1]];
    }
  }

  lemma {:induction false} ResetStorage(items: seq<OutputBuffer>, free: seq<OutputBuffer>)
    requires items != []
    ensures Storage([items[0]], Reversed(items[1..]) + free) <= Storage(items, free)
  {
    forall b | b in [items[0]] + (Reversed(items[1..]) + free) ensures b in items + free {
      ReversedHas(items[1..], b);
    }
  }

  lemma {:induction false} ReversedLength(items: seq<OutputBuffer>)
    ensures |Reversed(items)| == |items|
  {
    if items != [] { ReversedLength(items[..|items| - 1]); }
  }

  lemma {:induction false} ReversedGrows(items: seq<OutputBuffer>, m: nat)
    requires m < |items|
    ensures Reversed(items[..m + 1]) == [items[m]] + Reversed(items[..m])
  {
    assert items[..m + 1][..m] == items[..m];
  }

  /** What one holder's step does to the counts: only its own item loses a claim, and it can be the last claim only if
      the holder is the slowest. */
  lemma {:induction false} OneHolderMoves(past: seq<nat>, h: nat, m: nat)
    requires h < |past| && Pending(past, m) >= 1 && forall g | 0 <= g < |past| :: m <= past[g]
    ensures var i, past' := past[h], past[h := past[h] + 1];
            && (forall j: nat :: Pending(past', j) == Pending(past, j) - if i == j then 1 else 0)
            && (if Pending(past, i) == 1 then i == m && Pending(past', m + 1) >= 1
                                              && (forall g | 0 <= g < |past| :: m + 1 <= past'[g])
                else Pending(past, i) > 1 && Pending(past', m) >= 1)
  {
    var i, past' := past[h], past[h := past[h] + 1];
    forall j: nat ensures Pending(past', j) == Pending(past, j) - if i == j then 1 else 0 { PendingStep(past, h, j); }
    PendingCounts(past, h, i);
    var g := PendingSome(past, m);
    if Pending(past, i) == 1 {
      PendingOne(past', h, m + 1);
    }
  }

  lemma {:induction false} PendingSome(past: seq<nat>, i: nat) returns (g: nat)
    requires Pending(past, i) >= 1
    ensures g < |past| && past[g] <= i
  {
    if past[0] <= i { g := 0; } else { g := PendingSome(past[1..], i); g := g + 1; }
  }

  lemma {:induction false} RestIsList(items: seq<OutputBuffer>)
    requires List(items)
    ensures items[0].next == At(items, 1) && items[0] !in items[1..]
    ensures |items| > 1 ==> List(items[1..])
  {
    assert forall i | 0 <= i < |items| - 1 :: items[1..][i] == items[i + 1];
  }

  lemma {:induction false} ApartJoin(items: seq<OutputBuffer>, others: seq<OutputBuffer>, more: seq<OutputBuffer>)
    requires Apart(items, others) && Apart(items, more)
    ensures Apart(items, others + more)
  {
  }

  lemma {:induction false} DistinctJoin(items: seq<OutputBuffer>, others: seq<OutputBuffer>)
    requires Distinct(items) && Distinct(others) && Apart(items, others)
    ensures Distinct(items + others)
    ensures forall b | b in items :: b !in others
    ensures forall i | 0 <= i < |items| - 1 :: items[i] != items[|items| - 1]
  {
  }

  /** Links another chain behind this one. */
  method Append(buf: OutputBuffer, other: OutputBuffer?, ghost items: seq<OutputBuffer>,
                ghost others: seq<OutputBuffer>)
    requires Chain(items) && buf == items[0]
    requires other != null ==> Chain(others) && other == others[0] && Apart(items, others)
    modifies items`next, items`last, buf`hadOverflow
    ensures other == null ==> Chain(items) && buf.hadOverflow == old(buf.hadOverflow)
    ensures other != null ==> Chain(items + others) && buf.hadOverflow == (old(buf.hadOverflow) || other.hadOverflow)
    ensures other != null ==> Bytes(items + others) == old(Bytes(items)) + old(Bytes(others))
  {
    hide *;
    if other != null {
      ChainFilled(items);
      ChainFilled(others);
      LinkChain(buf, other, items, others);
      ChainFilled(items + others);
      BytesUnchanged(items);
      BytesUnchanged(others);
      BytesJoin(items, others);
    }
  }

  method LinkChain(buf: OutputBuffer, other: OutputBuffer, ghost items: seq<OutputBuffer>,
                   ghost others: seq<OutputBuffer>)
    requires Chain(items) && buf == items[0] && Chain(others) && other == others[0] && Apart(items, others)
    modifies items`next, items`last, buf`hadOverflow
    ensures Chain(items + others) && buf.hadOverflow == (old(buf.hadOverflow) || other.hadOverflow)
  {
    hide *;
    ghost var joined := items + others;
    AppendParts(items, others);
    LinkTail(buf.last, other, items, others);
    NextIsNext(joined);
    buf.last := other.last;
    if other.hadOverflow { buf.hadOverflow := true; }
    SetLast(buf.next, other, other.last, joined, 1, |items|);
    AppendDone(items, others);
  }

  lemma {:induction false} ChainFilled(items: seq<OutputBuffer>)
    requires Chain(items)
    ensures Distinct(items) && Filled(items)
  {
  }

  lemma {:induction false} BytesJoin(a: seq<OutputBuffer>, b: seq<OutputBuffer>)
    requires Distinct(a) && Filled(a) && Distinct(b) && Filled(b) && Distinct(a + b) && Filled(a + b)
    ensures Bytes(a + b) == Bytes(a) + Bytes(b)
    decreases |b|
  {
    hide Distinct, Filled;
    if b == [] {
      assert a + b == a;
    } else {
      var init := b[..|b| - 1];
      assert (a + b)[..|a + b| - 1] == a + init;
      FrontFilled(b);
      FrontFilled(a + b);
      BytesJoin(a, init);
    }
  }

  lemma {:induction false} FrontFilled(items: seq<OutputBuffer>)
    requires items != [] && Distinct(items) && Filled(items)
    ensures Distinct(items[..|items| - 1]) && Filled(items[..|items| - 1])
  {
  }

  lemma {:induction false} AppendParts(items: seq<OutputBuffer>, others: seq<OutputBuffer>)
    requires Chain(items) && Chain(others) && Apart(items, others)
    ensures items != [] && others != [] && Linked(items) && Linked(others) && Distinct(items + others)
    ensures items[0].last == items[|items| - 1] && others[0].last == others[|others| - 1]
    ensures Filled(items) && Filled(others) && Claimed(items) && Claimed(others) && Points(others, others[|others| - 1])
    ensures forall i | 0 <= i < |items| :: (items + others)[i] != others[0]
    ensures others[0] == At(items + others, |items|)
    ensures forall i, j | 0 <= i < |items| && 0 <= j < |others| :: items[i] != others[j]
  {
    DistinctJoin(items, others);
  }

  lemma {:induction false} NextIsNext(items: seq<OutputBuffer>)
    requires Linked(items) && items != []
    ensures items[0].next == At(items, 1)
  {
  }

  lemma {:induction false} AppendDone(items: seq<OutputBuffer>, others: seq<OutputBuffer>)
    requires items != [] && others != [] && Linked(items + others) && Distinct(items + others)
    requires Filled(items) && Filled(others) && Claimed(items) && Claimed(others)
    requires Points(others, others[|others| - 1])
    requires items[0].last == others[|others| - 1]
    requires forall b | b in (items + others)[1..|items|] :: b.last == others[|others| - 1]
    ensures Chain(items + others)
  {
    assert items == [items[0]] + (items + others)[1..|items|];
    assert Points(items, others[|others| - 1]);
    JoinParts(items, others, others[|others| - 1]);
  }

  lemma {:induction false} JoinParts(items: seq<OutputBuffer>, others: seq<OutputBuffer>, tail: OutputBuffer)
    requires Points(items, tail) && Points(others, tail) && Filled(items) && Filled(others) && Claimed(items)
    requires Claimed(others)
    ensures Points(items + others, tail) && Filled(items + others) && Claimed(items + others)
  {
  }

  method LinkTail(tail: OutputBuffer, other: OutputBuffer, ghost items: seq<OutputBuffer>,
                  ghost others: seq<OutputBuffer>)
    requires items != [] && others != [] && tail == items[|items| - 1] && other == others[0]
    requires Linked(items) && Linked(others) && Distinct(items + others)
    modifies tail`next
    ensures Linked(items + others)
  {
    ghost var joined, m := items + others, |items|;
    assert joined[m - 1] == tail && forall i | 0 <= i < |joined| && i != m - 1 :: joined[i] != tail;
    assert forall i | 0 <= i < |joined| :: joined[i] == if i < m then items[i] else others[i - m];
    tail.next := other;
  }

  /** Points items lo..hi of a list at its new tail. */
  method SetLast(from: OutputBuffer?, stop: OutputBuffer?, tail: OutputBuffer, ghost items: seq<OutputBuffer>,
                 ghost lo: nat, ghost hi: nat)
    requires Linked(items) && lo <= hi <= |items|
    requires from == At(items, lo) && stop == At(items, hi) && forall i | lo <= i < hi :: items[i] != stop
    modifies (set b | b in items[lo..hi])`last
    ensures Linked(items)
    ensures forall b | b in items[lo..hi] :: b.last == tail
  {
    var item := from;
    ghost var k := lo;
    while item != stop
      invariant lo <= k <= hi && item == At(items, k)
      invariant forall i | lo <= i < k :: items[i].last == tail
      decreases hi - k
    {
      assert items[k] == items[lo..hi][k - lo];
      item.last := tail;
      item := item.next;
      k := k + 1;
    }
  }

  /** Bytes that fit in `room` and the free buffers beyond the reserved ones. */
  function BytesLeft(room: int, freeBuffers: nat, reserved: nat): int {
    if freeBuffers < reserved then room else room + (freeBuffers - reserved) * BUFFER_SIZE
  }

  /** Writing up to that much always succeeds and leaves the reserve alone. */
  lemma {:induction false} Reservation(room: int, freeBuffers: nat, reserved: nat, len: nat, copied: nat, taken: nat,
                                       room': int)
    requires copied <= len && taken <= freeBuffers && 0 <= room' && room + taken * BUFFER_SIZE == copied + room'
    requires taken > 0 ==> room' < BUFFER_SIZE
    requires copied < len ==> taken == freeBuffers && room' == 0
    ensures len <= BytesLeft(room, freeBuffers, reserved) ==>
      copied == len && freeBuffers - taken >= Min(freeBuffers, reserved)
  {
  }

  function Reversed(items: seq<OutputBuffer>): seq<OutputBuffer> {
    if items == [] then [] else [items[|items| - 1]] + Reversed(items[..|items| - 1])
  }
}
