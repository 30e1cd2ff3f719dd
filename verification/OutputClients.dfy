/** All users of the buffer pool together: whatever sequence of operations they perform, every buffer is either free or
    in exactly one place of exactly one chain. */
module OutputClients {
  import opened Basics
  import opened OutputMemory

  // ---------------------------------------------------------------- the pool as a value

  /** A chain as its user sees it: its text, and how much of it is in each of its buffers. */
  datatype Block = Block(text: string, sizes: seq<nat>)

  /** The chains in use, the number of free buffers, and the highest number of buffers that were in use at a time. */
  datatype State = State(chains: seq<Block>, free: nat, peak: nat)

  function Sum(sizes: seq<nat>): nat { if sizes == [] then 0 else Sum(sizes[..|sizes| - 1]) + sizes[|sizes| - 1] }

  predicate Tidy(sizes: seq<nat>) { sizes != [] && forall i | 0 <= i < |sizes| :: sizes[i] <= BUFFER_SIZE }

  predicate Proper(b: Block) { Tidy(b.sizes) && |b.text| == Sum(b.sizes) }

  /** How many buffers the chains have. */
  function Buffers(chains: seq<Block>): nat {
    if chains == [] then 0 else Buffers(chains[..|chains| - 1]) + |chains[|chains| - 1].sizes|
  }

  /** Every chain is as it should be, no buffer is lost, and no more are in use than has been recorded. */
  predicate Whole(s: State, total: nat) {
    && s.free + Buffers(s.chains) == total && Buffers(s.chains) <= s.peak
    && forall i | 0 <= i < |s.chains| :: Proper(s.chains[i])
  }

  /** The sizes with n bytes added at the end: a buffer is filled before another one is begun. */
  function Grown(sizes: seq<nat>, n: nat): (r: seq<nat>)
    requires Tidy(sizes)
    ensures Tidy(r) && |sizes| <= |r| && Sum(r) == Sum(sizes) + n
    decreases n, sizes[|sizes| - 1]
  {
    var front, last := sizes[..|sizes| - 1], sizes[|sizes| - 1];
    if last + n <= BUFFER_SIZE then
      SumAdds(front, last + n);
      front + [last + n]
    else
      SumAdds(front, BUFFER_SIZE);
      SumAdds(front + [BUFFER_SIZE], 0);
      Grown(front + [BUFFER_SIZE] + [0], last + n - BUFFER_SIZE)
  }

  lemma {:induction false} SumAdds(sizes: seq<nat>, n: nat)
    ensures Sum(sizes + [n]) == Sum(sizes) + n
  {
    assert (sizes + [n])[..|sizes|] == sizes;
  }

  /** How much can be written to a chain. */
  function Space(sizes: seq<nat>, free: nat): (n: nat)
    requires Tidy(sizes)
  {
    BUFFER_SIZE - sizes[|sizes| - 1] + free * BUFFER_SIZE
  }

  /** As much of the source is appended as there is space for. */
  function Written(b: Block, src: string, free: nat): (r: Block)
    requires Proper(b)
    ensures Proper(r) && |b.sizes| <= |r.sizes| <= |b.sizes| + free
  {
    var n := Min(|src|, Space(b.sizes, free));
    GrownFits(b.sizes, n, free);
    Block(b.text + src[..n], Grown(b.sizes, n))
  }

  /** How many buffers are left of a chain from which that many bytes are wanted back. */
  function Kept(buffers: nat, bytesNeeded: nat): (n: nat)
    requires buffers > 0
    ensures 1 <= n <= buffers
  {
    var dropped := Max(1, (bytesNeeded + BUFFER_SIZE - 1) / BUFFER_SIZE);
    if dropped >= buffers then 1 else buffers - dropped
  }

  datatype Op = Allocate | Release(i: nat) | Cat(i: nat, src: seq<char>) | Copy(i: nat, src: seq<char>)
              | Append(i: nat, j: nat) | Truncate(i: nat, bytesNeeded: nat)

  function Dropped<T>(chains: seq<T>, i: nat): seq<T>
    requires i < |chains|
  {
    chains[..i] + chains[i + 1..]
  }

  /** What is left of a chain when buffers are taken from its end. */
  function Truncated(b: Block, bytesNeeded: nat): (r: Block)
    requires Proper(b)
    ensures Proper(r) && r.text <= b.text && |r.sizes| <= |b.sizes|
  {
    var k := Kept(|b.sizes|, bytesNeeded);
    SumPrefix(b.sizes, k);
    Block(b.text[..Sum(b.sizes[..k])], b.sizes[..k])
  }

  function Joined(a: Block, b: Block): (r: Block)
    requires Proper(a) && Proper(b)
    ensures Proper(r)
  {
    SumJoins(a.sizes, b.sizes);
    Block(a.text + b.text, a.sizes + b.sizes)
  }

  /** One chain becomes another, with buffers from the pool or giving some back. */
  function Replaced(s: State, i: nat, b: Block, total: nat): (s': State)
    requires Whole(s, total) && i < |s.chains| && Proper(b) && |b.sizes| <= |s.chains[i].sizes| + s.free
    ensures Whole(s', total)
  {
    BuffersUpdate(s.chains, i, b);
    var free := s.free + |s.chains[i].sizes| - |b.sizes|;
    State(s.chains[i := b], free, Max(s.peak, total - free))
  }

  function Allocated(s: State, total: nat): (s': State)
    requires Whole(s, total) && s.free > 0
    ensures Whole(s', total)
  {
    BuffersAdd(s.chains, Block("", [0]));
    State(s.chains + [Block("", [0])], s.free - 1, Max(s.peak, total - s.free + 1))
  }

  function Released(s: State, i: nat, total: nat): (s': State)
    requires Whole(s, total) && i < |s.chains|
    ensures Whole(s', total)
  {
    BuffersDrop(s.chains, i);
    s.(chains := Dropped(s.chains, i), free := s.free + |s.chains[i].sizes|)
  }

  function Merged(s: State, i: nat, j: nat, total: nat): (s': State)
    requires Whole(s, total) && i < |s.chains| && j < |s.chains| && i != j
    ensures Whole(s', total)
  {
    var joined := s.chains[i := Joined(s.chains[i], s.chains[j])];
    BuffersUpdate(s.chains, i, joined[i]);
    BuffersDrop(joined, j);
    s.(chains := Dropped(joined, j))
  }

  /** What each operation does. One on a chain that is not there is not performed. */
  function Next(s: State, op: Op, total: nat): (s': State)
    requires Whole(s, total)
    ensures Whole(s', total)
  {
    match op
    case Allocate =>
      if s.free == 0 then s else Allocated(s, total)
    case Release(i) =>
      if i >= |s.chains| then s else Released(s, i, total)
    case Cat(i, src) =>
      if i >= |s.chains| then s
      else Replaced(s, i, Written(s.chains[i], src, s.free), total)
    case Copy(i, src) =>
      if i >= |s.chains| then s
      else Replaced(s, i, Written(Block("", [0]), src, s.free + |s.chains[i].sizes| - 1), total)
    case Append(i, j) =>
      if i >= |s.chains| || j >= |s.chains| || i == j then s else Merged(s, i, j, total)
    case Truncate(i, n) =>
      if i >= |s.chains| then s else Replaced(s, i, Truncated(s.chains[i], n), total)
  }

  /** The pool after a run of operations from the start, when all buffers are free. */
  function After(total: nat, ops: seq<Op>): (s: State)
    ensures Whole(s, total)
  {
    if ops == [] then State([], total, 0) else Next(After(total, ops[..|ops| - 1]), ops[|ops| - 1], total)
  }

  /** The number of buffers in use after each operation of a run. */
  function UsedAlong(total: nat, ops: seq<Op>): (used: seq<nat>)
    ensures |used| == |ops|
  {
    if ops == [] then []
    else UsedAlong(total, ops[..|ops| - 1]) + [Buffers(After(total, ops).chains)]
  }

  /** The greatest of some numbers. */
  function Highest(numbers: seq<nat>): nat {
    if numbers == [] then 0 else Max(Highest(numbers[..|numbers| - 1]), numbers[|numbers| - 1])
  }

  /** The recorded maximum is the greatest number of buffers that was in use after any operation of the run. */
  lemma {:induction false} PeakIsHighest(total: nat, ops: seq<Op>)
    ensures After(total, ops).peak == Highest(UsedAlong(total, ops))
  {
    hide Next, Buffers;
    if ops != [] {
      var most, used := ops[..|ops| - 1], UsedAlong(total, ops[..|ops| - 1]);
      PeakIsHighest(total, most);
      NextPeak(After(total, most), ops[|ops| - 1], total);
      assert UsedAlong(total, ops)[..|most|] == used;
    }
  }

  lemma {:induction false} NextPeak(s: State, op: Op, total: nat)
    requires Whole(s, total)
    ensures var s' := Next(s, op, total); s'.peak == Max(s.peak, Buffers(s'.chains))
  {
    hide Buffers, Written, Truncated, Joined;
    assert Whole(Next(s, op, total), total);
  }

  /** Appending writes as much of the source as there is room for behind the text, and only this chain changes. */
  lemma {:induction false} CatAppends(s: State, i: nat, src: string, total: nat)
    requires Whole(s, total) && i < |s.chains|
    ensures var s', n := Next(s, Cat(i, src), total), Min(|src|, Space(s.chains[i].sizes, s.free));
      && |s'.chains| == |s.chains| && s'.chains[i].text == s.chains[i].text + src[..n]
      && (forall j | 0 <= j < |s.chains| && j != i :: s'.chains[j] == s.chains[j])
      && (n < |src| ==> s'.free == 0 && Space(s'.chains[i].sizes, 0) == 0)
  {
    hide Whole, Proper, Grown, Sum;
    ChainProper(s, i, total);
    var n := Min(|src|, Space(s.chains[i].sizes, s.free));
    GrownFits(s.chains[i].sizes, n, s.free);
  }

  lemma {:induction false} ChainProper(s: State, i: nat, total: nat)
    requires Whole(s, total) && i < |s.chains|
    ensures Proper(s.chains[i]) && Tidy(s.chains[i].sizes)
  {
  }

  /** A chain grows by no more buffers than are free; if it takes all the space, none is left and its tail is full. */
  lemma {:induction false} GrownFits(sizes: seq<nat>, n: nat, free: nat)
    requires Tidy(sizes) && n <= Space(sizes, free)
    ensures |Grown(sizes, n)| <= |sizes| + free
    ensures n == Space(sizes, free) ==> |Grown(sizes, n)| == |sizes| + free && Space(Grown(sizes, n), 0) == 0
    decreases n, sizes[|sizes| - 1]
  {
    var front, last := sizes[..|sizes| - 1], sizes[|sizes| - 1];
    if last + n > BUFFER_SIZE {
      GrownFits(front + [BUFFER_SIZE] + [0], last + n - BUFFER_SIZE, free - 1);
    } else if n == Space(sizes, free) {
      assert free == 0;
    }
  }

  lemma {:induction false} SumJoins(a: seq<nat>, b: seq<nat>)
    ensures Sum(a + b) == Sum(a) + Sum(b)
  {
    if b == [] {
      assert a + b == a;
    } else {
      SumJoins(a, b[..|b| - 1]);
      assert (a + b)[..|a + b| - 1] == a + b[..|b| - 1];
    }
  }

  lemma {:induction false} SumPrefix(sizes: seq<nat>, k: nat)
    requires k <= |sizes|
    ensures Sum(sizes[..k]) <= Sum(sizes)
  {
    SumJoins(sizes[..k], sizes[k..]);
    assert sizes[..k] + sizes[k..] == sizes;
  }

  lemma {:induction false} BuffersAdd(chains: seq<Block>, b: Block)
    ensures Buffers(chains + [b]) == Buffers(chains) + |b.sizes|
  {
    assert (chains + [b])[..|chains|] == chains;
  }

  lemma {:induction false} BuffersJoin(a: seq<Block>, b: seq<Block>)
    ensures Buffers(a + b) == Buffers(a) + Buffers(b)
  {
    if b == [] {
      assert a + b == a;
    } else {
      BuffersJoin(a, b[..|b| - 1]);
      assert (a + b)[..|a + b| - 1] == a + b[..|b| - 1];
    }
  }

  lemma {:induction false} BuffersSplit(chains: seq<Block>, i: nat)
    requires i < |chains|
    ensures Buffers(chains) == Buffers(chains[..i]) + |chains[i].sizes| + Buffers(chains[i + 1..])
  {
    hide Buffers;
    BuffersAdd(chains[..i], chains[i]);
    BuffersJoin(chains[..i] + [chains[i]], chains[i + 1..]);
    assert chains[..i] + [chains[i]] + chains[i + 1..] == chains;
  }

  lemma {:induction false} BuffersUpdate(chains: seq<Block>, i: nat, b: Block)
    requires i < |chains|
    ensures Buffers(chains[i := b]) + |chains[i].sizes| == Buffers(chains) + |b.sizes|
  {
    hide Buffers;
    BuffersSplit(chains, i);
    BuffersSplit(chains[i := b], i);
    assert chains[i := b][..i] == chains[..i] && chains[i := b][i + 1..] == chains[i + 1..];
  }

  lemma {:induction false} BuffersDrop(chains: seq<Block>, i: nat)
    requires i < |chains|
    ensures Buffers(Dropped(chains, i)) + |chains[i].sizes| == Buffers(chains)
  {
    hide Buffers;
    BuffersSplit(chains, i);
    BuffersJoin(chains[..i], chains[i + 1..]);
  }

  // ---------------------------------------------------------------- the pool in memory

  ghost function Members(chains: seq<seq<OutputBuffer>>): set<OutputBuffer> {
    set i, k | 0 <= i < |chains| && 0 <= k < |chains[i]| :: chains[i][k]
  }

  /** A chain has one holder, and always had. */
  ghost predicate Sole(items: seq<OutputBuffer>)
    reads items`references, items`isReferenced
  {
    Unshared(items) && Unmarked(items)
  }

  lemma {:induction false} SoleIs(items: seq<OutputBuffer>)
    ensures Sole(items) <==> Unshared(items) && Unmarked(items)
    ensures Unmarked(items) && items != [] ==> !items[0].isReferenced
  {
  }

  ghost function MembersData(chains: seq<seq<OutputBuffer>>): set<array<char>> {
    set i, k | 0 <= i < |chains| && 0 <= k < |chains[i]| :: chains[i][k].data
  }

  /** What a chain in memory looks like to its user. */
  ghost function Showing(items: seq<OutputBuffer>): Block
    reads items`dataLength, set b | b in items :: b.data
  {
    Block(Contents(items), Sizes(items))
  }

  /** The pool and the chains in memory are this state. */
  ghost predicate Shows(pool: Pool, chains: seq<seq<OutputBuffer>>, s: State)
    reads pool, Members(chains)`dataLength, MembersData(chains)
  {
    && Whole(s, pool.bufferCount) && s.free == |pool.free| && s.peak == pool.maxUsedOutputBuffers
    && |s.chains| == |chains| && forall i | 0 <= i < |chains| :: Showing(chains[i]) == s.chains[i]
  }

  /** The chains in use and the free list share no buffer, and together are the whole pool. */
  ghost predicate Safe(pool: Pool, chains: seq<seq<OutputBuffer>>)
    reads pool, pool.free`next, Members(chains)`next, Members(chains)`last, Members(chains)`dataLength
    reads Members(chains)`references
    reads Members(chains)`isReferenced
  {
    && pool.Valid()
    && Distinct(Flat(chains) + pool.free) && |Flat(chains)| == pool.usedOutputBuffers
    && (forall i | 0 <= i < |chains| :: Chain(chains[i]) && Sole(chains[i]))
  }

  /** Taking chain i apart from the others. */
  lemma {:induction false} FlatSplits(chains: seq<seq<OutputBuffer>>, i: nat)
    requires i < |chains|
    ensures Flat(chains) == Flat(chains[..i]) + chains[i] + Flat(chains[i + 1..])
  {
    hide Flat;
    var before, one, after := chains[..i], [chains[i]], chains[i + 1..];
    FlatJoins(before, one);
    FlatJoins(before + one, after);
    FlatOne(chains[i]);
    assert chains == before + one + after;
  }

  lemma {:induction false} TwicePresent(s: seq<OutputBuffer>, i: nat, j: nat)
    requires i < j < |s| && s[i] == s[j]
    ensures multiset(s)[s[i]] >= 2
  {
    assert s == s[..j] + [s[j]] + s[j + 1..];
    assert s[i] in s[..j];
  }

  lemma {:induction false} OncePresent(s: seq<OutputBuffer>, b: OutputBuffer)
    requires forall i, j | 0 <= i < j < |s| :: s[i] != s[j]
    ensures multiset(s)[b] <= 1
  {
    if s != [] {
      var front := s[..|s| - 1];
      OncePresent(front, b);
      assert s == front + [s[|s| - 1]];
      if b == s[|s| - 1] { assert b !in front; }
    }
  }

  /** Being distinct does not depend on the order. */
  lemma {:induction false} DistinctReorders(s: seq<OutputBuffer>, t: seq<OutputBuffer>)
    requires Distinct(s) && multiset(s) == multiset(t)
    ensures Distinct(t) && |t| == |s|
  {
    assert |s| == |multiset(s)| && |t| == |multiset(t)|;
    forall i, j | 0 <= i < j < |t| ensures t[i] != t[j] && t[i].data != t[j].data {
      if t[i] == t[j] {
        TwicePresent(t, i, j);
        OncePresent(s, t[i]);
      }
      assert t[i] in multiset(t) && t[j] in multiset(t);
      assert t[i] in s && t[j] in s;
    }
    forall i | 0 <= i < |t| ensures t[i].data.Length == BUFFER_SIZE {
      assert t[i] in multiset(t);
      assert t[i] in s;
    }
  }

  lemma {:induction false} AllInFlat(chains: seq<seq<OutputBuffer>>, i: nat)
    requires i < |chains|
    ensures forall b | b in chains[i] :: b in Flat(chains)
  {
    if i < |chains| - 1 { AllInFlat(chains[..|chains| - 1], i); }
  }

  lemma {:induction false} FlatUpdate(chains: seq<seq<OutputBuffer>>, i: nat, items: seq<OutputBuffer>)
    requires i < |chains|
    ensures multiset(Flat(chains[i := items])) + multiset(chains[i]) == multiset(Flat(chains)) + multiset(items)
  {
    hide Flat;
    FlatSplits(chains, i);
    FlatSplits(chains[i := items], i);
    assert chains[i := items][..i] == chains[..i] && chains[i := items][i + 1..] == chains[i + 1..];
  }

  lemma {:induction false} FlatRemove(chains: seq<seq<OutputBuffer>>, i: nat)
    requires i < |chains|
    ensures multiset(Flat(chains[..i] + chains[i + 1..])) + multiset(chains[i]) == multiset(Flat(chains))
  {
    hide Flat;
    FlatSplits(chains, i);
    FlatJoins(chains[..i], chains[i + 1..]);
  }

  /** Nothing of another chain is in the storage of chain i and the free list. */
  lemma {:induction false} Elsewhere(chains: seq<seq<OutputBuffer>>, free: seq<OutputBuffer>, i: nat, j: nat)
    requires i < |chains| && j < |chains| && i != j && Distinct(Flat(chains) + free)
    ensures Apart(chains[i], chains[j]) && Apart(chains[i], free)
    ensures forall k | 0 <= k < |chains[j]| ::
      chains[j][k] !in Storage(chains[i], free) && chains[j][k].data !in Storage(chains[i], free)
  {
    hide Flat;
    FlatSplits(chains, i);
    var before, items, after := Flat(chains[..i]), chains[i], Flat(chains[i + 1..]);
    MiddleApart(before, items, after, free);
    if j < i {
      AllInFlat(chains[..i], j);
    } else {
      AllInFlat(chains[i + 1..], j - i - 1);
    }
    assert forall b | b in chains[j] :: b in before || b in after;
  }

  lemma {:induction false} MiddleApart(before: seq<OutputBuffer>, items: seq<OutputBuffer>, after: seq<OutputBuffer>,
                                       free: seq<OutputBuffer>)
    requires Distinct(before + items + after + free)
    ensures Apart(items, before) && Apart(items, after) && Apart(items, free) && Apart(before, free)
    ensures Apart(after, free)
    ensures Distinct(items)
  {
    var all := before + items + after + free;
    assert forall i | 0 <= i < |before| :: all[i] == before[i];
    assert forall i | 0 <= i < |items| :: all[|before| + i] == items[i];
    assert forall i | 0 <= i < |after| :: all[|before| + |items| + i] == after[i];
    assert forall i | 0 <= i < |free| :: all[|before| + |items| + |after| + i] == free[i];
  }

  /** A rearrangement of a safe pool whose chains are all well formed is safe. */
  lemma {:induction false} SafeAgain(pool: Pool, all: seq<OutputBuffer>, chains: seq<seq<OutputBuffer>>)
    requires pool.Valid() && Distinct(all) && |all| == pool.bufferCount
    requires multiset(Flat(chains) + pool.free) == multiset(all)
    requires forall i | 0 <= i < |chains| :: Chain(chains[i]) && Sole(chains[i])
    ensures Safe(pool, chains)
  {
    DistinctReorders(all, Flat(chains) + pool.free);
  }

  /** The clients hold the heads of the chains in use. */
  ghost predicate System(pool: Pool, heads: seq<OutputBuffer>, chains: seq<seq<OutputBuffer>>)
    reads pool, pool.free`next, Members(chains)`next, Members(chains)`last, Members(chains)`dataLength
    reads Members(chains)`references
    reads Members(chains)`isReferenced
  {
    && Safe(pool, chains) && |heads| == |chains|
    && (forall i | 0 <= i < |chains| :: chains[i] != [] && heads[i] == chains[i][0])
  }

  /** What an operation on chain i may rely on. */
  lemma {:induction false} Entry(pool: Pool, heads: seq<OutputBuffer>, chains: seq<seq<OutputBuffer>>, i: nat)
    requires System(pool, heads, chains) && i < |chains|
    ensures |heads| == |chains| && heads[i] == chains[i][0] && pool.Live(chains[i]) && Sole(chains[i])
    ensures forall j, k | 0 <= j < |chains| && j != i && 0 <= k < |chains[j]| ::
      chains[j][k] !in Storage(chains[i], pool.free) && chains[j][k].data !in Storage(chains[i], pool.free)
    ensures forall j | 0 <= j < |chains| && j != i :: Chain(chains[j]) && Sole(chains[j]) && Apart(chains[i], chains[j])
    ensures Storage(chains[i], pool.free) <= Storage(Flat(chains), pool.free)
    ensures Distinct(Flat(chains) + pool.free) && |Flat(chains) + pool.free| == pool.bufferCount
  {
    hide Flat, Storage;
    forall j | 0 <= j < |chains| && j != i
      ensures Apart(chains[i], chains[j])
      ensures forall k | 0 <= k < |chains[j]| ::
        chains[j][k] !in Storage(chains[i], pool.free) && chains[j][k].data !in Storage(chains[i], pool.free)
    {
      Elsewhere(chains, pool.free, i, j);
    }
    FlatSplits(chains, i);
    MiddleApart(Flat(chains[..i]), chains[i], Flat(chains[i + 1..]), pool.free);
    AllInFlat(chains, i);
    SubStorage(chains[i], Flat(chains), pool.free);
  }

  lemma {:induction false} SubStorage(items: seq<OutputBuffer>, all: seq<OutputBuffer>, free: seq<OutputBuffer>)
    requires forall b | b in items :: b in all
    ensures Storage(items, free) <= Storage(all, free)
  {
    assert forall b | b in items + free :: b in all + free;
  }

  lemma {:induction false} SameStorage(s: seq<OutputBuffer>, free: seq<OutputBuffer>, t: seq<OutputBuffer>,
                                       free': seq<OutputBuffer>)
    requires multiset(s + free) == multiset(t + free')
    ensures Storage(s, free) == Storage(t, free')
  {
    forall b ensures b in s + free <==> b in t + free' {
      assert b in s + free <==> b in multiset(s + free);
      assert b in t + free' <==> b in multiset(t + free');
    }
  }

  /** The buffers have been rearranged into other well-formed chains. */
  lemma {:induction false} Rearranged(pool: Pool, chains: seq<seq<OutputBuffer>>, free: seq<OutputBuffer>,
                                      heads: seq<OutputBuffer>, chains': seq<seq<OutputBuffer>>)
    requires pool.Valid() && |heads| == |chains'|
    requires forall j | 0 <= j < |chains'| ::
      chains'[j] != [] && Chain(chains'[j]) && Sole(chains'[j]) && heads[j] == chains'[j][0]
    requires Distinct(Flat(chains) + free) && |Flat(chains) + free| == pool.bufferCount
    requires multiset(Flat(chains') + pool.free) == multiset(Flat(chains) + free)
    ensures System(pool, heads, chains') && Storage(Flat(chains'), pool.free) == Storage(Flat(chains), free)
  {
    hide Flat, Storage;
    SafeAgain(pool, Flat(chains) + free, chains');
    SameStorage(Flat(chains'), pool.free, Flat(chains), free);
  }

  /** Chain i has become `items`, made of its own buffers and free ones. */
  lemma {:induction false} Updated(pool: Pool, heads: seq<OutputBuffer>, chains: seq<seq<OutputBuffer>>, i: nat,
                                   free: seq<OutputBuffer>, items: seq<OutputBuffer>)
    requires pool.Live(items) && Sole(items) && i < |chains| == |heads| && items[0] == heads[i]
    requires forall j | 0 <= j < |chains| && j != i :: Chain(chains[j]) && Sole(chains[j]) && heads[j] == chains[j][0]
    requires Distinct(Flat(chains) + free) && |Flat(chains) + free| == pool.bufferCount
    requires multiset(items + pool.free) == multiset(chains[i] + free)
    ensures System(pool, heads, chains[i := items])
    ensures Storage(Flat(chains[i := items]), pool.free) == Storage(Flat(chains), free)
  {
    hide Flat, Storage;
    FlatUpdate(chains, i, items);
    Sums(Flat(chains[i := items]), pool.free, items, chains[i], Flat(chains), free);
    Rearranged(pool, chains, free, heads, chains[i := items]);
  }

  lemma {:induction false} Sums(flat': seq<OutputBuffer>, free': seq<OutputBuffer>, items': seq<OutputBuffer>,
                                items: seq<OutputBuffer>, flat: seq<OutputBuffer>, free: seq<OutputBuffer>)
    requires multiset(flat') + multiset(items) == multiset(flat) + multiset(items')
    requires multiset(items' + free') == multiset(items + free)
    ensures multiset(flat' + free') == multiset(flat + free)
  {
    assert multiset(items' + free') == multiset(items') + multiset(free');
    assert multiset(items + free) == multiset(items) + multiset(free);
    assert multiset(flat' + free') == multiset(flat') + multiset(free');
    assert multiset(flat + free) == multiset(flat) + multiset(free);
    forall b ensures multiset(flat' + free')[b] == multiset(flat + free)[b] {
      assert (multiset(flat') + multiset(items))[b] == (multiset(flat) + multiset(items'))[b];
      assert (multiset(items') + multiset(free'))[b] == (multiset(items) + multiset(free))[b];
    }
  }

  /** The text of a chain. */
  ghost function Contents(items: seq<OutputBuffer>): seq<char>
    reads items`dataLength, set b | b in items :: b.data
  {
    if Distinct(items) && Filled(items) then Bytes(items) else []
  }

  lemma {:induction false} ContentsIs(pool: Pool, items: seq<OutputBuffer>)
    requires pool.Live(items)
    ensures Distinct(items) && Filled(items) && Contents(items) == Bytes(items)
  {
  }

  lemma {:induction false} BothContents(a: seq<OutputBuffer>, b: seq<OutputBuffer>)
    requires Chain(a) && Chain(b)
    ensures Distinct(a) && Filled(a) && Contents(a) == Bytes(a) && Distinct(b) && Filled(b) && Contents(b) == Bytes(b)
  {
  }

  lemma {:induction false} JoinedContents(items: seq<OutputBuffer>)
    requires Chain(items)
    ensures Distinct(items) && Filled(items) && Contents(items) == Bytes(items)
  {
  }

  lemma {:induction false} NewIsEmpty(buf: OutputBuffer)
    requires buf.dataLength == 0
    ensures Contents([buf]) == []
  {
    if Distinct([buf]) && Filled([buf]) {
      assert Bytes([buf]) == Bytes([buf][..0]) + buf.data[..0];
    }
  }

  method Write(pool: Pool, heads: seq<OutputBuffer>, i: nat, src: seq<char>, ghost chains: seq<seq<OutputBuffer>>,
               ghost s: State)
    returns (copied: nat, ghost chains': seq<seq<OutputBuffer>>)
    requires System(pool, heads, chains) && i < |heads| && Shows(pool, chains, s)
    modifies pool, Storage(Flat(chains), pool.free)
    ensures PeakKept(old(pool.maxUsedOutputBuffers), pool.maxUsedOutputBuffers, pool.usedOutputBuffers)
    ensures |chains'| == |chains| && chains' == chains[i := chains'[i]]
    ensures copied <= |src| && (copied < |src| ==> pool.free == [])
    ensures Contents(chains'[i]) == old(Contents(chains[i])) + src[..copied]
    ensures Shows(pool, chains', Next(s, Cat(i, src), pool.bufferCount))
    ensures System(pool, heads, chains') && Storage(Flat(chains'), pool.free) == old(Storage(Flat(chains), pool.free))
  {
    hide *;
    SystemSizes(pool, heads, chains);
    Entry(pool, heads, chains, i);
    ghost var items, free := [], pool.free;
    ContentsIs(pool, chains[i]);
    ShownBefore(pool, heads, chains, s, i);
    SoleIs(chains[i]);
    copied, items := pool.Cat(heads[i], src, chains[i]);
    SoleIs(items);
    ContentsIs(pool, items);
    TookSizes(chains[i], free, items, pool.free);
    WriteShows(pool, chains, s, i, items, src, copied);
    TookConserves(chains[i], free, items, pool.free);
    chains' := chains[i := items];
    Updated(pool, heads, chains, i, free, items);
  }

  /** What an operation on chain i finds. */
  lemma {:induction false} ShownBefore(pool: Pool, heads: seq<OutputBuffer>, chains: seq<seq<OutputBuffer>>, s: State,
                                       i: nat)
    requires System(pool, heads, chains) && Shows(pool, chains, s) && i < |chains|
    ensures Whole(s, pool.bufferCount) && |s.chains| == |chains| && s.free == |pool.free|
    ensures s.peak == pool.maxUsedOutputBuffers
    ensures s.chains[i] == Block(Contents(chains[i]), Sizes(chains[i])) && Proper(s.chains[i]) && chains[i] != []
    ensures Room(chains[i]) == BUFFER_SIZE - s.chains[i].sizes[|chains[i]| - 1]
    ensures forall j | 0 <= j < |chains| && j != i :: Showing(chains[j]) == s.chains[j]
  {
    hide Safe, Contents, Sizes;
    assert Showing(chains[i]) == s.chains[i];
  }

  /** One chain has become another, and the others are as they were. */
  lemma {:induction false} ReplacedShows(pool: Pool, chains: seq<seq<OutputBuffer>>, s: State, i: nat,
                                         items: seq<OutputBuffer>, b: Block)
    requires Whole(s, pool.bufferCount) && i < |chains| == |s.chains| && Proper(b) && Showing(items) == b
    requires |b.sizes| <= |s.chains[i].sizes| + s.free
    requires forall j | 0 <= j < |chains| && j != i :: Showing(chains[j]) == s.chains[j]
    requires |pool.free| == s.free + |s.chains[i].sizes| - |b.sizes|
    requires |pool.free| <= pool.bufferCount
    requires pool.maxUsedOutputBuffers == Max(s.peak, pool.bufferCount - |pool.free|)
    ensures Shows(pool, chains[i := items], Replaced(s, i, b, pool.bufferCount))
  {
    hide Whole, Proper, Showing;
  }

  lemma {:induction false} WriteShows(pool: Pool, chains: seq<seq<OutputBuffer>>, s: State, i: nat,
                                      items: seq<OutputBuffer>, src: string, copied: nat)
    requires Whole(s, pool.bufferCount) && i < |chains| == |s.chains| && Proper(s.chains[i])
    requires forall j | 0 <= j < |chains| && j != i :: Showing(chains[j]) == s.chains[j]
    requires pool.Live(items) && copied <= |src| && Contents(items) == s.chains[i].text + src[..copied]
    requires |s.chains[i].sizes| <= |items| <= |s.chains[i].sizes| + s.free
    requires |pool.free| == s.free + |s.chains[i].sizes| - |items|
    requires Topped(s.chains[i].sizes, items) && PeakKept(s.peak, pool.maxUsedOutputBuffers, pool.usedOutputBuffers)
    requires copied < |src| ==> pool.free == [] && Room(items) == 0
    requires var sizes := s.chains[i].sizes;
      BUFFER_SIZE - sizes[|sizes| - 1] + (|items| - |sizes|) * BUFFER_SIZE == copied + Room(items)
    requires |items| > |s.chains[i].sizes| ==> Room(items) < BUFFER_SIZE
    ensures Shows(pool, chains[i := items], Next(s, Cat(i, src), pool.bufferCount))
  {
    hide Whole, Contents;
    var b := s.chains[i];
    SizesTidy(pool, items);
    WrittenIs(b, src, s.free, copied, Sizes(items));
    ReplacedShows(pool, chains, s, i, items, Written(b, src, s.free));
  }

  lemma {:induction false} SizesTidy(pool: Pool, items: seq<OutputBuffer>)
    requires pool.Live(items)
    ensures Tidy(Sizes(items)) && pool.usedOutputBuffers == pool.bufferCount - |pool.free|
  {
    assert forall i | 0 <= i < |items| :: items[i] in items;
  }

  /** A chain that has taken so much of the source, and no more buffers than it needed, is the written chain. */
  lemma {:induction false} WrittenIs(b: Block, src: string, free: nat, copied: nat, sizes: seq<nat>)
    requires Proper(b) && Tidy(sizes) && copied <= |src| && |b.sizes| <= |sizes| <= |b.sizes| + free
    requires Fuller(b.sizes, sizes, copied)
    requires copied < |src| ==> |sizes| == |b.sizes| + free && sizes[|sizes| - 1] == BUFFER_SIZE
    ensures Written(b, src, free) == Block(b.text + src[..copied], sizes)
  {
    hide Sum;
    GrownIs(b.sizes, copied, sizes);
    assert copied == Min(|src|, Space(b.sizes, free)) by {
      hide Tidy;
      assert Space(b.sizes, free)
          == copied + (BUFFER_SIZE - sizes[|sizes| - 1]) + (|b.sizes| + free - |sizes|) * BUFFER_SIZE;
    }
  }

  /** Some bytes were added to buffers of these sizes: all but the last were filled. */
  predicate Fuller(sizes: seq<nat>, sizes': seq<nat>, n: nat)
    requires sizes != []
  {
    && |sizes| <= |sizes'|
    && (forall i | 0 <= i < |sizes| - 1 :: sizes'[i] == sizes[i])
    && (forall i | |sizes| - 1 <= i < |sizes'| - 1 :: sizes'[i] == BUFFER_SIZE)
    && sizes'[|sizes'| - 1] + (|sizes'| - |sizes|) * BUFFER_SIZE == sizes[|sizes| - 1] + n
    && (|sizes'| > |sizes| ==> sizes'[|sizes'| - 1] > 0)
  }

  lemma {:induction false} GrownIs(sizes: seq<nat>, n: nat, sizes': seq<nat>)
    requires Tidy(sizes) && Tidy(sizes') && Fuller(sizes, sizes', n)
    ensures Grown(sizes, n) == sizes'
    decreases n, sizes[|sizes| - 1]
  {
    hide Sum;
    var front, last := sizes[..|sizes| - 1], sizes[|sizes| - 1];
    if last + n > BUFFER_SIZE {
      GrownIs(front + [BUFFER_SIZE] + [0], last + n - BUFFER_SIZE, sizes');
    } else {
      assert |sizes'| == |sizes|;
    }
  }

  lemma {:induction false} SystemSizes(pool: Pool, heads: seq<OutputBuffer>, chains: seq<seq<OutputBuffer>>)
    requires System(pool, heads, chains)
    ensures |heads| == |chains| && forall j | 0 <= j < |chains| :: chains[j] != [] && heads[j] == chains[j][0]
  {
  }

  lemma {:induction false} TookConserves(items: seq<OutputBuffer>, free: seq<OutputBuffer>, items': seq<OutputBuffer>,
                                         free': seq<OutputBuffer>)
    requires Took(items, free, items', free') && items != []
    ensures multiset(items' + free') == multiset(items + free) && items' != [] && items'[0] == items[0]
  {
    assert items' + free' == items + free;
  }

  lemma {:induction false} ReversedConserves(items: seq<OutputBuffer>)
    ensures multiset(Reversed(items)) == multiset(items)
  {
    if items != [] {
      ReversedConserves(items[..|items| - 1]);
      assert items == items[..|items| - 1] + [items[|items| - 1]];
    }
  }

  method Replace(pool: Pool, heads: seq<OutputBuffer>, i: nat, src: seq<char>, ghost chains: seq<seq<OutputBuffer>>,
                 ghost s: State)
    returns (copied: nat, ghost chains': seq<seq<OutputBuffer>>)
    requires System(pool, heads, chains) && i < |heads| && Shows(pool, chains, s)
    modifies pool, Storage(Flat(chains), pool.free)
    ensures PeakKept(old(pool.maxUsedOutputBuffers), pool.maxUsedOutputBuffers, pool.usedOutputBuffers)
    ensures |chains'| == |chains| && chains' == chains[i := chains'[i]]
    ensures copied <= |src| && (copied < |src| ==> pool.free == [])
    ensures Contents(chains'[i]) == src[..copied]
    ensures Shows(pool, chains', Next(s, Copy(i, src), pool.bufferCount))
    ensures System(pool, heads, chains') && Storage(Flat(chains'), pool.free) == old(Storage(Flat(chains), pool.free))
  {
    hide *;
    SystemSizes(pool, heads, chains);
    Entry(pool, heads, chains, i);
    ghost var items, free := [], pool.free;
    ShownBefore(pool, heads, chains, s, i);
    SoleIs(chains[i]);
    copied, items := pool.Copy(heads[i], src, chains[i]);
    SoleIs(items);
    ContentsIs(pool, items);
    CopySizes(chains[i], free, items, pool.free);
    CopyShows(pool, chains, s, i, items, src, copied);
    CopyConserves(chains[i], free, items, pool.free);
    chains' := chains[i := items];
    Updated(pool, heads, chains, i, free, items);
  }

  lemma {:induction false} CopySizes(items: seq<OutputBuffer>, free: seq<OutputBuffer>, items': seq<OutputBuffer>,
                                     free': seq<OutputBuffer>)
    requires items != [] && Took([items[0]], Reversed(items[1..]) + free, items', free')
    ensures 1 <= |items'| <= |items| + |free| && |free'| == |free| + |items| - |items'|
  {
    ReversedLength(items[1..]);
  }

  lemma {:induction false} EmptyProper()
    ensures Proper(Block("", [0])) && [0] != []
  {
  }

  lemma {:induction false} CopyShows(pool: Pool, chains: seq<seq<OutputBuffer>>, s: State, i: nat,
                                     items: seq<OutputBuffer>, src: string, copied: nat)
    requires Whole(s, pool.bufferCount) && i < |chains| == |s.chains| && Proper(s.chains[i])
    requires forall j | 0 <= j < |chains| && j != i :: Showing(chains[j]) == s.chains[j]
    requires pool.Live(items) && copied <= |src| && Contents(items) == src[..copied]
    requires 1 <= |items| <= |s.chains[i].sizes| + s.free
    requires |pool.free| == s.free + |s.chains[i].sizes| - |items|
    requires Topped([0], items) && PeakKept(s.peak, pool.maxUsedOutputBuffers, pool.usedOutputBuffers)
    requires copied < |src| ==> pool.free == [] && Room(items) == 0
    requires BUFFER_SIZE + (|items| - 1) * BUFFER_SIZE == copied + Room(items)
    requires |items| > 1 ==> Room(items) < BUFFER_SIZE
    ensures Shows(pool, chains[i := items], Next(s, Copy(i, src), pool.bufferCount))
  {
    hide Whole, Contents, Sizes, Grown, Written, Sum, Linked, Points, Apart, Distinct, Filled, Claimed;
    var b, free := Block("", [0]), s.free + |s.chains[i].sizes| - 1;
    EmptyProper();
    SizesTidy(pool, items);
    WrittenIs(b, src, free, copied, Sizes(items));
    assert "" + src[..copied] == src[..copied];
    ReplacedShows(pool, chains, s, i, items, Written(b, src, free));
  }

  lemma {:induction false} CopyConserves(items: seq<OutputBuffer>, free: seq<OutputBuffer>, items': seq<OutputBuffer>,
                                         free': seq<OutputBuffer>)
    requires items != [] && Took([items[0]], Reversed(items[1..]) + free, items', free')
    ensures multiset(items' + free') == multiset(items + free) && items' != [] && items'[0] == items[0]
  {
    hide Reversed;
    TookConserves([items[0]], Reversed(items[1..]) + free, items', free');
    ReversedConserves(items[1..]);
    assert items == [items[0]] + items[1..];
    assert multiset([items[0]] + (Reversed(items[1..]) + free))
        == multiset{items[0]} + multiset(Reversed(items[1..])) + multiset(free);
  }

  method Cut(pool: Pool, heads: seq<OutputBuffer>, i: nat, bytesNeeded: nat, ghost chains: seq<seq<OutputBuffer>>,
             ghost s: State)
    returns (ghost chains': seq<seq<OutputBuffer>>)
    requires System(pool, heads, chains) && i < |heads| && Shows(pool, chains, s)
    modifies pool, Storage(Flat(chains), pool.free)
    ensures PeakKept(old(pool.maxUsedOutputBuffers), pool.maxUsedOutputBuffers, pool.usedOutputBuffers)
    ensures |chains'| == |chains| && chains' == chains[i := chains'[i]] && chains'[i] <= chains[i]
    ensures Contents(chains'[i]) <= old(Contents(chains[i]))
    ensures Shows(pool, chains', Next(s, Truncate(i, bytesNeeded), pool.bufferCount))
    ensures System(pool, heads, chains') && Storage(Flat(chains'), pool.free) == old(Storage(Flat(chains), pool.free))
  {
    hide *;
    SystemSizes(pool, heads, chains);
    Entry(pool, heads, chains, i);
    InStorage(chains[i], pool.free);
    HeadAt(chains[i]);
    LiveSome(pool, chains[i]);
    var released;
    ghost var items, dropped, free := [], [], pool.free;
    ContentsIs(pool, chains[i]);
    ShownBefore(pool, heads, chains, s, i);
    SoleIs(chains[i]);
    released, items, dropped := pool.Truncate(heads[i], bytesNeeded, chains[i]);
    SoleIs(items);
    LiveSome(pool, items);
    ContentsIs(pool, items);
    StillUnmarked(chains[i], items);
    CutShows(pool, chains, s, i, items, dropped, bytesNeeded, released);
    CutConserves(items, dropped, free);
    chains' := chains[i := items];
    Updated(pool, heads, chains, i, free, items);
    InUseWithin(pool, heads, chains');
  }

  lemma {:induction false} StillUnmarked(items: seq<OutputBuffer>, items': seq<OutputBuffer>)
    requires Unmarked(items) && items' <= items
    ensures Unmarked(items')
  {
  }

  /** The text of some buffers is as long as they are filled. */
  lemma {:induction false} BytesLength(items: seq<OutputBuffer>)
    requires Distinct(items) && Filled(items)
    ensures |Bytes(items)| == Sum(Sizes(items))
  {
    if items != [] {
      var front := items[..|items| - 1];
      BytesLength(front);
      SumAdds(Sizes(front), items[|items| - 1].dataLength);
      assert Sizes(items) == Sizes(front) + [items[|items| - 1].dataLength];
    }
  }

  /** The loop of Truncate stops at the first whole number of buffers that is enough. */
  lemma {:induction false} KeptIs(buffers: nat, dropped: nat, bytesNeeded: nat)
    requires dropped < buffers && (dropped == 0 <==> buffers == 1)
    requires dropped > 0 ==> buffers - dropped == 1 || dropped * BUFFER_SIZE >= bytesNeeded
    requires dropped > 0 ==> dropped * BUFFER_SIZE < Max(bytesNeeded, 1) + BUFFER_SIZE
    ensures Kept(buffers, bytesNeeded) == buffers - dropped
  {
  }

  lemma {:induction false} CutShows(pool: Pool, chains: seq<seq<OutputBuffer>>, s: State, i: nat,
                                    items: seq<OutputBuffer>, dropped: seq<OutputBuffer>, bytesNeeded: nat,
                                    released: nat)
    requires Whole(s, pool.bufferCount) && i < |chains| == |s.chains| && Proper(s.chains[i])
    requires forall j | 0 <= j < |chains| && j != i :: Showing(chains[j]) == s.chains[j]
    requires pool.Live(items) && chains[i] == items + dropped && s.chains[i].sizes == Sizes(chains[i])
    requires Contents(items) <= s.chains[i].text && Contents(items) == Bytes(items)
    requires |pool.free| == s.free + |dropped| && pool.maxUsedOutputBuffers == s.peak
    requires released == |dropped| * BUFFER_SIZE && (released == 0 <==> |chains[i]| <= 1)
    requires released > 0 ==> |items| == 1 || released >= bytesNeeded
    requires released > 0 ==> released < Max(bytesNeeded, 1) + BUFFER_SIZE
    ensures Shows(pool, chains[i := items], Next(s, Truncate(i, bytesNeeded), pool.bufferCount))
  {
    hide *;
    SizesTidy(pool, items);
    CutTo(pool, s.chains[i], chains[i], items, dropped, bytesNeeded, released);
    SizesCount(chains[i]);
    SizesCount(items);
    PeakHolds(s, pool.bufferCount, |pool.free|);
    TruncateIs(s, i, bytesNeeded, pool.bufferCount);
    ReplacedShows(pool, chains, s, i, items, Truncated(s.chains[i], bytesNeeded));
  }

  lemma {:induction false} TruncateIs(s: State, i: nat, n: nat, total: nat)
    requires Whole(s, total) && i < |s.chains| && Proper(s.chains[i])
    ensures |Truncated(s.chains[i], n).sizes| <= |s.chains[i].sizes| + s.free
    ensures Next(s, Truncate(i, n), total) == Replaced(s, i, Truncated(s.chains[i], n), total)
  {
    hide Whole, Proper, Truncated, Replaced;
  }

  lemma {:induction false} SizesCount(items: seq<OutputBuffer>)
    ensures |Sizes(items)| == |items|
  {
  }

  lemma {:induction false} PeakHolds(s: State, total: nat, free: nat)
    requires Whole(s, total) && s.free <= free <= total
    ensures s.peak == Max(s.peak, total - free)
  {
    hide Proper;
  }

  lemma {:induction false} CutTo(pool: Pool, b: Block, all: seq<OutputBuffer>, items: seq<OutputBuffer>,
                                 dropped: seq<OutputBuffer>, bytesNeeded: nat, released: nat)
    requires Proper(b) && pool.Live(items) && all == items + dropped && b.sizes == Sizes(all)
    requires Contents(items) <= b.text && Contents(items) == Bytes(items)
    requires released == |dropped| * BUFFER_SIZE && (released == 0 <==> |all| <= 1)
    requires released > 0 ==> |items| == 1 || released >= bytesNeeded
    requires released > 0 ==> released < Max(bytesNeeded, 1) + BUFFER_SIZE
    ensures Showing(items) == Truncated(b, bytesNeeded) && |Truncated(b, bytesNeeded).sizes| == |items|
  {
    hide Contents, Bytes, Sizes, Kept, Sum, Linked, Points, Apart, Distinct, Filled, Claimed;
    KeptIs(|all|, |dropped|, bytesNeeded);
    LiveSome(pool, items);
    ChainFilled(items);
    BytesLength(items);
    assert Sizes(items) == b.sizes[..|items|];
    assert Contents(items) == b.text[..|Contents(items)|];
  }

  lemma {:induction false} HeadAt(items: seq<OutputBuffer>)
    requires items != []
    ensures At(items, 0) == items[0]
  {
  }

  lemma {:induction false} LiveSome(pool: Pool, items: seq<OutputBuffer>)
    requires pool.Live(items)
    ensures items != [] && pool.Valid() && pool.Held(items) && Chain(items)
  {
  }

  lemma {:induction false} CutConserves(items: seq<OutputBuffer>, dropped: seq<OutputBuffer>, free: seq<OutputBuffer>)
    ensures multiset(items + (dropped + free)) == multiset((items + dropped) + free)
  {
    assert items + (dropped + free) == (items + dropped) + free;
  }

  method New(pool: Pool, heads: seq<OutputBuffer>, ghost chains: seq<seq<OutputBuffer>>, ghost s: State)
    returns (heads': seq<OutputBuffer>, ghost chains': seq<seq<OutputBuffer>>)
    requires System(pool, heads, chains) && Shows(pool, chains, s)
    modifies pool, Storage(Flat(chains), pool.free)
    ensures PeakKept(old(pool.maxUsedOutputBuffers), pool.maxUsedOutputBuffers, pool.usedOutputBuffers)
    ensures old(pool.free) == [] ==> chains' == chains
    ensures old(pool.free) != [] ==> chains' == chains + [[old(pool.free)[0]]] && Contents([old(pool.free)[0]]) == []
    ensures System(pool, heads', chains') && Storage(Flat(chains'), pool.free) == old(Storage(Flat(chains), pool.free))
    ensures |heads'| == |heads| + 1 <==> old(pool.free) != []
    ensures Shows(pool, chains', Next(s, Allocate, pool.bufferCount))
  {
    hide *;
    SystemSizes(pool, heads, chains);
    FreeEntry(pool, heads, chains);
    AllShown(pool, chains, s);
    ghost var free := pool.free;
    var buf := pool.Allocate();
    PeakIs(old(pool.maxUsedOutputBuffers), pool.maxUsedOutputBuffers, pool.usedOutputBuffers);
    heads', chains' := heads, chains;
    if buf != null {
      heads', chains' := heads + [buf], chains + [[buf]];
      LiveSome(pool, [buf]);
      NewIsEmpty(buf);
      Alone(buf);
      NewOne(chains, free, buf);
      assert forall j | 0 <= j < |chains| :: chains'[j] == chains[j];
    }
    NewShows(pool, chains, s, buf);
    Rearranged(pool, chains, free, heads', chains');
  }

  lemma {:induction false} AllShown(pool: Pool, chains: seq<seq<OutputBuffer>>, s: State)
    requires Shows(pool, chains, s)
    ensures Whole(s, pool.bufferCount) && |s.chains| == |chains| && s.free == |pool.free|
    ensures s.peak == pool.maxUsedOutputBuffers
    ensures forall j | 0 <= j < |chains| :: Showing(chains[j]) == s.chains[j]
  {
  }

  lemma {:induction false} NewShows(pool: Pool, chains: seq<seq<OutputBuffer>>, s: State, buf: OutputBuffer?)
    requires Whole(s, pool.bufferCount) && |chains| == |s.chains| && pool.Valid()
    requires forall j | 0 <= j < |chains| :: Showing(chains[j]) == s.chains[j]
    requires buf == null <==> s.free == 0
    requires |pool.free| == if buf == null then s.free else s.free - 1
    requires PeakKept(s.peak, pool.maxUsedOutputBuffers, pool.usedOutputBuffers)
    requires buf != null ==> buf.dataLength == 0 && Contents([buf]) == []
    ensures Shows(pool, if buf == null then chains else chains + [[buf]], Next(s, Allocate, pool.bufferCount))
  {
    hide Contents, Buffers;
    if buf != null {
      assert Sizes([buf]) == [0];
      assert Showing([buf]) == Block("", [0]);
    }
  }

  lemma {:induction false} FreeEntry(pool: Pool, heads: seq<OutputBuffer>, chains: seq<seq<OutputBuffer>>)
    requires System(pool, heads, chains)
    ensures pool.Valid() && forall j | 0 <= j < |chains| :: Chain(chains[j]) && Sole(chains[j])
    ensures forall i, j, k | 0 <= i < |pool.free| && 0 <= j < |chains| && 0 <= k < |chains[j]| ::
      pool.free[i] != chains[j][k]
    ensures forall i | 0 <= i < |pool.free| :: pool.free[i] in Storage(Flat(chains), pool.free)
    ensures Distinct(Flat(chains) + pool.free) && |Flat(chains) + pool.free| == pool.bufferCount
  {
    InStorage(Flat(chains), pool.free);
    forall i, j, k | 0 <= i < |pool.free| && 0 <= j < |chains| && 0 <= k < |chains[j]|
      ensures pool.free[i] != chains[j][k]
    {
      AllInFlat(chains, j);
      var flat := Flat(chains);
      assert chains[j][k] in flat;
      var p :| 0 <= p < |flat| && flat[p] == chains[j][k];
      assert (flat + pool.free)[p] == flat[p] && (flat + pool.free)[|flat| + i] == pool.free[i];
    }
  }

  lemma {:induction false} Alone(buf: OutputBuffer)
    requires buf.references == 1 && !buf.isReferenced
    ensures Sole([buf])
  {
  }

  lemma {:induction false} NewOne(chains: seq<seq<OutputBuffer>>, free: seq<OutputBuffer>, buf: OutputBuffer)
    requires free != [] && buf == free[0]
    ensures multiset(Flat(chains + [[buf]]) + free[1..]) == multiset(Flat(chains) + free)
    ensures forall b | b in [buf] :: b == buf
  {
    FlatJoins(chains, [[buf]]);
    FlatOne([buf]);
    assert Flat(chains) + [buf] + free[1..] == Flat(chains) + free;
  }

  method Drop(pool: Pool, heads: seq<OutputBuffer>, i: nat, ghost chains: seq<seq<OutputBuffer>>, ghost s: State)
    returns (heads': seq<OutputBuffer>, ghost chains': seq<seq<OutputBuffer>>)
    requires System(pool, heads, chains) && i < |heads| && Shows(pool, chains, s)
    modifies pool, Storage(Flat(chains), pool.free)
    ensures PeakKept(old(pool.maxUsedOutputBuffers), pool.maxUsedOutputBuffers, pool.usedOutputBuffers)
    ensures chains' == chains[..i] + chains[i + 1..] && pool.free == Reversed(chains[i]) + old(pool.free)
    ensures Shows(pool, chains', Next(s, Release(i), pool.bufferCount))
    ensures System(pool, heads', chains') && Storage(Flat(chains'), pool.free) == old(Storage(Flat(chains), pool.free))
  {
    hide *;
    SystemSizes(pool, heads, chains);
    Entry(pool, heads, chains, i);
    InStorage(chains[i], pool.free);
    HeadAt(chains[i]);
    LiveSome(pool, chains[i]);
    ghost var free := pool.free;
    ShownBefore(pool, heads, chains, s, i);
    SoleIs(chains[i]);
    pool.ReleaseAll(heads[i], chains[i]);
    ReversedLength(chains[i]);
    DropShows(pool, chains, s, i);
    heads', chains' := heads[..i] + heads[i + 1..], chains[..i] + chains[i + 1..];
    DropConserves(chains, i, free);
    assert forall j | 0 <= j < |chains'| ::
      chains'[j] == chains[if j < i then j else j + 1] && heads'[j] == heads[if j < i then j else j + 1];
    Rearranged(pool, chains, free, heads', chains');
    InUseWithin(pool, heads', chains');
  }

  lemma {:induction false} DropShows(pool: Pool, chains: seq<seq<OutputBuffer>>, s: State, i: nat)
    requires Whole(s, pool.bufferCount) && i < |chains| == |s.chains|
    requires forall j | 0 <= j < |chains| && j != i :: Showing(chains[j]) == s.chains[j]
    requires |pool.free| == s.free + |s.chains[i].sizes| && pool.maxUsedOutputBuffers == s.peak
    ensures Shows(pool, chains[..i] + chains[i + 1..], Next(s, Release(i), pool.bufferCount))
  {
    hide Whole, Showing;
    var chains' := Dropped(chains, i);
    var s' := Next(s, Release(i), pool.bufferCount);
    assert |s'.chains| == |chains'|;
    forall j | 0 <= j < |chains'| ensures Showing(chains'[j]) == s'.chains[j] {
      var k := if j < i then j else j + 1;
      assert chains'[j] == chains[k] && s'.chains[j] == s.chains[k];
    }
  }

  lemma {:induction false} DropConserves(chains: seq<seq<OutputBuffer>>, i: nat, free: seq<OutputBuffer>)
    requires i < |chains|
    ensures multiset(Flat(chains[..i] + chains[i + 1..]) + (Reversed(chains[i]) + free)) ==
      multiset(Flat(chains) + free)
  {
    hide Flat, Reversed;
    FlatRemove(chains, i);
    ReversedConserves(chains[i]);
    var flat, items := Flat(chains[..i] + chains[i + 1..]), Reversed(chains[i]);
    assert multiset(flat + (items + free)) == multiset(flat) + multiset(items) + multiset(free);
  }

  /** Links chain j behind chain i. */
  method Attach(pool: Pool, heads: seq<OutputBuffer>, i: nat, j: nat, ghost chains: seq<seq<OutputBuffer>>,
                ghost s: State)
    requires System(pool, heads, chains) && i < |heads| && j < |heads| && i != j && Shows(pool, chains, s)
    requires |heads| == |chains|
    modifies chains[i]`next, chains[i]`last, chains[i]`hadOverflow
    ensures pool.Valid() && Whole(s, pool.bufferCount) && |s.chains| == |chains|
    ensures Chain(chains[i] + chains[j]) && Sole(chains[i] + chains[j])
    ensures Contents(chains[i] + chains[j]) == s.chains[i].text + s.chains[j].text
    ensures s.chains[i].sizes == Sizes(chains[i]) && s.chains[j].sizes == Sizes(chains[j])
    ensures forall k | 0 <= k < |chains| && k != i && k != j :: Chain(chains[k]) && Sole(chains[k])
    ensures forall k | 0 <= k < |chains| && k != i && k != j :: Showing(chains[k]) == s.chains[k]
  {
    hide *;
    SystemSizes(pool, heads, chains);
    Entry(pool, heads, chains, i);
    InStorage(chains[i], pool.free);
    LiveSome(pool, chains[i]);
    FreeEntry(pool, heads, chains);
    BothContents(chains[i], chains[j]);
    ShownBefore(pool, heads, chains, s, i);
    ShownBefore(pool, heads, chains, s, j);
    JoinSole(chains[i], chains[j]);
    OutputMemory.Append(heads[i], heads[j], chains[i], chains[j]);
    JoinedContents(chains[i] + chains[j]);
  }

  method Join(pool: Pool, heads: seq<OutputBuffer>, i: nat, j: nat, ghost chains: seq<seq<OutputBuffer>>,
              ghost s: State)
    returns (heads': seq<OutputBuffer>, ghost chains': seq<seq<OutputBuffer>>)
    requires System(pool, heads, chains) && i < |heads| && j < |heads| && i != j && Shows(pool, chains, s)
    modifies pool, Storage(Flat(chains), pool.free)
    ensures PeakKept(old(pool.maxUsedOutputBuffers), pool.maxUsedOutputBuffers, pool.usedOutputBuffers)
    ensures var updated := chains[i := chains[i] + chains[j]]; chains' == updated[..j] + updated[j + 1..]
    ensures Contents(chains[i] + chains[j]) == old(Contents(chains[i])) + old(Contents(chains[j]))
    ensures Shows(pool, chains', Next(s, Append(i, j), pool.bufferCount))
    ensures System(pool, heads', chains') && Storage(Flat(chains'), pool.free) == old(Storage(Flat(chains), pool.free))
  {
    hide *;
    SystemSizes(pool, heads, chains);
    Entry(pool, heads, chains, i);
    InStorage(chains[i], pool.free);
    AllShown(pool, chains, s);
    ShownBefore(pool, heads, chains, s, i);
    ShownBefore(pool, heads, chains, s, j);
    Attach(pool, heads, i, j, chains, s);
    ghost var updated := chains[i := chains[i] + chains[j]];
    heads', chains' := heads[..j] + heads[j + 1..], updated[..j] + updated[j + 1..];
    JoinShows(pool, chains, s, i, j);
    JoinDone(pool, heads, chains, i, j);
    InUseWithin(pool, heads', chains');
  }

  lemma {:induction false} JoinDone(pool: Pool, heads: seq<OutputBuffer>, chains: seq<seq<OutputBuffer>>, i: nat,
                                    j: nat)
    requires pool.Valid() && |heads| == |chains| && i < |heads| && j < |heads| && i != j
    requires Chain(chains[i] + chains[j]) && Sole(chains[i] + chains[j])
    requires forall k | 0 <= k < |chains| && k != i && k != j :: Chain(chains[k]) && Sole(chains[k])
    requires forall k | 0 <= k < |chains| :: chains[k] != [] && heads[k] == chains[k][0]
    requires Distinct(Flat(chains) + pool.free) && |Flat(chains) + pool.free| == pool.bufferCount
    ensures var updated := chains[i := chains[i] + chains[j]];
      var heads', chains' := heads[..j] + heads[j + 1..], updated[..j] + updated[j + 1..];
      System(pool, heads', chains') && Storage(Flat(chains'), pool.free) == Storage(Flat(chains), pool.free)
  {
    hide Chain, Sole, Distinct, Flat, Storage, System;
    var updated := chains[i := chains[i] + chains[j]];
    var heads', chains' := heads[..j] + heads[j + 1..], updated[..j] + updated[j + 1..];
    JoinConserves(chains, i, j, pool.free);
    forall k | 0 <= k < |chains'|
      ensures chains'[k] != [] && Chain(chains'[k]) && Sole(chains'[k]) && heads'[k] == chains'[k][0]
    {
      var m := if k < j then k else k + 1;
      assert chains'[k] == updated[m] && heads'[k] == heads[m];
    }
    Rearranged(pool, chains, pool.free, heads', chains');
  }

  lemma {:induction false} JoinShows(pool: Pool, chains: seq<seq<OutputBuffer>>, s: State, i: nat, j: nat)
    requires Whole(s, pool.bufferCount) && i < |chains| == |s.chains| && j < |chains| && i != j
    requires forall k | 0 <= k < |chains| && k != i && k != j :: Showing(chains[k]) == s.chains[k]
    requires s.chains[i].sizes == Sizes(chains[i]) && s.chains[j].sizes == Sizes(chains[j])
    requires Contents(chains[i] + chains[j]) == s.chains[i].text + s.chains[j].text
    requires |pool.free| == s.free && pool.maxUsedOutputBuffers == s.peak
    ensures var updated := chains[i := chains[i] + chains[j]];
      Shows(pool, updated[..j] + updated[j + 1..], Next(s, Append(i, j), pool.bufferCount))
  {
    hide Contents, Buffers, Sizes, Proper;
    var updated := chains[i := chains[i] + chains[j]];
    var chains' := Dropped(updated, j);
    var s' := Next(s, Append(i, j), pool.bufferCount);
    assert Sizes(chains[i] + chains[j]) == Sizes(chains[i]) + Sizes(chains[j]);
    assert |s'.chains| == |chains'|;
    forall k | 0 <= k < |chains'| ensures Showing(chains'[k]) == s'.chains[k] {
      var m := if k < j then k else k + 1;
      assert chains'[k] == updated[m];
    }
  }

  lemma {:induction false} JoinConserves(chains: seq<seq<OutputBuffer>>, i: nat, j: nat, free: seq<OutputBuffer>)
    requires i < |chains| && j < |chains| && i != j
    ensures var updated := chains[i := chains[i] + chains[j]];
            multiset(Flat(updated[..j] + updated[j + 1..]) + free) == multiset(Flat(chains) + free)
  {
    hide Flat;
    var updated := chains[i := chains[i] + chains[j]];
    FlatUpdate(chains, i, chains[i] + chains[j]);
    FlatRemove(updated, j);
    var flat := Flat(updated[..j] + updated[j + 1..]);
    var x, y, m, n := multiset(chains[i]), multiset(chains[j]), multiset(flat), multiset(Flat(chains));
    assert multiset(chains[i] + chains[j]) == x + y;
    Cancel(m, n, x, y);
    assert multiset(flat + free) == m + multiset(free) && multiset(Flat(chains) + free) == n + multiset(free);
  }

  lemma {:induction false} Cancel(m: multiset<OutputBuffer>, n: multiset<OutputBuffer>,
                                  x: multiset<OutputBuffer>, y: multiset<OutputBuffer>)
    requires m + y + x == n + (x + y)
    ensures m == n
  {
    forall b: OutputBuffer ensures m[b] == n[b] {
      assert (m + y + x)[b] == (n + (x + y))[b];
    }
  }

  lemma {:induction false} JoinSole(a: seq<OutputBuffer>, b: seq<OutputBuffer>)
    requires Sole(a) && Sole(b)
    ensures Sole(a + b)
  {
  }

  method Start(bufferCount: nat, reserved: nat) returns (pool: Pool)
    ensures fresh(pool) && System(pool, [], []) && pool.bufferCount == bufferCount
    ensures pool.usedOutputBuffers == pool.maxUsedOutputBuffers == 0
    ensures forall o | o in Storage(Flat([]), pool.free) :: fresh(o)
  {
    pool := new Pool(bufferCount, reserved);
    assert Flat([]) + pool.free == pool.free;
  }

  /** Performs an operation on the pool in memory. */
  method Perform(pool: Pool, heads: seq<OutputBuffer>, op: Op, ghost chains: seq<seq<OutputBuffer>>, ghost s: State)
    returns (heads': seq<OutputBuffer>, ghost chains': seq<seq<OutputBuffer>>)
    requires System(pool, heads, chains) && Shows(pool, chains, s)
    modifies pool, Storage(Flat(chains), pool.free)
    ensures System(pool, heads', chains') && Shows(pool, chains', Next(s, op, pool.bufferCount))
    ensures Storage(Flat(chains'), pool.free) == old(Storage(Flat(chains), pool.free))
  {
    hide *;
    heads', chains' := heads, chains;
    SystemSizes(pool, heads, chains);
    AllShown(pool, chains, s);
    NotPerformed(s, op, pool.bufferCount);
    match op {
      case Allocate => heads', chains' := New(pool, heads, chains, s);
      case Release(i) => if i < |heads| { heads', chains' := Drop(pool, heads, i, chains, s); }
      case Cat(i, src) => if i < |heads| { var n; n, chains' := Write(pool, heads, i, src, chains, s); }
      case Copy(i, src) => if i < |heads| { var n; n, chains' := Replace(pool, heads, i, src, chains, s); }
      case Append(i, j) =>
        if i < |heads| && j < |heads| && i != j { heads', chains' := Join(pool, heads, i, j, chains, s); }
      case Truncate(i, n) => if i < |heads| { chains' := Cut(pool, heads, i, n, chains, s); }
    }
  }

  lemma {:induction false} NotPerformed(s: State, op: Op, total: nat)
    requires Whole(s, total)
    ensures match op {
      case Allocate => true
      case Append(i, j) => (i < |s.chains| && j < |s.chains| && i != j) || Next(s, op, total) == s
      case _ => op.i < |s.chains| || Next(s, op, total) == s
    }
  {
  }

  /** Any run of operations on a fresh pool leaves the chains, their texts and the free buffers that the run leads to.
      No two chains, nor a chain and the free list, have a buffer in common, and the recorded maximum is the greatest
      number of buffers that was in use after any operation. */
  method Run(bufferCount: nat, reserved: nat, ops: seq<Op>)
    returns (pool: Pool, heads: seq<OutputBuffer>, ghost chains: seq<seq<OutputBuffer>>)
    ensures System(pool, heads, chains) && pool.bufferCount == bufferCount
    ensures Shows(pool, chains, After(bufferCount, ops))
    ensures pool.maxUsedOutputBuffers == Highest(UsedAlong(bufferCount, ops))
  {
    hide *;
    pool := Start(bufferCount, reserved);
    heads, chains := [], [];
    RunStarts(pool, ops);
    for k := 0 to |ops|
      invariant System(pool, heads, chains) && pool.bufferCount == bufferCount && fresh(pool)
      invariant Shows(pool, chains, After(bufferCount, ops[..k]))
      invariant forall o | o in Storage(Flat(chains), pool.free) :: fresh(o)
    {
      RunGrows(bufferCount, ops, k);
      heads, chains := Perform(pool, heads, ops[k], chains, After(bufferCount, ops[..k]));
    }
    assert ops[..|ops|] == ops;
    AllShown(pool, chains, After(bufferCount, ops));
    PeakIsHighest(bufferCount, ops);
  }

  lemma {:induction false} RunStarts(pool: Pool, ops: seq<Op>)
    requires System(pool, [], []) && pool.maxUsedOutputBuffers == 0 && pool.usedOutputBuffers == 0
    ensures Shows(pool, [], After(pool.bufferCount, ops[..0]))
  {
    assert ops[..0] == [];
  }

  lemma {:induction false} RunGrows(total: nat, ops: seq<Op>, k: nat)
    requires k < |ops|
    ensures After(total, ops[..k + 1]) == Next(After(total, ops[..k]), ops[k], total)
  {
    assert ops[..k + 1][..k] == ops[..k];
  }

  lemma {:induction false} PeakIs(before: nat, after: nat, used: nat)
    requires after == Max(before, used)
    ensures PeakKept(before, after, used)
  {
  }

  lemma {:induction false} InUseWithin(pool: Pool, heads: seq<OutputBuffer>, chains: seq<seq<OutputBuffer>>)
    requires System(pool, heads, chains)
    ensures PeakKept(pool.maxUsedOutputBuffers, pool.maxUsedOutputBuffers, pool.usedOutputBuffers)
  {
  }
}
