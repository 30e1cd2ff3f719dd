/** Sending a program to a Z probe, bit by bit, from timer callbacks. */
module ZProbePrograms {
  import opened SoftTimers

  const MAX_PROGRAM_BYTES := 8
  const CALLS_PER_BYTE := 13
  const SLOTS_PER_BYTE := 14

  function Bit(b: bv8, k: nat): bool
    requires k < 8
  {
    (b >> k) & 1 != 0
  }

  /** The level of the line in each of the 14 bit slots of a byte: 0 0 1 0 b7 b6 b5 b4 /b4 b3 b2 b1 b0 /b0. */
  function Frame(b: bv8): seq<bool> {
    [false, false, true, false, Bit(b, 7), Bit(b, 6), Bit(b, 5), Bit(b, 4), !Bit(b, 4),
     Bit(b, 3), Bit(b, 2), Bit(b, 1), Bit(b, 0), !Bit(b, 0)]
  }

  /** The level of the line over a whole program, and then for good. */
  function Wave(program: seq<bv8>, slot: nat): bool
    decreases |program|
  {
    if program == [] then false
    else if slot < SLOTS_PER_BYTE then Frame(program[0])[slot]
    else Wave(program[1..], slot - SLOTS_PER_BYTE)
  }

  /** The line is set to a level, for a slot, at a time. */
  datatype Edge = Edge(slot: nat, level: bool, time: int)

  /** The level of the line in a slot: what it was last set to. */
  function LevelIn(edges: seq<Edge>, slot: nat): bool {
    if edges == [] then false
    else if edges[|edges| - 1].slot <= slot then edges[|edges| - 1].level
    else LevelIn(edges[..|edges| - 1], slot)
  }

  /** The level of the line at a time: what it was last set to. */
  function LevelAt(edges: seq<Edge>, time: int): bool {
    if edges == [] then false
    else if edges[|edges| - 1].time <= time then edges[|edges| - 1].level
    else LevelAt(edges[..|edges| - 1], time)
  }

  /** Slot s of byte j. */
  lemma {:induction false} WaveAt(program: seq<bv8>, j: nat, s: nat)
    requires j < |program| && s < SLOTS_PER_BYTE
    ensures Wave(program, SLOTS_PER_BYTE * j + s) == Frame(program[j])[s]
    decreases j
  {
    hide Frame;
    if j > 0 {
      WaveAt(program[1..], j - 1, s);
    }
  }

  /** The value of a frame: its data slots are worth 128, 64, 32, 16, and then 8, 4, 2, 1. */
  function FrameValue(levels: seq<bool>): bv8
    requires |levels| == SLOTS_PER_BYTE
  {
    (if levels[4] then 128 else 0) + (if levels[5] then 64 else 0) + (if levels[6] then 32 else 0)
    + (if levels[7] then 16 else 0) + (if levels[9] then 8 else 0) + (if levels[10] then 4 else 0)
    + (if levels[11] then 2 else 0) + (if levels[12] then 1 else 0)
  }

  /** Two zeros, a start bit and another zero, and after each half of the byte the inverse of its last bit. */
  predicate WellFramed(levels: seq<bool>)
    requires |levels| == SLOTS_PER_BYTE
  {
    !levels[0] && !levels[1] && levels[2] && !levels[3] && levels[8] != levels[7] && levels[13] != levels[12]
  }

  lemma {:induction false} FrameReadsBack(b: bv8)
    ensures FrameValue(Frame(b)) == b && WellFramed(Frame(b))
  {
  }

  ghost function SlotsOf(program: seq<bv8>, j: nat): (levels: seq<bool>)
    ensures |levels| == SLOTS_PER_BYTE
  {
    seq(SLOTS_PER_BYTE, s requires 0 <= s < SLOTS_PER_BYTE => Wave(program, SLOTS_PER_BYTE * j + s))
  }

  /** Whoever reads the line slot by slot gets the bytes of the program. */
  lemma {:induction false} WaveReadsBack(program: seq<bv8>, j: nat)
    requires j < |program|
    ensures WellFramed(SlotsOf(program, j)) && FrameValue(SlotsOf(program, j)) == program[j]
  {
    hide Frame, FrameValue, WellFramed, Wave;
    FrameLength(program[j]);
    forall s | 0 <= s < SLOTS_PER_BYTE ensures SlotsOf(program, j)[s] == Frame(program[j])[s] {
      WaveAt(program, j, s);
    }
    assert SlotsOf(program, j) == Frame(program[j]);
    FrameReadsBack(program[j]);
  }

  lemma {:induction false} FrameLength(b: bv8)
    ensures |Frame(b)| == SLOTS_PER_BYTE
  {
  }

  lemma {:induction false} WaveEnds(program: seq<bv8>, slot: nat)
    requires slot >= SLOTS_PER_BYTE * |program|
    ensures !Wave(program, slot)
    decreases |program|
  {
    if program != [] {
      WaveEnds(program[1..], slot - SLOTS_PER_BYTE);
    }
  }

  /** The next edge decides the level from its slot on. */
  lemma {:induction false} EdgeAdds(edges: seq<Edge>, e: Edge, n: nat)
    requires edges != [] ==> edges[|edges| - 1].slot < e.slot
    ensures LevelIn(edges + [e], n) == if n >= e.slot then e.level else LevelIn(edges, n)
  {
    assert (edges + [e])[..|edges|] == edges;
  }

  /** The level that callback i of a byte sets. */
  function Level(b: bv8, i: nat): bool
    requires i < CALLS_PER_BYTE
  {
    i < 12 && Frame(b)[i + 2]
  }

  lemma {:induction false} EarlyLevels(b: bv8)
    ensures Level(b, 0) && !Level(b, 1) && Level(b, 6) == !Bit(b, 4) && Level(b, 11) == !Bit(b, 0) && !Level(b, 12)
  {
    hide Bit;
  }

  lemma {:induction false} HighLevels(b: bv8, i: nat)
    requires i < CALLS_PER_BYTE
    ensures 2 <= i <= 5 ==> Level(b, i) == Bit(b, 9 - i)
  {
    hide Bit;
    assert Level(b, 2) == Bit(b, 7) && Level(b, 3) == Bit(b, 6) && Level(b, 4) == Bit(b, 5) && Level(b, 5) == Bit(b, 4);
  }

  lemma {:induction false} LowLevels(b: bv8, i: nat)
    requires i < CALLS_PER_BYTE
    ensures 7 <= i <= 10 ==> Level(b, i) == Bit(b, 10 - i)
  {
    hide Bit;
    assert Level(b, 7) == Bit(b, 3) && Level(b, 8) == Bit(b, 2) && Level(b, 9) == Bit(b, 1) && Level(b, 10) == Bit(b,
                 0);
  }

  class ZProbeProgrammer {
    const progBytes: array<bv8>
    var numBytes: nat
    var bytesSent: nat
    var bitsSent: nat
    var bitTime: nat
    var startTime: int
    var line: bool
    ghost var program: seq<bv8>
    ghost var edges: seq<Edge>

    /** A program is being sent, and up to the next callback the line has been at the right level. */
    ghost predicate Sending()
      reads this, progBytes
    {
      && progBytes.Length == MAX_PROGRAM_BYTES && bytesSent < numBytes <= MAX_PROGRAM_BYTES
      && progBytes[..numBytes] == program
      && bitsSent < CALLS_PER_BYTE && Right(edges, program, Slot())
    }

    /** The slot at the start of which the next callback is due. */
    ghost function Slot(): nat
      reads this
    {
      SLOTS_PER_BYTE * bytesSent + bitsSent + 2
    }

    constructor ()
      ensures progBytes.Length == MAX_PROGRAM_BYTES && fresh(progBytes)
    {
      progBytes := new bv8[MAX_PROGRAM_BYTES];
      numBytes, bytesSent, bitsSent, bitTime, startTime, line := 0, 0, 0, 0, 0, false;
      program, edges := [], [];
    }

    method SetZProbeModState(level: bool, ghost slot: nat, ghost time: int)
      modifies this`line, this`edges
      ensures line == level && edges == old(edges) + [Edge(slot, level, time)]
    {
      line := level;
      edges := edges + [Edge(slot, level, time)];
    }

    /** Starts sending a program. The first callback is due after two slots. */
    method SendProgram(zProbeProgram: seq<nat>, now: int, tickRate: nat) returns (when: int)
      requires progBytes.Length == MAX_PROGRAM_BYTES && 0 < |zProbeProgram| <= MAX_PROGRAM_BYTES
      modifies this, progBytes
      ensures Sending() && program == BytesOf(zProbeProgram) && bytesSent == bitsSent == 0 && startTime == now
      ensures edges == [Edge(0, false, now)]
      ensures bitTime == tickRate / 1000
      ensures when == Ticks(now + 2 * bitTime)
    {
      hide Right, BytesOf, Ticks;
      CopyProgram(zProbeProgram);
      numBytes, bytesSent, bitsSent, bitTime := |zProbeProgram|, 0, 0, tickRate / 1000;
      program, edges := progBytes[..numBytes], [];
      SetZProbeModState(false, 0, now);
      startTime := now;
      when := Ticks(startTime + 2 * bitTime);
      Begins(program, now);
      assert edges == [Edge(0, false, now)];
    }

    method CopyProgram(zProbeProgram: seq<nat>)
      requires |zProbeProgram| <= progBytes.Length
      modifies progBytes
      ensures progBytes[..|zProbeProgram|] == BytesOf(zProbeProgram)
    {
      hide BytesOf;
      var i := 0;
      while i < |zProbeProgram|
        invariant i <= |zProbeProgram| && forall k | 0 <= k < i :: progBytes[k] == (zProbeProgram[k] % 256) as bv8
      {
        progBytes[i] := (zProbeProgram[i] % 256) as bv8;
        i := i + 1;
      }
      BytesAre(zProbeProgram, progBytes[..|zProbeProgram|]);
    }

    /** A callback: sets the line, and says when the next callback is due if there is one. */
    method Interrupt(ghost time: int) returns (again: bool, when: int)
      requires Sending()
      modifies this
      ensures edges == old(edges) + [Edge(old(Slot()), Wave(old(program), old(Slot())), time)]
      ensures program == old(program) && startTime == old(startTime) && bitTime == old(bitTime)
      ensures again <==> old(bytesSent) + 1 < |program| || old(bitsSent) + 1 < CALLS_PER_BYTE
      ensures again ==> Sending() && when == Ticks(startTime + Slot() * bitTime)
      ensures again ==> bytesSent * CALLS_PER_BYTE + bitsSent == old(bytesSent * CALLS_PER_BYTE + bitsSent) + 1
      ensures !again ==> forall n: nat :: LevelIn(edges, n) == Wave(program, n)
      ensures !again ==> old(bytesSent * CALLS_PER_BYTE + bitsSent) + 1 == CALLS_PER_BYTE * |program|
    {
      hide Frame, Wave, LevelIn, Right, Ticks;
      ghost var j, i, slot := bytesSent, bitsSent, Slot();
      var nextBit := NextBit();
      Continues(edges, program, j, i, nextBit, time);
      LevelIsWave(program, j, i);
      SetZProbeModState(nextBit, slot, time);
      if bytesSent < numBytes {
        when := Ticks(startTime + (bytesSent * 14 + bitsSent + 2) * bitTime);
        return true, when;
      }
      bytesSent, numBytes := 0, 0;
      return false, 0;
    }

    /** Chooses the next level, and counts. */
    method NextBit() returns (nextBit: bool)
      requires progBytes.Length == MAX_PROGRAM_BYTES && bytesSent < numBytes <= MAX_PROGRAM_BYTES
      requires bitsSent < CALLS_PER_BYTE
      modifies this`bitsSent, this`bytesSent
      ensures nextBit == Level(progBytes[old(bytesSent)], old(bitsSent))
      ensures bitsSent == (if old(bitsSent) == 12 then 0 else old(bitsSent) + 1)
      ensures bytesSent == (if old(bitsSent) == 12 then old(bytesSent) + 1 else old(bytesSent))
    {
      hide Bit, Level, Frame;
      var step, b := bitsSent, progBytes[bytesSent];
      EarlyLevels(b);
      HighLevels(b, step);
      LowLevels(b, step);
      bitsSent := bitsSent + 1;
      if step == 0 {
        nextBit := true;
      } else if step == 1 {
        nextBit := false;
      } else if step <= 5 {
        nextBit := Bit(b, 10 - bitsSent);
      } else if step == 6 {
        nextBit := !Bit(b, 4);
      } else if step <= 10 {
        nextBit := Bit(b, 11 - bitsSent);
      } else if step == 11 {
        nextBit := !Bit(b, 0);
      } else {
        nextBit := false;
        bitsSent := 0;
        bytesSent := bytesSent + 1;
      }
    }
  }

  function BytesOf(p: seq<nat>): seq<bv8> {
    if p == [] then [] else [(p[0] % 256) as bv8] + BytesOf(p[1..])
  }

  lemma {:induction false} BytesAre(p: seq<nat>, bytes: seq<bv8>)
    requires |p| == |bytes| && forall k | 0 <= k < |p| :: bytes[k] == (p[k] % 256) as bv8
    ensures bytes == BytesOf(p)
  {
    if p != [] {
      BytesAre(p[1..], bytes[1..]);
    }
  }

  /** Before a slot the line has been at the right level. */
  ghost predicate Right(edges: seq<Edge>, program: seq<bv8>, slot: nat) {
    && (edges != [] ==> edges[|edges| - 1].slot < slot)
    && forall n: nat | n < slot :: LevelIn(edges, n) == Wave(program, n)
  }

  lemma {:induction false} Begins(program: seq<bv8>, now: int)
    requires program != []
    ensures Right([Edge(0, false, now)], program, 2)
  {
    forall n: nat | n < 2 ensures LevelIn([Edge(0, false, now)], n) == Wave(program, n) {
      WaveAt(program, 0, n);
    }
  }

  /** What callback i of byte j sets is the level of its slot: for the last one that of the next byte's first slot, or
      of the line at rest. */
  lemma {:induction false} LevelIsWave(program: seq<bv8>, j: nat, i: nat)
    requires j < |program| && i < CALLS_PER_BYTE
    ensures Level(program[j], i) == Wave(program, SLOTS_PER_BYTE * j + i + 2)
  {
    hide Wave;
    if i < 12 {
      WaveAt(program, j, i + 2);
    } else if j + 1 == |program| {
      WaveEnds(program, SLOTS_PER_BYTE * j + i + 2);
    } else {
      WaveAt(program, j + 1, 0);
    }
  }

  /** Callback i of byte j makes the line right up to the next callback, or for good if it is the last. */
  lemma {:induction false} Continues(edges: seq<Edge>, program: seq<bv8>, j: nat, i: nat, level: bool, time: int)
    requires j < |program| && i < CALLS_PER_BYTE && level == Level(program[j], i)
    requires Right(edges, program, SLOTS_PER_BYTE * j + i + 2)
    ensures var slot := SLOTS_PER_BYTE * j + i + 2; var after := edges + [Edge(slot, level, time)];
            && Right(after, program, if i == 12 then slot + 2 else slot + 1)
            && (i == 12 && j + 1 == |program| ==> forall n: nat :: LevelIn(after, n) == Wave(program, n))
  {
    hide Wave, LevelIn;
    var slot := SLOTS_PER_BYTE * j + i + 2;
    var after := edges + [Edge(slot, level, time)];
    forall n: nat | n < slot || (n == slot && i < 12) || (i == 12 && (n < slot + 2 || j + 1 == |program|))
      ensures LevelIn(after, n) == Wave(program, n)
    {
      EdgeAdds(edges, Edge(slot, level, time), n);
      if n >= slot {
        if i < 12 {
          WaveAt(program, j, i + 2);
        } else if j + 1 == |program| {
          WaveEnds(program, n);
        } else {
          WaveAt(program, j + 1, n - slot);
        }
      }
    }
  }

  /** The slot at the start of which callback c of a transmission is due: step c % 13 of byte c / 13. */
  function CallSlot(c: nat): nat { SLOTS_PER_BYTE * (c / CALLS_PER_BYTE) + c % CALLS_PER_BYTE + 2 }

  lemma {:induction false} CallSlotIs(bytes: nat, bits: nat)
    requires bits < CALLS_PER_BYTE
    ensures CallSlot(bytes * CALLS_PER_BYTE + bits) == SLOTS_PER_BYTE * bytes + bits + 2
  {
    var c := bytes * CALLS_PER_BYTE + bits;
    assert c / CALLS_PER_BYTE == bytes && c % CALLS_PER_BYTE == bits;
  }

  /** The time at which callback c of a transmission is due. */
  function CallDue(start: int, bitTime: nat, c: nat): int { start + CallSlot(c) * bitTime }

  /** How many callbacks there have been after some clock readings of the interrupt routine: there is one at a reading
      if the next is due less than the minimum interval ahead. */
  function CallsMade(start: int, bitTime: nat, interval: nat, total: nat, readings: seq<int>): (c: nat)
    ensures c <= total && c <= |readings|
  {
    if readings == [] then 0
    else
      var c := CallsMade(start, bitTime, interval, total, readings[..|readings| - 1]);
      if c < total && CallDue(start, bitTime, c) - readings[|readings| - 1] < interval then c + 1 else c
  }

  /** The readings at which the callbacks were made. */
  function CallTimes(start: int, bitTime: nat, interval: nat, total: nat, readings: seq<int>): (times: seq<int>)
    ensures |times| == CallsMade(start, bitTime, interval, total, readings)
  {
    if readings == [] then []
    else
      var c := CallsMade(start, bitTime, interval, total, readings[..|readings| - 1]);
      CallTimes(start, bitTime, interval, total, readings[..|readings| - 1])
      + if c < total && CallDue(start, bitTime, c) - readings[|readings| - 1] < interval then [readings[|readings| - 1]]
        else []
  }

  /** The line is set low at the start and then, at each of these times, to the level of a callback's slot. */
  ghost predicate Stamped(edges: seq<Edge>, program: seq<bv8>, start: int, times: seq<int>) {
    && |edges| == |times| + 1 && edges[0] == Edge(0, false, start)
    && forall k | 0 <= k < |times| :: edges[k + 1] == Edge(CallSlot(k), Wave(program, CallSlot(k)), times[k])
  }

  predicate Ordered(start: int, times: seq<int>) {
    forall i, j | 0 <= i <= j < |times| :: start <= times[i] <= times[j]
  }

  /** Callbacks are made in the order of the readings. */
  lemma {:induction false} TimesOrdered(start: int, bitTime: nat, interval: nat, total: nat, readings: seq<int>)
    requires Ordered(start, readings)
    ensures Ordered(start, CallTimes(start, bitTime, interval, total, readings))
    ensures forall t | t in CallTimes(start, bitTime, interval, total, readings) :: t in readings
  {
    hide CallDue, CallsMade, Ordered;
    if readings == [] {
      NoTimes(start);
    } else {
      var most, last := readings[..|readings| - 1], readings[|readings| - 1];
      assert readings == most + [last];
      OrderedParts(start, most, last);
      TimesOrdered(start, bitTime, interval, total, most);
      var times := CallTimes(start, bitTime, interval, total, most);
      OrderedMore(start, most, times, last);
      assert times + [] == times;
    }
  }

  lemma {:induction false} NoTimes(start: int)
    ensures Ordered(start, [])
  {
  }

  lemma {:induction false} OrderedParts(start: int, times: seq<int>, last: int)
    requires Ordered(start, times + [last])
    ensures Ordered(start, times) && start <= last && forall t | t in times :: t <= last
  {
    var all := times + [last];
    assert all[|times|] == last && forall i | 0 <= i < |times| :: all[i] == times[i];
  }

  lemma {:induction false} OrderedMore(start: int, readings: seq<int>, times: seq<int>, last: int)
    requires Ordered(start, times) && (forall t | t in times :: t in readings) && start <= last
    requires forall t | t in readings :: t <= last
    ensures Ordered(start, times + [last])
  {
    forall i | 0 <= i < |times| ensures times[i] <= last {
      assert times[i] in times;
    }
  }

  /** From the reading at which callback c is made to the next one, early or late, the line is at the level of its slot;
      before the first it is low, and after the last it stays as it is. */
  lemma {:induction false} BetweenReadings(edges: seq<Edge>, program: seq<bv8>, start: int, times: seq<int>, x: int,
                                           c: nat)
    requires Stamped(edges, program, start, times) && Ordered(start, times) && start <= x && c <= |times|
    requires (c > 0 ==> times[c - 1] <= x) && (c < |times| ==> x < times[c])
    ensures LevelAt(edges, x) == (c > 0 && Wave(program, CallSlot(c - 1)))
    decreases |times|
  {
    hide Wave, CallSlot;
    if c < |times| {
      var most := times[..|times| - 1];
      assert edges[|edges| - 1].time == times[|times| - 1] > x by {
        assert times[c] <= times[|times| - 1];
      }
      assert forall k | 0 <= k < |most| :: most[k] == times[k] && edges[..|edges| - 1][k + 1] == edges[k + 1];
      BetweenReadings(edges[..|edges| - 1], program, start, most, x, c);
    }
  }

  /** Each reading is within half the range of the clock of the time that the next callback is due. */
  predicate Comparable(start: int, bitTime: nat, interval: nat, total: nat, readings: seq<int>) {
    forall i | 0 <= i < |readings| ::
      var c := CallsMade(start, bitTime, interval, total, readings[..i]);
      c < total ==> -HALF <= CallDue(start, bitTime, c) - readings[i] < HALF
  }

  /** If every interrupt comes when the next callback is due, or later, each makes its callback. */
  lemma {:induction false} AllMade(start: int, bitTime: nat, interval: nat, total: nat, readings: seq<int>)
    requires interval > 0
    requires forall i | 0 <= i < |readings| && i < total :: CallDue(start, bitTime, i) <= readings[i]
    ensures CallsMade(start, bitTime, interval, total, readings) == if |readings| < total then |readings| else total
  {
    hide CallDue;
    if readings != [] {
      AllMade(start, bitTime, interval, total, readings[..|readings| - 1]);
    }
  }

  /**
   * Starts sending a program and serves the timer interrupt at each of the clock readings. The callbacks are made
   * exactly at the readings of CallsMade, callback c for the tick count of its slot. Up to the slot of the next
   * callback the line follows the frames of the bytes, and its timer is pending for that; after 13 callbacks for each
   * byte nothing is pending, and the line has followed all the frames and stays low. If the first callback is
   * imminent already when it is scheduled, nothing is sent.
   */
  method Transmit(z: ZProbeProgrammer, q: TimerQueue, timer: SoftTimer, zProbeProgram: seq<nat>, now: int, time: int,
                  later: int, tickRate: nat, readings: seq<int>)
    returns (dues: seq<int>)
    requires z.progBytes.Length == MAX_PROGRAM_BYTES && 0 < |zProbeProgram| <= MAX_PROGRAM_BYTES
    requires q.Valid() && forall e | e in q.queue.pending :: e.timer == timer
    requires now <= time <= later < now + HALF && 2 * (tickRate / 1000) < HALF
    requires Comparable(now, tickRate / 1000, q.interval, CALLS_PER_BYTE * |zProbeProgram|, readings)
    modifies z, z.progBytes, q, timer
    ensures var bitTime, total := tickRate / 1000, CALLS_PER_BYTE * |zProbeProgram|;
      if now + 2 * bitTime - later < q.interval
      then dues == [] && z.edges == [Edge(0, false, now)] && q.queue.pending == []
      else Transmitted(z, q.queue, timer, zProbeProgram, now, bitTime,
                       CallTimes(now, bitTime, q.interval, total, readings), dues)
  {
    hide Ticks, BytesOf, CallSlot, CallDue, List, Sorted, Ticking, CallsMade, CallTimes, InProgress;
    var imminent := Begin(z, q, timer, zProbeProgram, now, time, later, tickRate);
    dues := [];
    if imminent {
      return;
    }
    ghost var bitTime, total := tickRate / 1000, CALLS_PER_BYTE * |zProbeProgram|;
    ghost var times: seq<int> := [];
    NoneMade(now, bitTime, q.interval, total);
    assert readings[..0] == [];
    for i := 0 to |readings|
      invariant q.Valid() && |dues| == |times| && times == CallTimes(now, bitTime, q.interval, total, readings[..i])
      invariant InProgress(z, q.queue, timer, zProbeProgram, now, bitTime, times, dues)
    {
      MadeNext(now, bitTime, q.interval, total, readings, i);
      var made, due := ServeReading(z, q, timer, readings[i], zProbeProgram, now, bitTime, times, dues);
      if made {
        times := times + [readings[i]];
        dues := dues + [due];
      }
    }
    assert readings[..|readings|] == readings;
    IsTransmitted(z, q.queue, timer, zProbeProgram, now, bitTime, times, dues);
  }

  /** Starts sending: the timer is cancelled, the line set low, and the first callback scheduled. */
  method Begin(z: ZProbeProgrammer, q: TimerQueue, timer: SoftTimer, zProbeProgram: seq<nat>, now: int, time: int,
               later: int, tickRate: nat)
    returns (imminent: bool)
    requires z.progBytes.Length == MAX_PROGRAM_BYTES && 0 < |zProbeProgram| <= MAX_PROGRAM_BYTES
    requires q.Valid() && forall e | e in q.queue.pending :: e.timer == timer
    requires now <= time <= later < now + HALF && 2 * (tickRate / 1000) < HALF
    modifies z, z.progBytes, q, timer
    ensures q.Valid() && (imminent <==> now + 2 * (tickRate / 1000) - later < q.interval)
    ensures imminent ==> z.edges == [Edge(0, false, now)] && q.queue.pending == []
    ensures !imminent ==> InProgress(z, q.queue, timer, zProbeProgram, now, tickRate / 1000, [], [])
  {
    hide Ticks, BytesOf, CallSlot, CallDue, Place, Remove, List, Sorted, Ticking, InProgress;
    OnlyTimer(q.queue.pending, timer);
    q.CancelCallback(timer);
    var when := z.SendProgram(zProbeProgram, now, tickRate);
    PlaceAlone(Entry(timer, now + 2 * (tickRate / 1000)));
    imminent := q.ScheduleCallback(timer, now + 2 * (tickRate / 1000), time, later, now);
    if !imminent {
      Started(z, q.queue, timer, zProbeProgram, now, tickRate / 1000);
    }
  }

  lemma {:induction false} IsTransmitted(z: ZProbeProgrammer, queue: Queue, timer: SoftTimer, zProbeProgram: seq<nat>,
                                         start: int, bitTime: nat, times: seq<int>, dues: seq<int>)
    requires InProgress(z, queue, timer, zProbeProgram, start, bitTime, times, dues)
    ensures Transmitted(z, queue, timer, zProbeProgram, start, bitTime, times, dues)
  {
  }

  lemma {:induction false} NoneMade(start: int, bitTime: nat, interval: nat, total: nat)
    ensures CallsMade(start, bitTime, interval, total, []) == 0 && CallTimes(start, bitTime, interval, total, []) == []
  {
  }

  /** One reading of the clock in the interrupt routine. */
  method ServeReading(z: ZProbeProgrammer, q: TimerQueue, timer: SoftTimer, reading: int, ghost zProbeProgram: seq<nat>,
                      ghost start: int, ghost bitTime: nat, ghost times: seq<int>, ghost dues: seq<int>)
    returns (made: bool, due: int)
    requires q.Valid() && InProgress(z, q.queue, timer, zProbeProgram, start, bitTime, times, dues)
    requires |dues| < CALLS_PER_BYTE * |zProbeProgram| ==> -HALF <= CallDue(start, bitTime, |dues|) - reading < HALF
    modifies z, q, timer
    ensures q.Valid()
    ensures made <==>
      |dues| < CALLS_PER_BYTE * |zProbeProgram| && CallDue(start, bitTime, |dues|) - reading < q.interval
    ensures !made ==> InProgress(z, q.queue, timer, zProbeProgram, start, bitTime, times, dues)
    ensures made ==> InProgress(z, q.queue, timer, zProbeProgram, start, bitTime, times + [reading], dues + [due])
  {
    hide *;
    ProgressIs(z, q.queue, timer, zProbeProgram, start, bitTime, times, dues);
    QueueHead(q);
    made, due := false, 0;
    if q.pendingList != null {
      due := timer.whenDue;
      made := q.Take(reading);
      if made {
        var again, when := SendNext(z, reading, zProbeProgram, start, bitTime, times);
        if again {
          var next := CallDue(start, bitTime, |times| + 1);
          PlaceAlone(Entry(timer, next));
          q.CallAgain(timer, when, next, next);
        }
        ProgressIs(z, q.queue, timer, zProbeProgram, start, bitTime, times + [reading], dues + [due]);
      } else {
        ProgressIs(z, q.queue, timer, zProbeProgram, start, bitTime, times, dues);
      }
    }
  }

  lemma {:induction false} QueueHead(q: TimerQueue)
    requires q.Valid()
    ensures q.pendingList == null <==> q.queue.pending == []
    ensures q.queue.pending != [] ==> q.queue.pending[0].timer.whenDue == Ticks(q.queue.pending[0].due)
  {
    hide Ticks, Sorted;
    EmptyList(q.pendingList, Timers(q.queue.pending));
  }

  /** How far the programmer itself has come. */
  ghost predicate Underway(z: ZProbeProgrammer, zProbeProgram: seq<nat>, start: int, bitTime: nat, times: seq<int>)
    reads z, z.progBytes
  {
    var c := |times|;
    && Stamped(z.edges, BytesOf(zProbeProgram), start, times) && z.program == BytesOf(zProbeProgram)
    && |z.program| == |zProbeProgram| && z.startTime == start && z.bitTime == bitTime
    && if c < CALLS_PER_BYTE * |zProbeProgram| then
         && z.Sending() && c == z.bytesSent * CALLS_PER_BYTE + z.bitsSent
         && forall n: nat | n < CallSlot(c) :: LevelIn(z.edges, n) == Wave(BytesOf(zProbeProgram), n)
       else
         && c == CALLS_PER_BYTE * |zProbeProgram|
         && forall n: nat :: LevelIn(z.edges, n) == Wave(BytesOf(zProbeProgram), n)
  }

  lemma {:induction false} ProgressIs(z: ZProbeProgrammer, queue: Queue, timer: SoftTimer, zProbeProgram: seq<nat>,
                                      start: int, bitTime: nat, times: seq<int>, dues: seq<int>)
    ensures InProgress(z, queue, timer, zProbeProgram, start, bitTime, times, dues) <==>
      && Underway(z, zProbeProgram, start, bitTime, times)
      && |dues| == |times| && (forall k | 0 <= k < |dues| :: dues[k] == Ticks(CallDue(start, bitTime, k)))
      && queue.pending ==
         if |dues| < CALLS_PER_BYTE * |zProbeProgram| then [Entry(timer, CallDue(start, bitTime, |dues|))] else []
  {
    hide Ticks, BytesOf, CallSlot, CallDue, Wave, LevelIn, Stamped, Right;
  }

  /** The next callback of the programmer. */
  method SendNext(z: ZProbeProgrammer, ghost reading: int, ghost zProbeProgram: seq<nat>, ghost start: int,
                  ghost bitTime: nat, ghost times: seq<int>)
    returns (again: bool, when: int)
    requires Underway(z, zProbeProgram, start, bitTime, times) && |times| < CALLS_PER_BYTE * |zProbeProgram|
    modifies z
    ensures Underway(z, zProbeProgram, start, bitTime, times + [reading])
    ensures again <==> |times| + 1 < CALLS_PER_BYTE * |zProbeProgram|
    ensures again ==> when == Ticks(CallDue(start, bitTime, |times| + 1))
  {
    hide Ticks, BytesOf, CallSlot, CallDue, Wave, LevelIn, Stamped, ZProbeProgrammer.Sending, ZProbeProgrammer.Slot;
    SlotIs(z);
    StampAdds(z.edges, z.program, start, times, reading);
    again, when := z.Interrupt(reading);
    if again {
      SlotIs(z);
    }
  }

  lemma {:induction false} SlotIs(z: ZProbeProgrammer)
    requires z.Sending()
    ensures var c := z.bytesSent * CALLS_PER_BYTE + z.bitsSent;
      && z.Slot() == CallSlot(c) && z.startTime + z.Slot() * z.bitTime == CallDue(z.startTime, z.bitTime, c)
      && c < CALLS_PER_BYTE * |z.program| && z.bytesSent < |z.program| && z.bitsSent < CALLS_PER_BYTE
      && forall n: nat | n < CallSlot(c) :: LevelIn(z.edges, n) == Wave(z.program, n)
  {
    hide CallSlot, CallDue, Wave, LevelIn;
    NextDue(z.startTime, z.bitTime, z.bytesSent, z.bitsSent);
  }

  lemma {:induction false} StampAdds(edges: seq<Edge>, program: seq<bv8>, start: int, times: seq<int>, time: int)
    requires Stamped(edges, program, start, times)
    ensures var slot := CallSlot(|times|);
      Stamped(edges + [Edge(slot, Wave(program, slot), time)], program, start, times + [time])
  {
    hide Wave, CallSlot;
  }

  /** What has been sent after the callbacks at these times: each was made for the tick count of its slot, the next
      one is pending, and up to its slot the line is right; after the last, nothing is pending, and the line is right
      for good. */
  ghost predicate Transmitted(z: ZProbeProgrammer, queue: Queue, timer: SoftTimer, zProbeProgram: seq<nat>, start: int,
                              bitTime: nat, times: seq<int>, dues: seq<int>)
    reads z
  {
    var c := |times|;
    && |dues| == c && (forall k | 0 <= k < c :: dues[k] == Ticks(CallDue(start, bitTime, k)))
    && Stamped(z.edges, BytesOf(zProbeProgram), start, times)
    && if c < CALLS_PER_BYTE * |zProbeProgram| then
         && queue.pending == [Entry(timer, CallDue(start, bitTime, c))]
         && forall n: nat | n < CallSlot(c) :: LevelIn(z.edges, n) == Wave(BytesOf(zProbeProgram), n)
       else
         && c == CALLS_PER_BYTE * |zProbeProgram| && queue.pending == []
         && forall n: nat :: LevelIn(z.edges, n) == Wave(BytesOf(zProbeProgram), n)
  }

  ghost predicate InProgress(z: ZProbeProgrammer, queue: Queue, timer: SoftTimer, zProbeProgram: seq<nat>, start: int,
                             bitTime: nat, times: seq<int>, dues: seq<int>)
    reads z, z.progBytes
  {
    && Transmitted(z, queue, timer, zProbeProgram, start, bitTime, times, dues)
    && z.program == BytesOf(zProbeProgram) && |z.program| == |zProbeProgram| && z.startTime == start
    && z.bitTime == bitTime
    && (|dues| < CALLS_PER_BYTE * |zProbeProgram| ==>
          z.Sending() && |dues| == z.bytesSent * CALLS_PER_BYTE + z.bitsSent)
  }

  lemma {:induction false} Started(z: ZProbeProgrammer, queue: Queue, timer: SoftTimer, zProbeProgram: seq<nat>,
                                   start: int, bitTime: nat)
    requires z.Sending() && z.program == BytesOf(zProbeProgram) && z.bytesSent == z.bitsSent == 0
    requires z.startTime == start && z.bitTime == bitTime && zProbeProgram != [] && z.edges == [Edge(0, false, start)]
    requires queue.pending == [Entry(timer, start + 2 * bitTime)]
    ensures InProgress(z, queue, timer, zProbeProgram, start, bitTime, [], [])
  {
    hide Wave, LevelIn, BytesOf, CallSlot;
    BytesLength(zProbeProgram);
    CallSlotIs(0, 0);
  }

  lemma {:induction false} NextDue(start: int, bitTime: nat, bytes: nat, bits: nat)
    requires bits < CALLS_PER_BYTE
    ensures CallSlot(bytes * CALLS_PER_BYTE + bits) == SLOTS_PER_BYTE * bytes + bits + 2
    ensures CallDue(start, bitTime, bytes * CALLS_PER_BYTE + bits) ==
      start + (SLOTS_PER_BYTE * bytes + bits + 2) * bitTime
  {
    hide CallSlot;
    CallSlotIs(bytes, bits);
  }

  lemma {:induction false} MadeNext(start: int, bitTime: nat, interval: nat, total: nat, readings: seq<int>, i: nat)
    requires i < |readings|
    ensures var c := CallsMade(start, bitTime, interval, total, readings[..i]);
      CallsMade(start, bitTime, interval, total, readings[..i + 1])
      == if c < total && CallDue(start, bitTime, c) - readings[i] < interval then c + 1 else c
    ensures var c, times := CallsMade(start, bitTime, interval, total, readings[..i]),
                            CallTimes(start, bitTime, interval, total, readings[..i]);
      && |times| == c
      && CallTimes(start, bitTime, interval, total, readings[..i + 1])
         == times + if c < total && CallDue(start, bitTime, c) - readings[i] < interval then [readings[i]] else []
  {
    hide CallDue;
    assert readings[..i + 1][..i] == readings[..i];
  }

  lemma {:induction false} PlaceAlone(e: Entry)
    ensures Place([], e) == [e] && Within([], e.due) && At(e.due, e.due)
  {
  }

  lemma {:induction false} OnlyTimer(q: seq<Entry>, t: SoftTimer)
    requires forall e | e in q :: e.timer == t
    ensures Remove(q, t) == [] && forall x | x in Timers(q) :: x == t
  {
    if q != [] {
      assert q[0] in q && forall e | e in q[1..] :: e in q;
      OnlyTimer(q[1..], t);
      forall i | 0 <= i < |q| ensures Timers(q)[i] == t {
        assert q[i] in q;
      }
    }
  }

  lemma {:induction false} BytesLength(p: seq<nat>)
    ensures |BytesOf(p)| == |p|
  {
    if p != [] {
      BytesLength(p[1..]);
    }
  }
}
