/** The serial receiver shared by the Duet3D filament sensors.

An interrupt handler records the time of every pin change in a 64-entry ring;
a polled state machine turns those times back into 16-bit words. `Step` is one
pass of the poller's loop over the *unbounded* history of edges; class
`Receiver` is the ring and the fields of the firmware, proved to take exactly
those steps across wrap-around of the 32-bit clock and of the ring.
*/
module FilamentReceiver {

  const WRAP: int := 0x1_0000_0000
  const RING: nat := 64
  const DEBOUNCE_SKEW: nat := 40

  /** The nominal bit length in step clocks (656, 937 or 1171 on the supported boards). */
  type Nominal = n: nat | 100 <= n <= 0x10_0000 witness 937

  function MinBitLength(nominal: Nominal): nat { nominal * 10 / 13 }

  function MaxBitLength(nominal: Nominal): nat { nominal * 13 / 10 }

  function ErrorRecoveryTime(nominal: Nominal): nat { nominal * 8 }

  /** Unsigned 32-bit subtraction of two tick counts. */
  function Elapsed(later: int, earlier: int): (d: nat)
    ensures d < WRAP
    ensures earlier <= later ==> d <= later - earlier
    ensures earlier <= later < earlier + WRAP ==> d == later - earlier
  {
    (later - earlier) % WRAP
  }

  datatype RxdState =
    | WaitingForStartBit
    | WaitingForEndOfStartBit
    | WaitingForNibble
    | ErrorRecovery1
    | ErrorRecovery2
    | ErrorRecovery3
    | ErrorRecovery4

  /** The receiver with its ring indices unrolled into positions in the edge history. */
  datatype Rx = Rx(state: RxdState, read: nat, startBit: nat, last: nat, value: nat, nibbles: nat)

  datatype Outcome = Again | Idle | Word(value: nat) | Error

  datatype PollResult = Incomplete | Complete(measurement: nat) | Failed

  datatype Nibble = Bits(last: nat, bits: nat) | Glitch(next: nat)

  /** The outcome of the last pass of a call that gives this result. */
  function Meaning(result: PollResult): Outcome {
    match result
    case Incomplete => Idle
    case Complete(v) => Word(v)
    case Failed => Error
  }

  predicate Ready(rx: Rx, w: nat) {
    && 1 <= rx.read <= w
    && (rx.state.WaitingForEndOfStartBit? ==> rx.read < w)
    && (rx.state.WaitingForNibble? ==> rx.read <= rx.last < w && rx.nibbles < 4)
  }

  /** When bit i of a nibble is sampled, counted from the edge that started the slot before the nibble. */
  function SamplePoint(startBit: nat, i: nat): nat {
    if i == 0 then startBit * 3 / 2 else SamplePoint(startBit, i - 1) + startBit
  }

  /** How long after edge `origin` each recorded edge came. */
  function Ages(log: seq<int>, w: nat, origin: nat): (ages: seq<nat>)
    requires w <= |log| && origin < w
    ensures |ages| == w
  {
    seq(w, k requires 0 <= k < w => Elapsed(log[k], log[origin]))
  }

  /** The last edge before the sample point, given the last edge before the previous one; two further edges are a
      glitch. */
  function Sample(ages: seq<nat>, samplePoint: nat, last: nat): (next: nat)
    ensures last <= next <= last + 2 && (last < |ages| ==> next <= |ages|)
    ensures (next < last + 2 ==> next == last || next < |ages|)
  {
    if last + 1 < |ages| && ages[last + 1] < samplePoint then
      if last + 2 < |ages| && ages[last + 2] < samplePoint then last + 2 else last + 1
    else last
  }

  /** The first n of the four bits of a nibble and its stuffing bit; an index is odd exactly when its edge rises. */
  function ReadNibble(ages: seq<nat>, startBit: nat, first: nat, n: nat): (r: Nibble)
    requires first < |ages|
    ensures r.Bits? ==> first <= r.last < |ages|
    ensures r.Glitch? ==> first < r.next <= |ages|
  {
    if n == 0 then Bits(first, 0)
    else
      var so := ReadNibble(ages, startBit, first, n - 1);
      if so.Glitch? then so
      else
        var next := Sample(ages, SamplePoint(startBit, n - 1), so.last);
        if next == so.last + 2 then Glitch(next) else Bits(next, so.bits * 2 + next % 2)
  }

  function AwaitStartBit(nominal: Nominal, rx: Rx, log: seq<int>, w: nat): (Rx, Outcome)
    requires w <= |log| && 1 <= rx.read <= w
  {
    if w == rx.read then (rx, Idle)
    else if rx.read % 2 == 0 then (rx.(read := rx.read + 1), Again)
    else if Elapsed(log[rx.read], log[rx.read - 1]) < ErrorRecoveryTime(nominal) then
      (rx.(read := rx.read + 1, state := ErrorRecovery1), Again)
    else (rx.(state := WaitingForEndOfStartBit), Again)
  }

  function AwaitEndOfStartBit(nominal: Nominal, rx: Rx, log: seq<int>, now: int, w: nat): (Rx, Outcome)
    requires w <= |log| && 1 <= rx.read < w
  {
    if w - rx.read >= 2 then
      var s := Elapsed(log[rx.read + 1], log[rx.read]);
      if MinBitLength(nominal) <= s <= MaxBitLength(nominal) then
        (Rx(WaitingForNibble, rx.read + 1, s, rx.read + 1, 0, 0), Again)
      else
        (rx.(state := ErrorRecovery2, read := rx.read + 1, startBit := s, last := rx.read + 1), Again)
    else if Elapsed(now, log[rx.read]) > MaxBitLength(nominal) then
      (rx.(state := ErrorRecovery2, read := rx.read + 1), Again)
    else (rx, Idle)
  }

  function AwaitNibble(rx: Rx, log: seq<int>, now: int, w: nat): (Rx, Outcome)
    requires w <= |log| && 1 <= rx.read <= rx.last < w
  {
    if Elapsed(now, log[rx.last]) <= 13 * rx.startBit / 2 then (rx, Idle)
    else TakeNibble(rx, ReadNibble(Ages(log, w, rx.last), rx.startBit, rx.last, 5))
  }

  /** What is made of the samples of a nibble. */
  function TakeNibble(rx: Rx, read: Nibble): (Rx, Outcome)
    requires read.Glitch? ==> read.next > 0
  {
    match read
    case Glitch(next) => (rx.(state := ErrorRecovery3, read := next, last := next - 1), Again)
    case Bits(last, bits) =>
      if bits / 2 % 2 == bits % 2 then
        (rx.(state := ErrorRecovery4, read := last + 1, last := last), Again)
      else
        var v := (rx.value * 16 + bits / 2) % 0x1_0000;
        if rx.nibbles == 3 then
          (Rx(WaitingForStartBit, last + 1, rx.startBit, last, v, 4), Word(v))
        else
          (rx.(last := last, value := v, nibbles := rx.nibbles + 1), Again)
  }

  /** One pass of the poller's loop, at clock `now` with the first `w` edges recorded. */
  function Step(nominal: Nominal, rx: Rx, log: seq<int>, now: int, w: nat): (r: (Rx, Outcome))
    requires w <= |log| && Ready(rx, w)
    ensures Ready(r.0, w) && rx.read <= r.0.read
    ensures r.1.Again? ==> rx.read < r.0.read || Rank(r.0) < Rank(rx)
    ensures r.1.Word? || Recovering(r.0) ==> rx.read < r.0.read
    ensures r.1.Error? <==> Recovering(rx)
    ensures r.1.Again? || !Recovering(r.0)
  {
    match rx.state
    case WaitingForStartBit => AwaitStartBit(nominal, rx, log, w)
    case WaitingForEndOfStartBit => AwaitEndOfStartBit(nominal, rx, log, now, w)
    case WaitingForNibble => AwaitNibble(rx, log, now, w)
    case _ => (rx.(state := WaitingForStartBit), Error)
  }

  function Rank(rx: Rx): nat {
    match rx.state
    case WaitingForStartBit => 6
    case WaitingForEndOfStartBit => 5
    case WaitingForNibble => if rx.nibbles < 4 then 4 - rx.nibbles else 0
    case _ => 0
  }

  predicate Recovering(rx: Rx) {
    rx.state.ErrorRecovery1? || rx.state.ErrorRecovery2? || rx.state.ErrorRecovery3? || rx.state.ErrorRecovery4?
  }

  /** One call of the poller. Whatever the edge times, it ends, never reads past the recorded
      edges, and unless it is merely incomplete it uses up at least one edge. */
  function Poll(nominal: Nominal, rx: Rx, log: seq<int>, now: int, w: nat): (r: (Rx, PollResult))
    requires w <= |log| && Ready(rx, w)
    ensures Ready(r.0, w) && rx.read <= r.0.read && !Recovering(r.0)
    ensures !r.1.Incomplete? && !Recovering(rx) ==> rx.read < r.0.read
    decreases w - rx.read, Rank(rx)
  {
    var (next, outcome) := Step(nominal, rx, log, now, w);
    match outcome
    case Again => Poll(nominal, next, log, now, w)
    case Idle => (next, Incomplete)
    case Word(v) => (next, Complete(v))
    case Error => (next, Failed)
  }

  // ---------------------------------------------------------------- the transmitter

  /** A word as it is sent: 16 bits, most significant first, from `start` at `bit` step clocks a bit. */
  datatype FrameData = FrameData(bits: seq<bool>, start: real, bit: real)

  type Frame = f: FrameData | |f.bits| == 16 && f.bit > 0.0 witness FrameData(seq(16, _ => false), 0.0, 1.0)

  function Value(bits: seq<bool>): nat {
    if bits == [] then 0 else 2 * Value(bits[..|bits| - 1]) + (if bits[|bits| - 1] then 1 else 0)
  }

  /** The line level in bit slot p: start bit, 0, then four nibbles each followed by the inverse of its last bit. */
  predicate Level(bits: seq<bool>, p: int)
    requires |bits| == 16
  {
    if p == 0 then true
    else if 2 <= p < 22 then
      var j, b := (p - 2) / 5, (p - 2) % 5;
      if b < 4 then bits[4 * j + b] else !bits[4 * j + 3]
    else false
  }

  predicate Change(bits: seq<bool>, p: int)
    requires |bits| == 16
  {
    Level(bits, p) != Level(bits, p - 1)
  }

  /** The number of level changes before slot p. */
  function Count(bits: seq<bool>, p: nat): (n: nat)
    requires |bits| == 16
  {
    if p == 0 then 0 else Count(bits, p - 1) + (if Change(bits, p - 1) then 1 else 0)
  }

  lemma {:induction false} CountParity(bits: seq<bool>, p: nat)
    requires |bits| == 16
    ensures Count(bits, p) % 2 == Digit(Level(bits, p - 1))
  {
    if p > 0 { CountParity(bits, p - 1); }
  }

  /** The first slot from p on that starts with a level change, or 23. */
  function NextChange(bits: seq<bool>, p: nat): (q: nat)
    requires |bits| == 16 && p <= 23
    ensures p <= q <= 23 && Count(bits, q) == Count(bits, p)
    ensures q < 23 ==> Change(bits, q)
    decreases 23 - p
  {
    if p == 23 || Change(bits, p) then p else NextChange(bits, p + 1)
  }

  function Edges(f: Frame): nat { Count(f.bits, 23) }

  /** n bit lengths, as repeated addition. */
  function Span(bit: real, n: nat): real { if n == 0 then 0.0 else Span(bit, n - 1) + bit }

  function Ideal(f: Frame, p: nat): real { f.start + Span(f.bit, p) }

  predicate Near(t: int, ideal: real, tolerance: real) {
    ideal - tolerance <= t as real <= ideal + tolerance
  }

  /** The edges of `f` occupy the history from index b, each within 1/32 bit of its ideal time. */
  ghost predicate Recorded(nominal: Nominal, lag: nat, log: seq<int>, f: Frame, b: nat)
  {
    && b % 2 == 1 && b + Edges(f) <= |log|
    && (forall p: nat {:trigger Ideal(f, p)} | p <= 22 && Change(f.bits, p) && b + Count(f.bits, p) < |log| ::
          Near(log[b + Count(f.bits, p)], Ideal(f, p), f.bit / 32.0))
    // the start bit is within the accepted limits, and its end is seen before the time-out
    && b + 1 < |log|
    && MinBitLength(nominal) <= log[b + 1] - log[b] <= MaxBitLength(nominal) - lag
    // the line was idle before it, for less than the range of the clock
    && ErrorRecoveryTime(nominal) <= log[b] - log[b - 1] <= WRAP - 40 * nominal
  }

  /** Index in the history of the first edge of frame k. */
  function Base(frames: seq<Frame>, k: nat): (b: nat)
    requires k <= |frames|
    ensures b >= 1 && b % 2 == 1
  {
    if k == 0 then 1 else
      CountParity(frames[k - 1].bits, 23);
      Base(frames, k - 1) + Edges(frames[k - 1])
  }

  ghost predicate Transmission(nominal: Nominal, lag: nat, log: seq<int>, frames: seq<Frame>) {
    && lag <= MinBitLength(nominal)
    && |log| == Base(frames, |frames|)
    && (forall k: nat {:trigger Recorded(nominal, lag, log, frames[k], Base(frames, k))} | k < |frames| ::
          Recorded(nominal, lag, log, frames[k], Base(frames, k)))
  }

  /** What the poller can see at time `now`: no edge from the future, and every edge at least `lag` old. */
  ghost predicate Visible(lag: nat, log: seq<int>, now: int, w: nat) {
    && w <= |log|
    && (forall k: nat | k < w :: log[k] <= now)
    && (forall k: nat | w <= k < |log| :: now <= log[k] + lag)
  }

  // ---------------------------------------------------------------- decoding one nibble

  lemma {:induction false} SpanMonotone(bit: real, m: nat, n: nat)
    requires m <= n && bit >= 0.0
    ensures 0.0 <= Span(bit, m) <= Span(bit, n)
    decreases n
  {
    if m < n { SpanMonotone(bit, m, n - 1); }
    else if 0 < m { SpanMonotone(bit, 0, m - 1); }
  }

  lemma {:induction false} SpanAdds(bit: real, m: nat, n: nat)
    ensures Span(bit, m + n) == Span(bit, m) + Span(bit, n)
  {
    if n > 0 { SpanAdds(bit, m, n - 1); }
  }

  lemma {:induction false} SmallSpans(bit: real)
    ensures Span(bit, 1) == bit && Span(bit, 2) == 2.0 * bit && Span(bit, 3) == 3.0 * bit
    ensures Span(bit, 4) == 4.0 * bit && Span(bit, 5) == 5.0 * bit && Span(bit, 6) == 6.0 * bit
  {
    assert Span(bit, 2) == Span(bit, 1) + bit && Span(bit, 3) == Span(bit, 2) + bit;
    assert Span(bit, 5) == Span(bit, 4) + bit;
  }

  lemma {:induction false} SamplePoints(s: nat)
    ensures SamplePoint(s, 0) == s * 3 / 2 && SamplePoint(s, 1) == s * 3 / 2 + s
    ensures SamplePoint(s, 2) == s * 3 / 2 + 2 * s
    ensures SamplePoint(s, 3) == s * 3 / 2 + 3 * s && SamplePoint(s, 4) == s * 3 / 2 + 4 * s
  {
    assert SamplePoint(s, 3) == SamplePoint(s, 2) + s;
  }

  /** Sampling at 1.5, 2.5, .. 5.5 measured bit lengths falls between the right pair of slots. */
  lemma {:induction false} SampleBetweenSlots(bit: real, s: int, d: int, slots: nat, i: nat)
    requires i <= 4 && s >= 76
    requires Near(s, bit, bit / 16.0) && Near(d, Span(bit, slots), bit / 16.0)
    ensures slots == i + 1 ==> 0 <= d < SamplePoint(s, i)
    ensures slots >= i + 2 ==> SamplePoint(s, i) <= d
  {
    SmallSpans(bit);
    SamplePoints(s);
    if slots == i + 1 {
      if i == 0 {} else if i == 1 {} else if i == 2 {} else if i == 3 {} else {}
    } else if slots >= i + 2 {
      SpanMonotone(bit, i + 2, slots);
      if i == 0 {} else if i == 1 {} else if i == 2 {} else if i == 3 {} else {}
    }
  }

  /** No two edges of one frame are more than 34 nominal bits apart. */
  lemma {:induction false} FrameShort(nominal: Nominal, bit: real, s: int, d: int, slots: nat)
    requires 1 <= slots <= 21 && 76 <= s <= MaxBitLength(nominal)
    requires Near(s, bit, bit / 16.0) && Near(d, Span(bit, slots), bit / 16.0)
    ensures 0 <= d <= 34 * nominal
  {
    SmallSpans(bit);
    SpanMonotone(bit, 1, slots);
    SpanMonotone(bit, slots, 24);
    SpanAdds(bit, 6, 6);
    SpanAdds(bit, 12, 12);
  }

  lemma {:induction false} EdgeNear(nominal: Nominal, lag: nat, log: seq<int>, f: Frame, b: nat, p: nat)
    requires Recorded(nominal, lag, log, f, b) && p <= 22 && Change(f.bits, p) && b + Count(f.bits, p) < |log|
    ensures Near(log[b + Count(f.bits, p)], f.start + Span(f.bit, p), f.bit / 32.0)
  {
    hide Count, Change, Edges, Near, Span;
    assert Near(log[b + Count(f.bits, p)], Ideal(f, p), f.bit / 32.0);
  }

  lemma {:induction false} NearGap(t: int, u: int, x: real, y: real, z: real, bit: real)
    requires Near(t, x, bit / 32.0) && Near(u, y, bit / 32.0) && z == y - x
    ensures Near(u - t, z, bit / 16.0)
  {
  }

  /** Recorded edges of one frame: p and q slots in order. */
  lemma {:induction false} EdgeGap(nominal: Nominal, lag: nat, log: seq<int>, f: Frame, b: nat, p: nat, q: nat)
    requires Recorded(nominal, lag, log, f, b)
    requires p <= q <= 22 && Change(f.bits, p) && Change(f.bits, q)
    requires b + Count(f.bits, p) < |log| && b + Count(f.bits, q) < |log|
    ensures Near(log[b + Count(f.bits, q)] - log[b + Count(f.bits, p)], Span(f.bit, q - p), f.bit / 16.0)
  {
    hide *;
    EdgeNear(nominal, lag, log, f, b, p);
    EdgeNear(nominal, lag, log, f, b, q);
    SpanAdds(f.bit, p, q - p);
    NearGap(log[b + Count(f.bits, p)], log[b + Count(f.bits, q)], f.start + Span(f.bit, p), f.start + Span(f.bit, q),
            Span(f.bit, q - p), f.bit);
  }

  /** The limits on the start bit of a recorded frame, and on its edges. */
  lemma {:induction false} StartBitFacts(nominal: Nominal, lag: nat, log: seq<int>, f: Frame, b: nat)
    requires Recorded(nominal, lag, log, f, b)
    ensures b % 2 == 1 && b + 1 < |log| && b + Edges(f) <= |log| && Edges(f) == Count(f.bits, 23)
    ensures MinBitLength(nominal) <= log[b + 1] - log[b] <= MaxBitLength(nominal) - lag
  {
    hide Count, Change, Near, MinBitLength, MaxBitLength;
  }

  /** An edge of a frame at or after the anchor of nibble j. */
  lemma {:induction false} FromAnchor(nominal: Nominal, lag: nat, log: seq<int>, f: Frame, b: nat, j: nat, q: nat)
    requires Recorded(nominal, lag, log, f, b) && j < 4 && Anchor(j) <= q <= 22 && Change(f.bits, q)
    ensures var k, n, s := b + Count(f.bits, q), b + Count(f.bits, Anchor(j)), log[b + 1] - log[b];
            && n < |log| && k < b + Edges(f) <= |log| && b + 1 < |log|
            && MinBitLength(nominal) <= s <= MaxBitLength(nominal) && Near(s, f.bit, f.bit / 16.0)
            && Near(log[k] - log[n], Span(f.bit, q - Anchor(j)), f.bit / 16.0)
  {
    hide *;
    StartBitFacts(nominal, lag, log, f, b);
    AnchorIsEdge(f.bits, j);
    CountAdds(f.bits, q);
    CountMonotone(f.bits, q + 1, 23);
    StartBitNear(nominal, lag, log, f, b);
    AnchorSlot(j);
    EdgeGap(nominal, lag, log, f, b, Anchor(j), q);
  }

  lemma {:induction false} CountAdds(bits: seq<bool>, q: nat)
    requires |bits| == 16
    ensures Count(bits, q + 1) == Count(bits, q) + if Change(bits, q) then 1 else 0
  {
  }

  lemma {:induction false} AnchorSlot(j: nat)
    ensures Anchor(j) == 1 + 5 * j
  {
  }

  lemma {:induction false} StartBitNear(nominal: Nominal, lag: nat, log: seq<int>, f: Frame, b: nat)
    requires Recorded(nominal, lag, log, f, b)
    ensures 2 <= Edges(f) && Count(f.bits, 1) == 1 && Count(f.bits, 2) == 2
    ensures Near(log[b + 1] - log[b], f.bit, f.bit / 16.0)
  {
    assert Count(f.bits, 0) == 0 && Change(f.bits, 0) && Change(f.bits, 1);
    CountMonotone(f.bits, 2, 23);
    SmallSpans(f.bit);
    EdgeGap(nominal, lag, log, f, b, 0, 1);
  }

  lemma {:induction false} CountMonotone(bits: seq<bool>, p: nat, q: nat)
    requires |bits| == 16 && p <= q
    ensures Count(bits, p) <= Count(bits, q)
    decreases q
  {
    if p < q { CountMonotone(bits, p, q - 1); }
  }

  /** The slot before nibble j is the 0 after the start bit or a stuffing bit: it always starts with an edge. */
  function Anchor(j: nat): nat { 1 + 5 * j }

  /** The frame at b, and the quiet line before whatever follows it. */
  ghost predicate InFrame(nominal: Nominal, lag: nat, log: seq<int>, f: Frame, b: nat) {
    && Recorded(nominal, lag, log, f, b)
    && (b + Edges(f) < |log| ==>
          ErrorRecoveryTime(nominal) <= log[b + Edges(f)] - log[b + Edges(f) - 1] <= WRAP - 40 * nominal)
  }

  lemma {:induction false} AnchorIsEdge(bits: seq<bool>, j: nat)
    requires |bits| == 16 && j <= 4
    ensures Change(bits, Anchor(j)) && Count(bits, Anchor(j) + 1) == Count(bits, Anchor(j)) + 1
    ensures Count(bits, Anchor(j)) < Count(bits, 23)
  {
    if j > 0 {
      var p := Anchor(j);
      assert (p - 2) / 5 == j - 1 && (p - 2) % 5 == 4;
      assert (p - 3) / 5 == j - 1 && (p - 3) % 5 == 3;
    }
    CountMonotone(bits, Anchor(j) + 1, 23);
  }

  lemma {:induction false} EarlyGap(nominal: Nominal, bit: real, s: int, d: int, i: nat)
    requires i <= 4 && MinBitLength(nominal) <= s <= MaxBitLength(nominal)
    requires Near(s, bit, bit / 16.0) && Near(d, Span(bit, i + 1), bit / 16.0)
    ensures 0 <= d < SamplePoint(s, i) < WRAP
  {
    SamplePoints(s);
    SampleBetweenSlots(bit, s, d, i + 1, i);
  }

  lemma {:induction false} LateGap(nominal: Nominal, bit: real, s: int, d: int, slots: nat, i: nat)
    requires i <= 4 && MinBitLength(nominal) <= s <= MaxBitLength(nominal)
    requires Near(s, bit, bit / 16.0) && Near(d, Span(bit, slots), bit / 16.0) && i + 2 <= slots <= 21
    ensures 0 <= SamplePoint(s, i) <= d < WRAP
  {
    SampleBetweenSlots(bit, s, d, slots, i);
    FrameShort(nominal, bit, s, d, slots);
  }

  lemma {:induction false} NextWordGap(nominal: Nominal, bit: real, s: int, d: int, slots: nat, i: nat, quiet: int)
    requires i <= 4 && MinBitLength(nominal) <= s <= MaxBitLength(nominal)
    requires Near(s, bit, bit / 16.0) && Near(d, Span(bit, slots), bit / 16.0) && 1 <= slots <= 21
    requires ErrorRecoveryTime(nominal) <= quiet <= WRAP - 40 * nominal
    ensures 0 <= SamplePoint(s, i) <= d + quiet < WRAP
  {
    SamplePoints(s);
    FrameShort(nominal, bit, s, d, slots);
  }

  /** An edge at the start of sampled slot i comes before its sample point. */
  lemma {:induction false} EarlyEdge(nominal: Nominal, lag: nat, log: seq<int>, f: Frame, b: nat, j: nat, i: nat)
    requires Recorded(nominal, lag, log, f, b) && j < 4 && i <= 4
    requires Change(f.bits, Anchor(j) + 1 + i)
    ensures var k, n, s := b + Count(f.bits, Anchor(j) + 1 + i), b + Count(f.bits, Anchor(j)), log[b + 1] - log[b];
            && n < |log| && k < b + Edges(f) <= |log| && b + 1 < |log|
            && s >= 0 && 0 <= log[k] - log[n] < SamplePoint(s, i) < WRAP
  {
    hide *;
    var p, q := Anchor(j), Anchor(j) + 1 + i;
    AnchorSlot(j);
    FromAnchor(nominal, lag, log, f, b, j, q);
    EarlyGap(nominal, f.bit, log[b + 1] - log[b], log[b + Count(f.bits, q)] - log[b + Count(f.bits, p)], i);
  }

  lemma {:induction false} LateEdgeSameWord(nominal: Nominal, lag: nat, log: seq<int>, f: Frame, b: nat, j: nat,
                                            i: nat, q: nat)
    requires Recorded(nominal, lag, log, f, b) && j < 4 && i <= 4
    requires Anchor(j) + 2 + i <= q <= 22 && Change(f.bits, q)
    ensures var k, n, s := b + Count(f.bits, q), b + Count(f.bits, Anchor(j)), log[b + 1] - log[b];
            n < |log| && k < |log| && s >= 0 && 0 <= SamplePoint(s, i) <= log[k] - log[n] < WRAP
  {
    hide *;
    var p := Anchor(j);
    AnchorSlot(j);
    FromAnchor(nominal, lag, log, f, b, j, q);
    LateGap(nominal, f.bit, log[b + 1] - log[b], log[b + Count(f.bits, q)] - log[b + Count(f.bits, p)], q - p, i);
  }

  lemma {:induction false} LateEdgeNextWord(nominal: Nominal, lag: nat, log: seq<int>, f: Frame, b: nat, j: nat, i: nat)
    requires InFrame(nominal, lag, log, f, b) && j < 4 && i <= 4 && b + Edges(f) < |log|
    ensures var n, s := b + Count(f.bits, Anchor(j)), log[b + 1] - log[b];
            n < |log| && s >= 0 && 0 <= SamplePoint(s, i) <= log[b + Edges(f)] - log[n] < WRAP
  {
    hide *;
    var p := Anchor(j);
    var tail := LastChange(f.bits);
    var end := b + Edges(f);
    AnchorSlot(j);
    InFrameFacts(nominal, lag, log, f, b);
    FromAnchor(nominal, lag, log, f, b, j, tail);
    NextWordGap(nominal, f.bit, log[b + 1] - log[b], log[end - 1] - log[b + Count(f.bits, p)], tail - p, i,
                log[end] - log[end - 1]);
  }

  lemma {:induction false} InFrameFacts(nominal: Nominal, lag: nat, log: seq<int>, f: Frame, b: nat)
    requires InFrame(nominal, lag, log, f, b)
    ensures Recorded(nominal, lag, log, f, b) && Edges(f) == Count(f.bits, 23) > 0 && b + Edges(f) <= |log|
    ensures b + 1 < |log| && log[b + 1] - log[b] >= 0
    ensures b + Edges(f) < |log| ==>
          ErrorRecoveryTime(nominal) <= log[b + Edges(f)] - log[b + Edges(f) - 1] <= WRAP - 40 * nominal
  {
    hide Recorded, Count, ErrorRecoveryTime;
    StartBitFacts(nominal, lag, log, f, b);
    AnchorIsEdge(f.bits, 0);
  }

  /** The next edge after sampled slot i comes after its sample point, even if it belongs to the next word. */
  lemma {:induction false} LateEdge(nominal: Nominal, lag: nat, log: seq<int>, f: Frame, b: nat, j: nat, i: nat)
    requires InFrame(nominal, lag, log, f, b) && j < 4 && i <= 4
    requires b + Count(f.bits, Anchor(j) + 2 + i) < |log|
    ensures var k, n, s := b + Count(f.bits, Anchor(j) + 2 + i), b + Count(f.bits, Anchor(j)), log[b + 1] - log[b];
            n < |log| && s >= 0 && 0 <= SamplePoint(s, i) <= log[k] - log[n] < WRAP
  {
    hide *;
    AnchorSlot(j);
    InFrameFacts(nominal, lag, log, f, b);
    var q := NextChange(f.bits, Anchor(j) + 2 + i);
    if q <= 22 {
      LateEdgeSameWord(nominal, lag, log, f, b, j, i, q);
    } else {
      LateEdgeNextWord(nominal, lag, log, f, b, j, i);
    }
  }

  lemma {:induction false} LastChange(bits: seq<bool>) returns (tail: nat)
    requires |bits| == 16
    ensures 21 <= tail <= 22 && Change(bits, tail) && Count(bits, tail) == Count(bits, 23) - 1
  {
    AnchorIsEdge(bits, 4);
    tail := if Change(bits, 22) then 22 else 21;
  }

  /** The poller is due to decode nibble j of the frame at b. */
  ghost predicate NibbleDue(nominal: Nominal, lag: nat, log: seq<int>, now: int, w: nat, f: Frame, b: nat, j: nat) {
    && InFrame(nominal, lag, log, f, b) && j < 4 && lag <= MinBitLength(nominal)
    && Visible(lag, log, now, w)
    && b + Count(f.bits, Anchor(j)) < w
    && Elapsed(now, log[b + Count(f.bits, Anchor(j))]) > 13 * (log[b + 1] - log[b]) / 2
  }

  function Digit(bit: bool): nat { if bit then 1 else 0 }

  /** The last edge before the middle of slot n after the anchor of nibble j. */
  function Tail(f: Frame, b: nat, j: nat, n: nat): int
  {
    b + Count(f.bits, Anchor(j) + 1 + n) - 1
  }

  /** After n samples the poller is at the last edge before slot n after the anchor, and has read the slots up to it. */
  lemma {:induction false} ReadsSlots(nominal: Nominal, lag: nat, log: seq<int>, now: int, w: nat, f: Frame, b: nat,
                                      j: nat, n: nat)
    requires NibbleDue(nominal, lag, log, now, w, f, b, j) && n <= 5
    ensures 0 <= Tail(f, b, j, 0) < w && 0 <= Tail(f, b, j, n) < w
    ensures ReadNibble(Ages(log, w, Tail(f, b, j, 0)), log[b + 1] - log[b], Tail(f, b, j, 0), n) ==
            Bits(Tail(f, b, j, n), Slots(f.bits, Anchor(j) + 1, n))
  {
    hide *;
    FirstSlot(nominal, lag, log, now, w, f, b, j);
    if n == 0 {
      NoSlots(Ages(log, w, Tail(f, b, j, 0)), log[b + 1] - log[b], Tail(f, b, j, 0), f.bits, Anchor(j) + 1);
    } else {
      ReadsSlots(nominal, lag, log, now, w, f, b, j, n - 1);
      ReadsSlot(nominal, lag, log, now, w, f, b, j, n - 1);
      SlotAdds(f, b, j, n);
      var first := Tail(f, b, j, 0);
      ReadOneMore(Ages(log, w, first), log[b + 1] - log[b], first, n, Tail(f, b, j, n - 1),
                  Slots(f.bits, Anchor(j) + 1, n - 1), Tail(f, b, j, n));
    }
  }

  lemma {:induction false} FirstSlot(nominal: Nominal, lag: nat, log: seq<int>, now: int, w: nat, f: Frame, b: nat,
                                     j: nat)
    requires NibbleDue(nominal, lag, log, now, w, f, b, j)
    ensures 0 <= Tail(f, b, j, 0) < w <= |log| && b % 2 == 1 && b + 1 < |log| && log[b + 1] - log[b] >= 0
  {
    AnchorIsEdge(f.bits, j);
    StartBitNear(nominal, lag, log, f, b);
  }

  lemma {:induction false} NoSlots(ages: seq<nat>, s: nat, first: nat, bits: seq<bool>, p: nat)
    requires first < |ages| && |bits| == 16
    ensures ReadNibble(ages, s, first, 0) == Bits(first, Slots(bits, p, 0))
  {
  }

  lemma {:induction false} SlotAdds(f: Frame, b: nat, j: nat, n: nat)
    requires b % 2 == 1 && n > 0 && 0 <= Tail(f, b, j, n)
    ensures Slots(f.bits, Anchor(j) + 1, n) == Slots(f.bits, Anchor(j) + 1, n - 1) * 2 + Tail(f, b, j, n) % 2
  {
    LevelIsParity(f.bits, b, Anchor(j) + 1 + n);
  }

  lemma {:induction false} ReadOneMore(ages: seq<nat>, s: nat, first: nat, n: nat, last: nat, bits: nat, next: nat)
    requires first < |ages| && n > 0
    requires ReadNibble(ages, s, first, n - 1) == Bits(last, bits)
    requires Sample(ages, SamplePoint(s, n - 1), last) == next < last + 2
    ensures ReadNibble(ages, s, first, n) == Bits(next, bits * 2 + next % 2)
  {
  }

  lemma {:induction false} LevelIsParity(bits: seq<bool>, b: nat, p: nat)
    requires |bits| == 16 && b % 2 == 1
    ensures (b + Count(bits, p) - 1) % 2 == Digit(Level(bits, p - 1))
  {
    CountParity(bits, p);
  }

  function Slots(bits: seq<bool>, p: nat, n: nat): nat
    requires |bits| == 16
  {
    if n == 0 then 0 else Slots(bits, p, n - 1) * 2 + Digit(Level(bits, p + n - 1))
  }

  lemma {:induction false} ReadsSlot(nominal: Nominal, lag: nat, log: seq<int>, now: int, w: nat, f: Frame, b: nat,
                                     j: nat, i: nat)
    requires NibbleDue(nominal, lag, log, now, w, f, b, j) && i <= 4
    requires 0 <= Tail(f, b, j, i) < w
    ensures 0 <= Tail(f, b, j, 0) < w && 0 <= Tail(f, b, j, i + 1) < w && Tail(f, b, j, i + 1) < Tail(f, b, j, i) + 2
    ensures Sample(Ages(log, w, Tail(f, b, j, 0)), SamplePoint(log[b + 1] - log[b], i), Tail(f, b, j, i))
            == Tail(f, b, j, i + 1)
  {
    hide *;
    SlotEdges(nominal, lag, log, now, w, f, b, j, i);
    var n, last, next := Tail(f, b, j, 0), Tail(f, b, j, i), Tail(f, b, j, i + 1) + 1;
    if next < |log| {
      LateEdge(nominal, lag, log, f, b, j, i);
    }
    if next == last + 2 {
      EarlyEdge(nominal, lag, log, f, b, j, i);
    }
    SampleFinds(nominal, lag, log, now, w, n, log[b + 1] - log[b], last, next, i);
  }

  /** Where the poller is before and after a slot, in terms of edges. */
  lemma {:induction false} SlotEdges(nominal: Nominal, lag: nat, log: seq<int>, now: int, w: nat, f: Frame, b: nat,
                                     j: nat, i: nat)
    requires NibbleDue(nominal, lag, log, now, w, f, b, j) && i <= 4
    ensures InFrame(nominal, lag, log, f, b) && Recorded(nominal, lag, log, f, b) && j < 4
    ensures lag <= MinBitLength(nominal) && Visible(lag, log, now, w)
    ensures 0 <= Tail(f, b, j, 0) < w <= |log| && b + 1 < |log| && MinBitLength(nominal) <= log[b + 1] - log[b]
    ensures Elapsed(now, log[Tail(f, b, j, 0)]) > 13 * (log[b + 1] - log[b]) / 2
    ensures Tail(f, b, j, 0) == b + Count(f.bits, Anchor(j))
    ensures Tail(f, b, j, i) + 1 == b + Count(f.bits, Anchor(j) + 1 + i)
    ensures Tail(f, b, j, i + 1) + 1 == b + Count(f.bits, Anchor(j) + 2 + i)
    ensures Tail(f, b, j, i) <= Tail(f, b, j, i + 1) <= Tail(f, b, j, i) + 1
    ensures Tail(f, b, j, i + 1) > Tail(f, b, j, i) ==> Change(f.bits, Anchor(j) + 1 + i)
  {
    hide Change, Elapsed, Level;
    AnchorIsEdge(f.bits, j);
    StartBitNear(nominal, lag, log, f, b);
    VisibleWithin(lag, log, now, w);
  }

  lemma {:induction false} VisibleWithin(lag: nat, log: seq<int>, now: int, w: nat)
    requires Visible(lag, log, now, w)
    ensures w <= |log|
  {
  }

  lemma {:induction false} SampleFinds(nominal: Nominal, lag: nat, log: seq<int>, now: int, w: nat, n: nat, s: nat,
                                       last: nat, next: nat, i: nat)
    requires Visible(lag, log, now, w) && lag <= MinBitLength(nominal) <= s && n < w && i <= 4
    requires Elapsed(now, log[n]) > 13 * s / 2
    requires last < w && last + 1 <= next <= last + 2
    requires next < |log| ==> 0 <= SamplePoint(s, i) <= log[next] - log[n] < WRAP
    requires next == last + 2 ==> last + 1 < |log| && 0 <= log[last + 1] - log[n] < SamplePoint(s, i) < WRAP
    ensures next - 1 < w
    ensures Sample(Ages(log, w, n), SamplePoint(s, i), last) == next - 1
  {
    if next == last + 2 {
      SeenInTime(nominal, lag, now, s, log[n], log[last + 1], i);
    }
  }

  lemma {:induction false} SeenInTime(nominal: Nominal, lag: nat, now: int, s: int, origin: int, t: int, i: nat)
    requires lag <= MinBitLength(nominal) <= s && i <= 4 && origin <= now
    requires t - origin < SamplePoint(s, i) && Elapsed(now, origin) > 13 * s / 2
    ensures now > t + lag
  {
    SamplePoints(s);
  }

  // ---------------------------------------------------------------- edges that come during a pass

  /**
   * Sampling as the code does it when edges are recorded meanwhile. The first test sees a write pointer that may be
   * later than the one with which the pass began; the second sees that one, and behind it reads whatever the ring
   * holds.
   */
  function SampleLive(ages: seq<nat>, w: nat, seen: nat, beyond: nat -> nat, samplePoint: nat, last: nat): (next: nat)
    requires w <= seen <= |ages|
    ensures last <= next <= last + 2
  {
    if last + 1 < seen && ages[last + 1] < samplePoint then
      if last + 2 != w && (if last + 2 < w then ages[last + 2] else beyond(last + 2)) < samplePoint then last + 2
      else last + 1
    else last
  }

  /** What the five tests of a nibble see of the write pointer. */
  predicate SeenLater(seen: seq<nat>, w: nat, recorded: nat) {
    |seen| == 5 && forall i | 0 <= i < 5 :: w <= seen[i] <= recorded
  }

  function ReadLive(ages: seq<nat>, w: nat, seen: seq<nat>, beyond: nat -> nat, startBit: nat, first: nat,
                    n: nat): Nibble
    requires SeenLater(seen, w, |ages|) && n <= 5
  {
    if n == 0 then Bits(first, 0)
    else
      var so := ReadLive(ages, w, seen, beyond, startBit, first, n - 1);
      if so.Glitch? then so
      else
        var next := SampleLive(ages, w, seen[n - 1], beyond, SamplePoint(startBit, n - 1), so.last);
        if next == so.last + 2 then Glitch(next) else Bits(next, so.bits * 2 + next % 2)
  }

  /**
   * On a transmission an edge that is recorded while a nibble is decoded makes no difference, whenever it comes and
   * whatever is in the ring behind it: it is too late for all five samples.
   */
  lemma {:induction false} ReadLiveSame(nominal: Nominal, lag: nat, log: seq<int>, now: int, w: nat, f: Frame, b: nat,
                                        j: nat, seen: seq<nat>, beyond: nat -> nat, n: nat)
    requires NibbleDue(nominal, lag, log, now, w, f, b, j) && n <= 5 && SeenLater(seen, w, |log|)
    ensures 0 <= Tail(f, b, j, 0) < w <= |log| && b + 1 < |log| && log[b + 1] - log[b] >= 0
    ensures var first, s := Tail(f, b, j, 0), log[b + 1] - log[b];
      ReadLive(Ages(log, |log|, first), w, seen, beyond, s, first, n) == ReadNibble(Ages(log, w, first), s, first, n)
  {
    hide *;
    FirstSlot(nominal, lag, log, now, w, f, b, j);
    var first, s := Tail(f, b, j, 0), log[b + 1] - log[b];
    if n == 0 {
      NoneLive(Ages(log, |log|, first), Ages(log, w, first), w, seen, beyond, s, first);
    } else {
      ReadLiveSame(nominal, lag, log, now, w, f, b, j, seen, beyond, n - 1);
      ReadsSlots(nominal, lag, log, now, w, f, b, j, n - 1);
      ReadsSlots(nominal, lag, log, now, w, f, b, j, n);
      SlotAdds(f, b, j, n);
      SampleLiveSame(nominal, lag, log, now, w, f, b, j, seen, beyond, n - 1);
      LiveOneMore(Ages(log, |log|, first), w, seen, beyond, s, first, n, Tail(f, b, j, n - 1),
                  Slots(f.bits, Anchor(j) + 1, n - 1), Tail(f, b, j, n));
    }
  }

  lemma {:induction false} NoneLive(ages: seq<nat>, early: seq<nat>, w: nat, seen: seq<nat>, beyond: nat -> nat, s: nat,
                                    first: nat)
    requires SeenLater(seen, w, |ages|) && first < |early|
    ensures ReadLive(ages, w, seen, beyond, s, first, 0) == ReadNibble(early, s, first, 0)
  {
  }

  lemma {:induction false} SeenAt(seen: seq<nat>, w: nat, recorded: nat, i: nat)
    requires SeenLater(seen, w, recorded) && i < 5
    ensures i < |seen| && w <= seen[i] <= recorded
  {
  }

  lemma {:induction false} LiveOneMore(ages: seq<nat>, w: nat, seen: seq<nat>, beyond: nat -> nat, s: nat, first: nat,
                                       n: nat, last: nat, bits: nat, next: nat)
    requires SeenLater(seen, w, |ages|) && 0 < n <= 5
    requires ReadLive(ages, w, seen, beyond, s, first, n - 1) == Bits(last, bits)
    requires SampleLive(ages, w, seen[n - 1], beyond, SamplePoint(s, n - 1), last) == next < last + 2
    ensures ReadLive(ages, w, seen, beyond, s, first, n) == Bits(next, bits * 2 + next % 2)
  {
  }

  lemma {:induction false} SampleLiveSame(nominal: Nominal, lag: nat, log: seq<int>, now: int, w: nat, f: Frame, b: nat,
                                          j: nat, seen: seq<nat>, beyond: nat -> nat, i: nat)
    requires NibbleDue(nominal, lag, log, now, w, f, b, j) && i <= 4 && SeenLater(seen, w, |log|)
    requires 0 <= Tail(f, b, j, 0) < w <= |log| && b + 1 < |log| && log[b + 1] - log[b] >= 0
    requires 0 <= Tail(f, b, j, i) < w
    ensures 0 <= Tail(f, b, j, i + 1) < w && Tail(f, b, j, i + 1) < Tail(f, b, j, i) + 2
    ensures SampleLive(Ages(log, |log|, Tail(f, b, j, 0)), w, seen[i], beyond, SamplePoint(log[b + 1] - log[b], i),
                       Tail(f, b, j, i)) == Tail(f, b, j, i + 1)
  {
    hide *;
    ReadsSlot(nominal, lag, log, now, w, f, b, j, i);
    SlotEdges(nominal, lag, log, now, w, f, b, j, i);
    SeenAt(seen, w, |log|, i);
    var first, s, last := Tail(f, b, j, 0), log[b + 1] - log[b], Tail(f, b, j, i);
    if Tail(f, b, j, i + 1) == last && last + 1 < |log| {
      LateEdge(nominal, lag, log, f, b, j, i);
    }
    LiveSample(log, w, seen[i], beyond, first, s, i, last, Tail(f, b, j, i + 1));
  }

  /** An edge that is not visible at the start of the pass is not taken by the first test either. */
  lemma {:induction false} LiveSample(log: seq<int>, w: nat, seen: nat, beyond: nat -> nat, first: nat, s: nat, i: nat,
                                      last: nat, next: nat)
    requires w <= seen <= |log| && first < w && last < w && last <= next <= last + 1
    requires Sample(Ages(log, w, first), SamplePoint(s, i), last) == next < w
    requires next == last && last + 1 < |log| ==> SamplePoint(s, i) <= log[last + 1] - log[first] < WRAP
    ensures SampleLive(Ages(log, |log|, first), w, seen, beyond, SamplePoint(s, i), last) == next
  {
    hide SamplePoint;
    var early, all := Ages(log, w, first), Ages(log, |log|, first);
    assert forall k | 0 <= k < w :: all[k] == early[k];
    if next == last && last + 1 < |log| {
      assert all[last + 1] >= SamplePoint(s, i);
    }
  }

  // ---------------------------------------------------------------- decoding a transmission

  lemma {:induction false} NibbleValue(bits: seq<bool>, j: nat)
    requires |bits| == 16 && j < 4
    ensures var x := Slots(bits, Anchor(j) + 1, 5);
            && x / 2 % 2 != x % 2
            && Value(bits[..4 * j]) * 16 + x / 2 == Value(bits[..4 * (j + 1)])
  {
    hide Slots, Level, Value;
    var i := 4 * j;
    SlotOfBit(bits, j, 0);
    SlotOfBit(bits, j, 1);
    SlotOfBit(bits, j, 2);
    SlotOfBit(bits, j, 3);
    SlotOfBit(bits, j, 4);
    FiveSlots(bits, Anchor(j) + 1);
    FourBits(bits, i);
  }

  lemma {:induction false} SlotOfBit(bits: seq<bool>, j: nat, n: nat)
    requires |bits| == 16 && j < 4 && n < 5
    ensures Level(bits, Anchor(j) + 1 + n) == if n < 4 then bits[4 * j + n] else !bits[4 * j + 3]
  {
    assert (Anchor(j) + 1 + n - 2) / 5 == j;
  }

  lemma {:induction false} FiveSlots(bits: seq<bool>, p: nat)
    requires |bits| == 16 && Level(bits, p + 4) == !Level(bits, p + 3)
    ensures var x := Slots(bits, p, 5);
            && x / 2 == 8 * Digit(Level(bits, p)) + 4 * Digit(Level(bits, p + 1))
                      + 2 * Digit(Level(bits, p + 2)) + Digit(Level(bits, p + 3))
            && x / 2 % 2 != x % 2
  {
    assert Slots(bits, p, 1) == Digit(Level(bits, p));
    assert Slots(bits, p, 3) == 2 * Slots(bits, p, 2) + Digit(Level(bits, p + 2));
    assert Slots(bits, p, 5) == 2 * Slots(bits, p, 4) + Digit(Level(bits, p + 4));
  }

  lemma {:induction false} FourBits(bits: seq<bool>, i: nat)
    requires i + 4 <= |bits|
    ensures Value(bits[..i + 4]) ==
            16 * Value(bits[..i])
            + 8 * Digit(bits[i]) + 4 * Digit(bits[i + 1]) + 2 * Digit(bits[i + 2]) + Digit(bits[i + 3])
  {
    ValueGrows(bits, i);
    ValueGrows(bits, i + 1);
    ValueGrows(bits, i + 2);
    ValueGrows(bits, i + 3);
  }

  lemma {:induction false} ValueGrows(bits: seq<bool>, n: nat)
    requires n < |bits|
    ensures Value(bits[..n + 1]) == 2 * Value(bits[..n]) + Digit(bits[n])
  {
    assert bits[..n + 1][..n] == bits[..n];
  }

  lemma {:induction false} ValueBound(bits: seq<bool>, n: nat)
    requires n <= |bits| && n <= 16
    ensures Value(bits[..n]) < Power(n) <= 0x1_0000
  {
    if n > 0 {
      ValueGrows(bits, n - 1);
      ValueBound(bits, n - 1);
    }
    PowerBound(n);
  }

  function Power(n: nat): nat { if n == 0 then 1 else 2 * Power(n - 1) }

  lemma {:induction false} PowerBound(n: nat)
    requires n <= 16
    ensures Power(n) <= 0x1_0000
  {
    assert Power(4) == 16;
    assert Power(8) == 256;
    assert Power(12) == 4096;
    assert Power(16) == 65536;
    PowerMonotone(n, 16);
  }

  lemma {:induction false} PowerMonotone(m: nat, n: nat)
    requires m <= n
    ensures Power(m) <= Power(n)
  {
    if m < n { PowerMonotone(m, n - 1); }
  }

  /** The receiver has delivered the first k words and is somewhere in the reception of the next. */
  ghost predicate Tracks(log: seq<int>, frames: seq<Frame>, k: nat, rx: Rx)
  {
    && k <= |frames|
    && match rx.state {
         case WaitingForStartBit =>
           rx.read == Base(frames, k) || (0 < k && rx.read == Base(frames, k) - 1)
         case WaitingForEndOfStartBit =>
           k < |frames| && rx.read == Base(frames, k)
         case WaitingForNibble =>
           && k < |frames| && rx.nibbles < 4
           && rx.read == Base(frames, k) + 1 < |log|
           && rx.last == Tail(frames[k], Base(frames, k), rx.nibbles, 0)
           && rx.startBit == log[rx.read] - log[rx.read - 1]
           && rx.value == Value(frames[k].bits[..4 * rx.nibbles])
         case _ => false
       }
  }

  lemma {:induction false} FrameInContext(nominal: Nominal, lag: nat, log: seq<int>, frames: seq<Frame>, k: nat)
    requires Transmission(nominal, lag, log, frames) && k < |frames|
    ensures InFrame(nominal, lag, log, frames[k], Base(frames, k))
  {
    assert Recorded(nominal, lag, log, frames[k], Base(frames, k));
    assert Base(frames, k + 1) == Base(frames, k) + Edges(frames[k]);
    if k + 1 < |frames| {
      assert Recorded(nominal, lag, log, frames[k + 1], Base(frames, k + 1));
    }
  }

  /** Every pass of the poller's loop keeps to the transmission: it reports no error, and the next word exactly. */
  lemma {:induction false} StepTracks(nominal: Nominal, lag: nat, log: seq<int>, frames: seq<Frame>, k: nat, rx: Rx,
                                      now: int, w: nat)
    requires Transmission(nominal, lag, log, frames) && Visible(lag, log, now, w)
    requires Ready(rx, w) && Tracks(log, frames, k, rx)
    ensures var (rx', outcome) := Step(nominal, rx, log, now, w);
            match outcome
            case Word(v) => k < |frames| && v == Value(frames[k].bits) && Tracks(log, frames, k + 1, rx')
            case Error => false
            case _ => Tracks(log, frames, k, rx')
  {
    hide AwaitNibble, AwaitEndOfStartBit, MinBitLength, Value, Tail;
    match rx.state
    case WaitingForStartBit =>
      StartWaitTracks(nominal, lag, log, frames, k, rx, w);
    case WaitingForEndOfStartBit =>
      StartBitTracks(nominal, lag, log, frames, k, rx, now, w);
    case WaitingForNibble =>
      if Elapsed(now, log[rx.last]) > 13 * rx.startBit / 2 {
        NibbleTracks(nominal, lag, log, frames, k, rx, now, w);
      } else {
        NibbleNotDue(rx, log, now, w);
      }
  }

  lemma {:induction false} NibbleNotDue(rx: Rx, log: seq<int>, now: int, w: nat)
    requires w <= |log| && 1 <= rx.read <= rx.last < w && Elapsed(now, log[rx.last]) <= 13 * rx.startBit / 2
    ensures AwaitNibble(rx, log, now, w) == (rx, Idle)
  {
  }

  lemma {:induction false} StartWaitTracks(nominal: Nominal, lag: nat, log: seq<int>, frames: seq<Frame>, k: nat,
                                           rx: Rx, w: nat)
    requires Transmission(nominal, lag, log, frames) && w <= |log|
    requires Ready(rx, w) && Tracks(log, frames, k, rx) && rx.state.WaitingForStartBit?
    ensures var (rx', outcome) := AwaitStartBit(nominal, rx, log, w);
            (outcome.Idle? || outcome.Again?) && Tracks(log, frames, k, rx')
  {
    hide Edges, Tail, Value;
    if k < |frames| {
      assert Recorded(nominal, lag, log, frames[k], Base(frames, k));
    }
  }

  lemma {:induction false} StartBitTracks(nominal: Nominal, lag: nat, log: seq<int>, frames: seq<Frame>, k: nat,
                                          rx: Rx, now: int, w: nat)
    requires Transmission(nominal, lag, log, frames) && Visible(lag, log, now, w)
    requires Ready(rx, w) && Tracks(log, frames, k, rx) && rx.state.WaitingForEndOfStartBit?
    ensures var (rx', outcome) := AwaitEndOfStartBit(nominal, rx, log, now, w);
            (outcome.Idle? || outcome.Again?) && Tracks(log, frames, k, rx')
  {
    hide Recorded, Tail, Value, Edges, MinBitLength, MaxBitLength, Near, Count;
    var f, b := frames[k], Base(frames, k);
    assert Recorded(nominal, lag, log, f, b);
    StartBitFacts(nominal, lag, log, f, b);
    StartBitNear(nominal, lag, log, f, b);
    AnchorSlot(0);
    TailIs(f, b, 0);
    NoValue();
    LimitsOf(nominal);
    assert Tail(f, b, 0, 0) == b + 1;
    assert f.bits[..0] == [];
  }

  lemma {:induction false} NoValue()
    ensures Value([]) == 0
  {
  }

  lemma {:induction false} NibbleTracks(nominal: Nominal, lag: nat, log: seq<int>, frames: seq<Frame>, k: nat, rx: Rx,
                                        now: int, w: nat)
    requires Transmission(nominal, lag, log, frames) && Visible(lag, log, now, w)
    requires Ready(rx, w) && Tracks(log, frames, k, rx) && rx.state.WaitingForNibble?
    requires Elapsed(now, log[rx.last]) > 13 * rx.startBit / 2
    ensures var (rx', outcome) := AwaitNibble(rx, log, now, w);
            if rx.nibbles == 3 then outcome == Word(Value(frames[k].bits)) && Tracks(log, frames, k + 1, rx')
            else outcome == Again && Tracks(log, frames, k, rx')
  {
    hide Edges, Tail, Value, Elapsed, InFrame, Visible, Recorded, AwaitNibble, Anchor, MinBitLength;
    var f, b, j := frames[k], Base(frames, k), rx.nibbles;
    FrameInContext(nominal, lag, log, frames, k);
    NibbleRead(nominal, lag, log, f, b, rx, now, w);
    if j == 3 {
      assert f.bits[..16] == f.bits;
      WordEnds(f, b);
      assert Base(frames, k + 1) == b + Edges(f);
    }
  }

  lemma {:induction false} WordEnds(f: Frame, b: nat)
    ensures Tail(f, b, 4, 0) + 1 == b + Edges(f) || Tail(f, b, 4, 0) + 2 == b + Edges(f)
  {
    assert Anchor(4) + 1 == 22;
  }

  lemma {:induction false} NibbleRead(nominal: Nominal, lag: nat, log: seq<int>, f: Frame, b: nat, rx: Rx, now: int,
                                      w: nat)
    requires InFrame(nominal, lag, log, f, b) && Visible(lag, log, now, w) && lag <= MinBitLength(nominal)
    requires Ready(rx, w) && rx.state.WaitingForNibble?
    requires rx.last == Tail(f, b, rx.nibbles, 0) && rx.startBit == log[b + 1] - log[b]
    requires rx.value == Value(f.bits[..4 * rx.nibbles])
    requires Elapsed(now, log[rx.last]) > 13 * rx.startBit / 2
    ensures var last, v := Tail(f, b, rx.nibbles + 1, 0), Value(f.bits[..4 * (rx.nibbles + 1)]);
            && 0 <= last
            && AwaitNibble(rx, log, now, w) ==
               if rx.nibbles == 3 then (Rx(WaitingForStartBit, last + 1, rx.startBit, last, v, 4), Word(v))
               else (rx.(last := last, value := v, nibbles := rx.nibbles + 1), Again)
  {
    hide *;
    var j := rx.nibbles;
    NibbleStarts(nominal, lag, log, now, rx, w, f, b);
    var last, bits, v := Tail(f, b, j + 1, 0), Slots(f.bits, Anchor(j) + 1, 5), Value(f.bits[..4 * (j + 1)]);
    assert 0 <= last && ReadNibble(Ages(log, w, rx.last), rx.startBit, rx.last, 5) == Bits(last, bits) by {
      ReadsNibble(nominal, lag, log, now, w, f, b, j, rx.last, rx.startBit);
    }
    assert bits / 2 % 2 != bits % 2 && v == rx.value * 16 + bits / 2 < 0x1_0000 by {
      NibbleWorth(f.bits, j);
    }
    NibbleTaken(rx, log, now, w, last, bits, v);
  }

  lemma {:induction false} NibbleStarts(nominal: Nominal, lag: nat, log: seq<int>, now: int, rx: Rx, w: nat, f: Frame,
                                        b: nat)
    requires InFrame(nominal, lag, log, f, b) && Visible(lag, log, now, w) && Ready(rx, w) && rx.state.WaitingForNibble?
    ensures rx.nibbles < 4 && rx.last < w <= |log| && b + 1 < |log|
  {
    hide InFrame;
    InFrameFacts(nominal, lag, log, f, b);
  }

  /** The anchor of a nibble is the last edge before it. */
  lemma {:induction false} TailIs(f: Frame, b: nat, j: nat)
    requires j <= 4
    ensures Tail(f, b, j, 0) == b + Count(f.bits, Anchor(j)) && Tail(f, b, j, 5) == Tail(f, b, j + 1, 0)
  {
    hide Count, Change;
    AnchorIsEdge(f.bits, j);
    assert Anchor(j) + 1 + 5 == Anchor(j + 1) + 1;
  }

  lemma {:induction false} ReadsNibble(nominal: Nominal, lag: nat, log: seq<int>, now: int, w: nat, f: Frame, b: nat,
                                       j: nat, last: nat, s: nat)
    requires InFrame(nominal, lag, log, f, b) && Visible(lag, log, now, w) && lag <= MinBitLength(nominal) && j < 4
    requires last == Tail(f, b, j, 0) < w && s == log[b + 1] - log[b] && Elapsed(now, log[last]) > 13 * s / 2
    ensures 0 <= Tail(f, b, j + 1, 0) < w
    ensures ReadNibble(Ages(log, w, last), s, last, 5) == Bits(Tail(f, b, j + 1, 0), Slots(f.bits, Anchor(j) + 1, 5))
  {
    hide *;
    TailIs(f, b, j);
    VisibleWithin(lag, log, now, w);
    InFrameFacts(nominal, lag, log, f, b);
    IsDue(nominal, lag, log, now, w, f, b, j);
    ReadsSlots(nominal, lag, log, now, w, f, b, j, 5);
  }

  lemma {:induction false} IsDue(nominal: Nominal, lag: nat, log: seq<int>, now: int, w: nat, f: Frame, b: nat, j: nat)
    requires InFrame(nominal, lag, log, f, b) && Visible(lag, log, now, w) && lag <= MinBitLength(nominal) && j < 4
    requires b + Count(f.bits, Anchor(j)) < w <= |log| && b + 1 < |log|
    requires Elapsed(now, log[b + Count(f.bits, Anchor(j))]) > 13 * (log[b + 1] - log[b]) / 2
    ensures NibbleDue(nominal, lag, log, now, w, f, b, j)
  {
    hide InFrame, Visible, MinBitLength, Count, Anchor, Elapsed;
  }

  lemma {:induction false} NibbleWorth(bits: seq<bool>, j: nat)
    requires |bits| == 16 && j < 4
    ensures var x := Slots(bits, Anchor(j) + 1, 5);
            && x / 2 % 2 != x % 2
            && Value(bits[..4 * (j + 1)]) == Value(bits[..4 * j]) * 16 + x / 2 < 0x1_0000
  {
    NibbleValue(bits, j);
    ValueBound(bits, 4 * (j + 1));
  }

  lemma {:induction false} NibbleTaken(rx: Rx, log: seq<int>, now: int, w: nat, last: nat, bits: nat, v: nat)
    requires w <= |log| && Ready(rx, w) && rx.state.WaitingForNibble?
    requires Elapsed(now, log[rx.last]) > 13 * rx.startBit / 2
    requires ReadNibble(Ages(log, w, rx.last), rx.startBit, rx.last, 5) == Bits(last, bits)
    requires bits / 2 % 2 != bits % 2 && v == rx.value * 16 + bits / 2 < 0x1_0000
    ensures AwaitNibble(rx, log, now, w) ==
            if rx.nibbles == 3 then (Rx(WaitingForStartBit, last + 1, rx.startBit, last, v, 4), Word(v))
            else (rx.(last := last, value := v, nibbles := rx.nibbles + 1), Again)
  {
  }

  /** Frame k ended long enough ago that all its nibbles can be decoded, but within the range of the clock. */
  ghost predicate Overdue(log: seq<int>, frames: seq<Frame>, k: nat, now: int) {
    && k < |frames|
    && var b, n := Base(frames, k), Tail(frames[k], Base(frames, k), 3, 0);
       && b + 1 < |log| && 0 <= n < |log|
       && log[n] + 13 * (log[b + 1] - log[b]) / 2 < now < log[b] + WRAP
  }

  lemma {:induction false} AnchorsInOrder(nominal: Nominal, lag: nat, log: seq<int>, f: Frame, b: nat, j: nat)
    requires Recorded(nominal, lag, log, f, b) && j < 4
    ensures Tail(f, b, 0, 0) == b + 1
    ensures 0 <= Tail(f, b, j, 0) < |log| && 0 <= Tail(f, b, 3, 0) < |log|
    ensures log[b] <= log[b + 1] <= log[Tail(f, b, j, 0)] <= log[Tail(f, b, 3, 0)]
  {
    hide *;
    AnchorGap(nominal, lag, log, f, b, 0, j);
    AnchorGap(nominal, lag, log, f, b, j, 3);
    StartBitFacts(nominal, lag, log, f, b);
    StartBitNear(nominal, lag, log, f, b);
    AnchorSlot(0);
    TailIs(f, b, 0);
  }

  lemma {:induction false} AnchorGap(nominal: Nominal, lag: nat, log: seq<int>, f: Frame, b: nat, i: nat, j: nat)
    requires Recorded(nominal, lag, log, f, b) && i <= j < 4
    ensures 0 <= Tail(f, b, i, 0) < |log| && 0 <= Tail(f, b, j, 0) < |log|
    ensures b + 1 < |log| && log[b] <= log[b + 1] && log[Tail(f, b, i, 0)] <= log[Tail(f, b, j, 0)]
  {
    hide *;
    AnchorIsEdge(f.bits, j);
    AnchorSlot(i);
    AnchorSlot(j);
    FromAnchor(nominal, lag, log, f, b, i, Anchor(j));
    TailIs(f, b, i);
    TailIs(f, b, j);
    LimitsOf(nominal);
    if i < j {
      FrameShort(nominal, f.bit, log[b + 1] - log[b], log[Tail(f, b, j, 0)] - log[Tail(f, b, i, 0)],
                 Anchor(j) - Anchor(i));
    }
  }

  lemma {:induction false} LimitsOf(nominal: Nominal)
    ensures MinBitLength(nominal) >= 76 && MaxBitLength(nominal) < 2 * nominal
  {
  }

  /** A pass during which edges may be recorded: all of `log` is, in the end. */
  function StepLive(nominal: Nominal, rx: Rx, log: seq<int>, now: int, w: nat, seen: seq<nat>, beyond: nat -> nat)
    : (Rx, Outcome)
    requires w <= |log| && Ready(rx, w) && SeenLater(seen, w, |log|)
  {
    if rx.state.WaitingForNibble? && Elapsed(now, log[rx.last]) > 13 * rx.startBit / 2 then
      ReadLiveMoves(Ages(log, |log|, rx.last), w, seen, beyond, rx.startBit, rx.last, 5);
      TakeNibble(rx, ReadLive(Ages(log, |log|, rx.last), w, seen, beyond, rx.startBit, rx.last, 5))
    else Step(nominal, rx, log, now, w)
  }

  lemma {:induction false} ReadLiveMoves(ages: seq<nat>, w: nat, seen: seq<nat>, beyond: nat -> nat, startBit: nat,
                                         first: nat, n: nat)
    requires SeenLater(seen, w, |ages|) && n <= 5
    ensures var read := ReadLive(ages, w, seen, beyond, startBit, first, n);
      (read.Bits? ==> first <= read.last) && (read.Glitch? ==> first < read.next)
  {
    if n > 0 {
      ReadLiveMoves(ages, w, seen, beyond, startBit, first, n - 1);
    }
  }

  /** On a transmission such a pass is the same as one that is not disturbed. */
  lemma {:induction false} StepLiveSame(nominal: Nominal, lag: nat, log: seq<int>, frames: seq<Frame>, k: nat, rx: Rx,
                                        now: int, w: nat, seen: seq<nat>, beyond: nat -> nat)
    requires Transmission(nominal, lag, log, frames) && Visible(lag, log, now, w)
    requires Ready(rx, w) && Tracks(log, frames, k, rx) && SeenLater(seen, w, |log|)
    ensures StepLive(nominal, rx, log, now, w, seen, beyond) == Step(nominal, rx, log, now, w)
  {
    hide ReadLive, ReadNibble, TakeNibble, Value, Transmission, Visible, SeenLater, Tracks, Tail, Base, MinBitLength;
    VisibleWithin(lag, log, now, w);
    if rx.state.WaitingForNibble? && Elapsed(now, log[rx.last]) > 13 * rx.startBit / 2 {
      DueInContext(nominal, lag, log, frames, k, rx, now, w);
      var f, b := frames[k], Base(frames, k);
      ReadLiveSame(nominal, lag, log, now, w, f, b, rx.nibbles, seen, beyond, 5);
    }
  }

  lemma {:induction false} DueInContext(nominal: Nominal, lag: nat, log: seq<int>, frames: seq<Frame>, k: nat, rx: Rx,
                                        now: int, w: nat)
    requires Transmission(nominal, lag, log, frames) && Visible(lag, log, now, w) && w <= |log|
    requires Ready(rx, w) && Tracks(log, frames, k, rx) && rx.state.WaitingForNibble?
    requires Elapsed(now, log[rx.last]) > 13 * rx.startBit / 2
    ensures k < |frames|
    ensures var f, b := frames[k], Base(frames, k);
      && NibbleDue(nominal, lag, log, now, w, f, b, rx.nibbles) && b + 1 < |log|
      && rx.last == Tail(f, b, rx.nibbles, 0) && rx.startBit == log[b + 1] - log[b]
  {
    hide Transmission, Visible, Value, MinBitLength, Elapsed, Tail, NibbleDue, Count, Change;
    var f, b := frames[k], Base(frames, k);
    FrameInContext(nominal, lag, log, frames, k);
    TailIs(f, b, rx.nibbles);
    LagSmall(nominal, lag, log, frames);
    IsDue(nominal, lag, log, now, w, f, b, rx.nibbles);
  }

  lemma {:induction false} LagSmall(nominal: Nominal, lag: nat, log: seq<int>, frames: seq<Frame>)
    requires Transmission(nominal, lag, log, frames)
    ensures lag <= MinBitLength(nominal)
  {
  }

  /** The poller only goes idle when no whole frame is waiting. */
  lemma {:induction false} IdleWhenCaughtUp(nominal: Nominal, lag: nat, log: seq<int>, frames: seq<Frame>, k: nat,
                                            rx: Rx, now: int, w: nat)
    requires Transmission(nominal, lag, log, frames) && Visible(lag, log, now, w)
    requires Ready(rx, w) && Tracks(log, frames, k, rx) && Step(nominal, rx, log, now, w).1.Idle?
    ensures !Overdue(log, frames, k, now)
  {
    hide Recorded, MinBitLength, MaxBitLength, Tail, Value, ReadNibble, Ages;
    if k < |frames| && Overdue(log, frames, k, now) {
      var f, b := frames[k], Base(frames, k);
      assert Recorded(nominal, lag, log, f, b);
      StartBitFacts(nominal, lag, log, f, b);
      AnchorsInOrder(nominal, lag, log, f, b, if rx.state.WaitingForNibble? then rx.nibbles else 0);
      LimitsOf(nominal);
    }
  }

  /** A call of the poller on a transmission: a complete result is the next word, and an incomplete one means nothing
      is overdue. */
  lemma {:induction false} PollTracks(nominal: Nominal, lag: nat, log: seq<int>, frames: seq<Frame>, k: nat, rx: Rx,
                                      now: int, w: nat)
    requires Transmission(nominal, lag, log, frames) && Visible(lag, log, now, w)
    requires Ready(rx, w) && Tracks(log, frames, k, rx)
    ensures var (rx', result) := Poll(nominal, rx, log, now, w);
            match result
            case Complete(v) => k < |frames| && v == Value(frames[k].bits) && Tracks(log, frames, k + 1, rx')
            case Incomplete => Tracks(log, frames, k, rx') && !Overdue(log, frames, k, now)
            case Failed => false
    decreases w - rx.read, Rank(rx)
  {
    StepTracks(nominal, lag, log, frames, k, rx, now, w);
    var (next, outcome) := Step(nominal, rx, log, now, w);
    if outcome.Idle? {
      IdleWhenCaughtUp(nominal, lag, log, frames, k, rx, now, w);
    } else if outcome.Again? {
      PollTracks(nominal, lag, log, frames, k, next, now, w);
    }
  }

  // ---------------------------------------------------------------- the firmware's object

  /** The place of an edge in the ring, and how the firmware moves about in it. */
  function Slot(k: nat): (i: nat)
    ensures i < RING
  {
    k % RING
  }

  function Following(i: nat): (n: nat)
    ensures n < RING
  {
    (i + 1) % RING
  }

  function Preceding(i: nat): nat { (i - 1) % RING }

  function Behind(w: nat, r: nat): nat { (w - r) % RING }

  /** The tick count at a time. */
  function Clock(time: int): (c: nat)
    ensures c < WRAP
  {
    time % WRAP
  }

  lemma {:induction false} SlotsDiffer(k: nat, m: nat)
    requires k < m < k + RING
    ensures Slot(k) != Slot(m)
  {
    Unread(m, k);
  }

  lemma {:induction false} NextSlot(k: nat)
    ensures Following(Slot(k)) == Slot(k + 1)
    ensures Slot(k) % 2 == k % 2
  {
    hide Slot, Following;
    MovesOn(k);
    SlotParity(k);
  }

  lemma {:induction false} MovesOn(k: nat)
    ensures Following(Slot(k)) == Slot(k + 1)
  {
    var d, m := k / RING, k % RING;
    if m + 1 < RING {
      Remainder(k + 1, d, m + 1);
    } else {
      Remainder(k + 1, d + 1, 0);
    }
  }

  lemma {:induction false} SlotParity(k: nat)
    ensures Slot(k) % 2 == k % 2
  {
    var d, m := k / RING, k % RING;
    assert k == 2 * (32 * d) + m;
  }

  lemma {:induction false} PreviousSlot(k: nat)
    requires k > 0
    ensures Preceding(Slot(k)) == Slot(k - 1)
  {
    var d, m := k / RING, k % RING;
    if m > 0 {
      Remainder(k - 1, d, m - 1);
    } else {
      Remainder(k - 1, d - 1, RING - 1);
    }
  }

  lemma {:induction false} Unread(w: nat, r: nat)
    requires r <= w < r + RING
    ensures Behind(Slot(w), Slot(r)) == w - r
  {
    var m := w - r;
    var i := r % RING;
    if i + m < RING {
      Remainder(w, r / RING, i + m);
    } else {
      Remainder(w, r / RING + 1, i + m - RING);
    }
  }

  lemma {:induction false} SlotsRepeat(k: nat)
    ensures Slot(k + RING) == Slot(k)
  {
    Remainder(k + RING, k / RING + 1, k % RING);
  }

  lemma {:induction false} Remainder(k: nat, d: int, m: nat)
    requires k == d * RING + m && m < RING
    ensures k % RING == m
  {
  }

  lemma {:induction false} ClockDifference(later: int, earlier: int)
    ensures Elapsed(Clock(later), Clock(earlier)) == Elapsed(later, earlier)
    ensures Elapsed(Clock(later), DEBOUNCE_SKEW) == Clock(later - DEBOUNCE_SKEW)
  {
    var x, y := later / WRAP, earlier / WRAP;
    Wraps(later - earlier, Clock(later) - Clock(earlier), y - x);
    Wraps(later - DEBOUNCE_SKEW, Clock(later) - DEBOUNCE_SKEW, -x);
  }

  lemma {:induction false} Wraps(d: int, e: int, k: int)
    requires e == d + WRAP * k
    ensures e % WRAP == d % WRAP
  {
  }

  /** The ring holds the times of the edges from a given one on. */
  ghost predicate Captured(ring: array<nat>, log: seq<int>, from: int)
    reads ring
  {
    ring.Length == RING && forall k: nat | from <= k < |log| :: ring[Slot(k)] == Clock(log[k])
  }

  lemma {:induction false} CapturedLater(ring: array<nat>, log: seq<int>, from: int, later: int)
    requires Captured(ring, log, from) && from <= later
    ensures Captured(ring, log, later)
  {
    hide Slot, Clock;
  }

  lemma {:induction false} CapturedAt(ring: array<nat>, log: seq<int>, from: int, k: nat)
    requires Captured(ring, log, from) && from <= k < |log|
    ensures ring.Length == RING && ring[Slot(k)] == Clock(log[k])
  {
    hide Slot, Clock;
  }

  class Receiver {
    const nominal: Nominal
    const edgeCaptures: array<nat>
    var edgeCaptureReadPointer: nat
    var edgeCaptureWritePointer: nat
    var state: RxdState
    var startBitLength: nat
    var lastBitChangeIndex: nat
    var valueBeingAssembled: nat
    var nibblesAssembled: nat
    ghost var log: seq<int>  // every edge recorded since the buffer was initialised, in unbounded time
    ghost var rx: Rx         // the fields above with the ring unrolled

    ghost predicate Valid()
      reads this, edgeCaptures
    {
      && edgeCaptures.Length == RING
      && Ready(rx, |log|) && |log| < rx.read + RING
      && edgeCaptureReadPointer == Slot(rx.read) && edgeCaptureWritePointer == Slot(|log|)
      && state == rx.state && startBitLength == rx.startBit
      && valueBeingAssembled == rx.value && nibblesAssembled == rx.nibbles
      && (state.WaitingForNibble? ==> lastBitChangeIndex == Slot(rx.last))
      && Captured(edgeCaptures, log, rx.read - 1)
    }

    constructor (nominal: Nominal, clock: int)
      ensures Valid() && fresh(edgeCaptures) && this.nominal == nominal
      ensures log == [clock] && rx == Rx(WaitingForStartBit, 1, 0, 0, 0, 0)
    {
      this.nominal := nominal;
      var captures := new nat[RING](_ => 0);
      captures[0] := Clock(clock);
      edgeCaptures := captures;
      edgeCaptureReadPointer, edgeCaptureWritePointer := 1, 1;
      state := WaitingForStartBit;
      startBitLength, lastBitChangeIndex, valueBeingAssembled, nibblesAssembled := 0, 0, 0, 0;
      log, rx := [clock], Rx(WaitingForStartBit, 1, 0, 0, 0, 0);
    }

    /** The interrupt handler's own test for a full ring. */
    method IsFull() returns (full: bool)
      requires Valid()
      ensures full == (|log| + 1 == rx.read + RING)
    {
      hide Slot, Following, Preceding, Behind, Clock, Elapsed;
      full := Following(edgeCaptureWritePointer) == edgeCaptureReadPointer;
      NextSlot(|log|);
      SlotsRepeat(rx.read);
      if |log| + 1 < rx.read + RING { SlotsDiffer(rx.read, |log| + 1); }
    }

    /** The pin-change interrupt. An edge of the wrong polarity is ignored, a falling one is corrected for the
        debounce filter; the ring must not be full. */
    method Interrupt(pin: bool, clock: int) returns (wantReading: bool)
      requires Valid() && |log| + 1 < rx.read + RING
      modifies this`edgeCaptureWritePointer, this`log, edgeCaptures
      ensures Valid() && rx == old(rx)
      ensures log == WithEdge(old(log), pin, clock)
      ensures wantReading == (pin && |log| > |old(log)| && state.WaitingForStartBit? && rx.read == |old(log)|)
    {
      hide Slot, Following, Preceding, Behind, Clock, Elapsed;
      var now := Clock(clock);
      var writePointer := edgeCaptureWritePointer;
      wantReading := false;
      NextSlot(|log|);
      ClockDifference(clock, 0);
      if rx.read < |log| { SlotsDiffer(rx.read, |log|); }
      if pin {
        if writePointer % 2 == 0 { return; }
        if state.WaitingForStartBit? && writePointer == edgeCaptureReadPointer { wantReading := true; }
      } else {
        if writePointer % 2 != 0 { return; }
        now := Elapsed(now, DEBOUNCE_SKEW);
      }
      edgeCaptures[writePointer] := now;
      edgeCaptureWritePointer := Following(writePointer);
      forall k: nat | rx.read - 1 <= k < |log| ensures Slot(k) != writePointer { SlotsDiffer(k, |log|); }
      log := log + [if pin then clock else clock - DEBOUNCE_SKEW];
    }

    /** The time between two recorded edges, from the ring. */
    method Interval(ghost later: nat, ghost earlier: nat, laterSlot: nat, earlierSlot: nat) returns (d: nat)
      requires Valid() && rx.read - 1 <= earlier < |log| && rx.read - 1 <= later < |log|
      requires laterSlot == Slot(later) && earlierSlot == Slot(earlier)
      ensures d == Elapsed(log[later], log[earlier])
    {
      hide Slot, Following, Preceding, Behind, Clock, Elapsed;
      d := Elapsed(edgeCaptures[laterSlot], edgeCaptures[earlierSlot]);
      ClockDifference(log[later], log[earlier]);
    }

    method AwaitingStartBit() returns (again: bool)
      requires Valid() && state.WaitingForStartBit?
      modifies this`edgeCaptureReadPointer, this`state, this`rx
      ensures Valid()
      ensures (rx, if again then Again else Idle) == AwaitStartBit(nominal, old(rx), log, |log|)
    {
      hide Slot, Following, Preceding, Behind, Clock, Elapsed;
      again := false;
      NextSlot(rx.read);
      NextSlot(rx.read - 1);
      if rx.read < |log| { SlotsDiffer(rx.read, |log|); }
      if edgeCaptureWritePointer != edgeCaptureReadPointer {
        again := true;
        if edgeCaptureReadPointer % 2 == 0 {
          edgeCaptureReadPointer := Following(edgeCaptureReadPointer);
          rx := rx.(read := rx.read + 1);
        } else {
          PreviousSlot(rx.read);
          var idle := Interval(rx.read, rx.read - 1, edgeCaptureReadPointer, Preceding(edgeCaptureReadPointer));
          if idle < ErrorRecoveryTime(nominal) {
            edgeCaptureReadPointer := Following(edgeCaptureReadPointer);
            state := ErrorRecovery1;
            rx := rx.(read := rx.read + 1, state := ErrorRecovery1);
          } else {
            state := WaitingForEndOfStartBit;
            rx := rx.(state := WaitingForEndOfStartBit);
          }
        }
      }
    }

    /** Both edges of the start bit have been recorded: measures it. */
    method StartBitEnded()
      requires Valid() && state.WaitingForEndOfStartBit? && rx.read + 1 < |log|
      modifies this
      ensures Valid() && log == old(log)
      ensures (rx, Again) == AwaitEndOfStartBit(nominal, old(rx), log, 0, |log|)
    {
      hide Captured, MinBitLength, MaxBitLength, Elapsed, Slot, Following, Preceding, Behind, Clock;
      NextSlot(rx.read);
      CapturedLater(edgeCaptures, log, rx.read - 1, rx.read);
      lastBitChangeIndex := Following(edgeCaptureReadPointer);
      startBitLength := Interval(rx.read + 1, rx.read, lastBitChangeIndex, edgeCaptureReadPointer);
      edgeCaptureReadPointer := lastBitChangeIndex;
      if MinBitLength(nominal) <= startBitLength <= MaxBitLength(nominal) {
        valueBeingAssembled, nibblesAssembled := 0, 0;
        state := WaitingForNibble;
        rx := Rx(WaitingForNibble, rx.read + 1, startBitLength, rx.read + 1, 0, 0);
      } else {
        state := ErrorRecovery2;
        rx := rx.(state := ErrorRecovery2, read := rx.read + 1, startBit := startBitLength, last := rx.read + 1);
      }
    }

    method AwaitingEndOfStartBit(clock: nat, ghost now: int) returns (again: bool)
      requires Valid() && state.WaitingForEndOfStartBit? && clock == Clock(now)
      modifies this
      ensures Valid() && log == old(log)
      ensures (rx, if again then Again else Idle) == AwaitEndOfStartBit(nominal, old(rx), log, now, |log|)
    {
      hide Captured, MinBitLength, MaxBitLength, Elapsed, Slot, Following, Preceding, Behind, Clock;
      again := false;
      NextSlot(rx.read);
      Unread(|log|, rx.read);
      CapturedLater(edgeCaptures, log, rx.read - 1, rx.read);
      CapturedAt(edgeCaptures, log, rx.read - 1, rx.read);
      if Behind(edgeCaptureWritePointer, edgeCaptureReadPointer) >= 2 {
        again := true;
        StartBitEnded();
      } else {
        ClockDifference(now, log[rx.read]);
        if Elapsed(clock, edgeCaptures[edgeCaptureReadPointer]) > MaxBitLength(nominal) {
          again := true;
          edgeCaptureReadPointer := Following(edgeCaptureReadPointer);
          state := ErrorRecovery2;
          rx := rx.(state := ErrorRecovery2, read := rx.read + 1);
        }
      }
    }

    /** Samples the nibble after `lastBitChangeIndex` and its stuffing bit, finding the last edge used and the next. */
    method SampleNibble() returns (lastIndex: nat, nextIndex: nat, currentNibble: nat, glitch: bool, ghost read: Nibble)
      requires Valid() && state.WaitingForNibble?
      ensures read == ReadNibble(Ages(log, |log|, rx.last), rx.startBit, rx.last, 5)
      ensures glitch == read.Glitch?
      ensures glitch ==> nextIndex == Slot(read.next)
      ensures !glitch ==> lastIndex == Slot(read.last) && nextIndex == Slot(read.last + 1) && currentNibble == read.bits
    {
      hide *;
      NibbleStart();
      var samplePoint: nat := startBitLength * 3 / 2;
      var numBits := 0;
      lastIndex, nextIndex := lastBitChangeIndex, Following(lastBitChangeIndex);
      currentNibble, glitch := 0, false;
      ghost var ages := Ages(log, |log|, rx.last);
      read := ReadNibble(ages, startBitLength, rx.last, 0);
      SamplingStarts(ages, startBitLength, rx.last);
      while numBits < 5
        invariant numBits <= 5 && !glitch
        invariant Sampling(ages, startBitLength, rx.last, numBits, read, lastIndex, nextIndex, currentNibble,
                           samplePoint)
      {
        SamplingOn(ages, startBitLength, rx.last, numBits, read, lastIndex, nextIndex, currentNibble, samplePoint);
        lastIndex, nextIndex, glitch := Advance(read.last, lastIndex, nextIndex, samplePoint);
        numBits := numBits + 1;
        read := ReadNibble(ages, startBitLength, rx.last, numBits);
        if glitch {
          GlitchStays(ages, startBitLength, rx.last, numBits, 5);
          return;
        }
        currentNibble := currentNibble * 2 + lastIndex % 2;
        samplePoint := samplePoint + startBitLength;
      }
      SamplingEnds(ages, startBitLength, rx.last, numBits, read, lastIndex, nextIndex, currentNibble, samplePoint);
    }

    /** Where a nibble starts in the ring. */
    lemma {:induction false} NibbleStart()
      requires Valid() && state.WaitingForNibble?
      ensures rx.state.WaitingForNibble? && rx.last < |log| && startBitLength == rx.startBit
      ensures lastBitChangeIndex == Slot(rx.last) && Following(lastBitChangeIndex) == Slot(rx.last + 1)
    {
      hide Slot, Following, Captured;
      NextSlot(rx.last);
    }

    /** Moves on to the next edge if it was captured before the sample point; a second such edge is a glitch. */
    method Advance(ghost last: nat, lastIndex: nat, nextIndex: nat, samplePoint: nat)
      returns (last': nat, next': nat, glitch: bool)
      requires Valid() && rx.state.WaitingForNibble? && rx.last <= last < |log|
      requires lastIndex == Slot(last) && nextIndex == Slot(last + 1)
      ensures var sampled := Sample(Ages(log, |log|, rx.last), samplePoint, last);
              && glitch == (sampled == last + 2)
              && (if glitch then next' == Slot(sampled)
                  else last' == Slot(sampled) && next' == Slot(sampled + 1) && last' % 2 == sampled % 2)
    {
      hide Slot, Following, Preceding, Behind, Clock, Elapsed;
      NextSlot(last);
      NextSlot(last + 1);
      last', next', glitch := lastIndex, nextIndex, false;
      var early := IsEarly(last + 1, next', lastBitChangeIndex, samplePoint);
      if early {
        last' := next';
        next' := Following(last');
        glitch := IsEarly(last + 2, next', lastBitChangeIndex, samplePoint);
      }
    }

    /** Is there an edge at this ring index, captured before the sample point? */
    method IsEarly(ghost k: nat, slot: nat, nibbleStart: nat, samplePoint: nat) returns (early: bool)
      requires Valid() && rx.state.WaitingForNibble? && rx.last < k <= |log|
      requires slot == Slot(k) && nibbleStart == Slot(rx.last)
      ensures early == (k < |log| && Ages(log, |log|, rx.last)[k] < samplePoint)
    {
      hide Slot, Following, Preceding, Behind, Clock, Elapsed;
      if k < |log| { SlotsDiffer(k, |log|); }
      early := false;
      if slot != edgeCaptureWritePointer {
        var age := Interval(k, rx.last, slot, nibbleStart);
        early := age < samplePoint;
      }
    }

    method AwaitingNibble(clock: nat, ghost now: int) returns (again: bool, complete: bool)
      requires Valid() && state.WaitingForNibble? && clock == Clock(now)
      modifies this
      ensures Valid() && log == old(log) && !(again && complete)
      ensures (rx, if again then Again else if complete then Word(valueBeingAssembled) else Idle) ==
              AwaitNibble(old(rx), log, now, |log|)
    {
      hide Elapsed, ReadNibble, Captured, Ages, Slot, Following, Preceding, Behind, Clock;
      again, complete := false, false;
      CapturedAt(edgeCaptures, log, rx.read - 1, rx.last);
      ClockDifference(now, log[rx.last]);
      if Elapsed(clock, edgeCaptures[lastBitChangeIndex]) > 13 * startBitLength / 2 {
        var lastIndex, nextIndex, currentNibble, glitch;
        ghost var read;
        lastIndex, nextIndex, currentNibble, glitch, read := SampleNibble();
        CapturedLater(edgeCaptures, log, rx.read - 1, if read.Glitch? then read.next - 1 else read.last);
        if glitch {
          edgeCaptureReadPointer, state, again := nextIndex, ErrorRecovery3, true;
          rx := rx.(state := ErrorRecovery3, read := read.next, last := read.next - 1);
        } else if currentNibble / 2 % 2 == currentNibble % 2 {
          edgeCaptureReadPointer, state, again := nextIndex, ErrorRecovery4, true;
          rx := rx.(state := ErrorRecovery4, read := read.last + 1, last := read.last);
        } else {
          valueBeingAssembled := (valueBeingAssembled * 16 + currentNibble / 2) % 0x1_0000;
          nibblesAssembled := nibblesAssembled + 1;
          lastBitChangeIndex := lastIndex;
          if nibblesAssembled == 4 {
            edgeCaptureReadPointer, state, complete := nextIndex, WaitingForStartBit, true;
            rx := Rx(WaitingForStartBit, read.last + 1, rx.startBit, read.last, valueBeingAssembled, 4);
          } else {
            again := true;
            rx := rx.(last := read.last, value := valueBeingAssembled, nibbles := nibblesAssembled);
          }
        }
      }
    }

    /** One pass of the poller's loop over the edges recorded so far. */
    method Pass(clock: nat, ghost now: int) returns (again: bool, result: PollResult)
      requires Valid() && clock == Clock(now)
      modifies this
      ensures Valid() && log == old(log) && (again ==> result.Incomplete?)
      ensures (rx, if again then Again else Meaning(result)) == Step(nominal, old(rx), log, now, |log|)
    {
      hide AwaitStartBit, AwaitEndOfStartBit, AwaitNibble, Slot, Following, Preceding, Behind, Clock, Elapsed;
      result := Incomplete;
      match state {
        case WaitingForStartBit =>
          again := AwaitingStartBit();
        case WaitingForEndOfStartBit =>
          again := AwaitingEndOfStartBit(clock, now);
        case WaitingForNibble =>
          var complete;
          again, complete := AwaitingNibble(clock, now);
          if complete { result := Complete(valueBeingAssembled); }
        case _ =>
          state := WaitingForStartBit;
          rx := rx.(state := WaitingForStartBit);
          result, again := Failed, false;
      }
    }

    /** Polls the receive buffer: takes exactly the passes of `Poll` over the edges recorded so far. */
    method PollReceiveBuffer(clock: nat, ghost now: int) returns (result: PollResult)
      requires Valid() && clock == Clock(now)
      modifies this
      ensures Valid() && log == old(log)
      ensures (rx, result) == Poll(nominal, old(rx), log, now, |log|)
    {
      hide Step, Slot, Following, Preceding, Behind, Clock, Elapsed;
      var again := true;
      result := Incomplete;
      while again
        invariant Valid() && log == old(log)
        invariant Poll(nominal, old(rx), log, now, |log|) ==
                  if again then Poll(nominal, rx, log, now, |log|) else (rx, result)
        decreases again, |log| - rx.read, Rank(rx)
      {
        again, result := Pass(clock, now);
      }
    }

    /** The sensor's drain loop: polls until nothing more can be decoded. */
    method HandleIncomingData(clock: nat, ghost now: int) returns (results: seq<PollResult>)
      requires Valid() && clock == Clock(now) && !Recovering(rx)
      modifies this
      ensures Valid() && log == old(log) && !Recovering(rx)
      ensures (rx, results) == Drain(nominal, old(rx), log, now, |log|)
    {
      hide Poll, Drain, Draining, Recovering, Captured, Slot, Following, Preceding, Behind, Clock, Elapsed;
      results := [];
      var more := true;
      DrainStarts(nominal, rx, log, now);
      while more
        invariant Valid() && log == old(log) && !Recovering(rx)
        invariant Draining(nominal, old(rx), log, now, rx, results, more)
        decreases more, |log| - rx.read
      {
        DrainGoesOn(nominal, old(rx), log, now, rx, results);
        var result := PollReceiveBuffer(clock, now);
        if result.Incomplete? {
          more := false;
        } else {
          results := results + [result];
        }
      }
      DrainEnds(nominal, old(rx), log, now, rx, results);
    }
  }

  /** n samples of a nibble have been taken without a glitch. */
  ghost predicate Sampling(ages: seq<nat>, startBit: nat, first: nat, n: nat, read: Nibble, lastIndex: nat,
                           nextIndex: nat, currentNibble: nat, samplePoint: nat)
  {
    && first < |ages| && read == ReadNibble(ages, startBit, first, n) && read.Bits?
    && samplePoint == SamplePoint(startBit, n) && currentNibble == read.bits
    && lastIndex == Slot(read.last) && nextIndex == Slot(read.last + 1)
  }

  lemma {:induction false} SamplingStarts(ages: seq<nat>, startBit: nat, first: nat)
    requires first < |ages|
    ensures Sampling(ages, startBit, first, 0, ReadNibble(ages, startBit, first, 0), Slot(first), Slot(first + 1), 0,
                     startBit * 3 / 2)
  {
  }

  lemma {:induction false} SamplingOn(ages: seq<nat>, startBit: nat, first: nat, n: nat, read: Nibble, lastIndex: nat,
                                      nextIndex: nat, currentNibble: nat, samplePoint: nat)
    requires Sampling(ages, startBit, first, n, read, lastIndex, nextIndex, currentNibble, samplePoint)
    ensures first < |ages| && read.Bits? && first <= read.last < |ages|
    ensures lastIndex == Slot(read.last) && nextIndex == Slot(read.last + 1)
    ensures var next := Sample(ages, samplePoint, read.last);
      var read' := ReadNibble(ages, startBit, first, n + 1);
      && (next == read.last + 2 ==> read' == Glitch(next))
      && (next != read.last + 2 ==>
          Sampling(ages, startBit, first, n + 1, read', Slot(next), Slot(next + 1),
                   currentNibble * 2 + Slot(next) % 2, samplePoint + startBit))
  {
    hide Sample, Slot;
    SamplesOn(ages, startBit, first, n);
    NextSlot(Sample(ages, samplePoint, read.last));
  }

  lemma {:induction false} SamplingEnds(ages: seq<nat>, startBit: nat, first: nat, n: nat, read: Nibble, lastIndex: nat,
                                        nextIndex: nat, currentNibble: nat, samplePoint: nat)
    requires Sampling(ages, startBit, first, n, read, lastIndex, nextIndex, currentNibble, samplePoint)
    ensures first < |ages| && read == ReadNibble(ages, startBit, first, n) && read.Bits? && currentNibble == read.bits
    ensures lastIndex == Slot(read.last) && nextIndex == Slot(read.last + 1)
  {
  }

  lemma {:induction false} SamplesOn(ages: seq<nat>, startBit: nat, first: nat, n: nat)
    requires first < |ages| && ReadNibble(ages, startBit, first, n).Bits?
    ensures var so := ReadNibble(ages, startBit, first, n);
            var next := Sample(ages, SamplePoint(startBit, n), so.last);
            ReadNibble(ages, startBit, first, n + 1) ==
            if next == so.last + 2 then Glitch(next) else Bits(next, so.bits * 2 + next % 2)
  {
  }

  lemma {:induction false} GlitchStays(ages: seq<nat>, startBit: nat, first: nat, m: nat, n: nat)
    requires first < |ages| && m <= n && ReadNibble(ages, startBit, first, m).Glitch?
    ensures ReadNibble(ages, startBit, first, n) == ReadNibble(ages, startBit, first, m)
  {
    if m < n { GlitchStays(ages, startBit, first, m, n - 1); }
  }

  /** The results of the drain loop. It ends on every edge history, because each result uses up an edge. */
  function Drain(nominal: Nominal, rx: Rx, log: seq<int>, now: int, w: nat): (r: (Rx, seq<PollResult>))
    requires w <= |log| && Ready(rx, w) && !Recovering(rx)
    ensures Ready(r.0, w) && !Recovering(r.0) && rx.read + |r.1| <= r.0.read
    decreases w - rx.read
  {
    var (next, result) := Poll(nominal, rx, log, now, w);
    if result.Incomplete? then (next, [])
    else
      var (last, rest) := Drain(nominal, next, log, now, w);
      (last, [result] + rest)
  }

  /** The drain loop has given these results so far, and will go on from here if it is not done. */
  ghost predicate Draining(nominal: Nominal, start: Rx, log: seq<int>, now: int, rx: Rx, results: seq<PollResult>,
                           more: bool)
  {
    && Ready(start, |log|) && !Recovering(start) && Ready(rx, |log|) && !Recovering(rx)
    && Drain(nominal, start, log, now, |log|) ==
       if more then Prefixed(results, Drain(nominal, rx, log, now, |log|)) else (rx, results)
  }

  function Prefixed(results: seq<PollResult>, d: (Rx, seq<PollResult>)): (Rx, seq<PollResult>) { (d.0, results + d.1) }

  lemma {:induction false} DrainStarts(nominal: Nominal, rx: Rx, log: seq<int>, now: int)
    requires Ready(rx, |log|) && !Recovering(rx)
    ensures Draining(nominal, rx, log, now, rx, [], true)
  {
    hide Drain;
    var d := Drain(nominal, rx, log, now, |log|);
    assert [] + d.1 == d.1;
  }

  lemma {:induction false} DrainGoesOn(nominal: Nominal, start: Rx, log: seq<int>, now: int, rx: Rx,
                                       results: seq<PollResult>)
    requires Ready(rx, |log|) && Draining(nominal, start, log, now, rx, results, true)
    ensures var (rx', result) := Poll(nominal, rx, log, now, |log|);
      && Ready(rx', |log|) && !Recovering(rx') && (!result.Incomplete? ==> rx.read < rx'.read)
      && if result.Incomplete? then Draining(nominal, start, log, now, rx', results, false)
         else Draining(nominal, start, log, now, rx', results + [result], true)
  {
    hide Poll;
    var (rx', result) := Poll(nominal, rx, log, now, |log|);
    if result.Incomplete? {
      assert results + [] == results;
    } else {
      var rest := Drain(nominal, rx', log, now, |log|).1;
      assert results + ([result] + rest) == results + [result] + rest;
    }
  }

  lemma {:induction false} DrainEnds(nominal: Nominal, start: Rx, log: seq<int>, now: int, rx: Rx,
                                     results: seq<PollResult>)
    requires Draining(nominal, start, log, now, rx, results, false)
    ensures Ready(start, |log|) && !Recovering(start) && Drain(nominal, start, log, now, |log|) == (rx, results)
  {
  }

  // ---------------------------------------------------------------- end to end

  /** The poller looks only at recorded edges. */
  lemma {:induction false} StepPrefix(nominal: Nominal, rx: Rx, log: seq<int>, now: int, w: nat)
    requires w <= |log| && Ready(rx, w)
    ensures Step(nominal, rx, log[..w], now, w) == Step(nominal, rx, log, now, w)
  {
    if rx.state.WaitingForNibble? {
      assert Ages(log[..w], w, rx.last) == Ages(log, w, rx.last);
    }
  }

  lemma {:induction false} PollPrefix(nominal: Nominal, rx: Rx, log: seq<int>, now: int, w: nat)
    requires w <= |log| && Ready(rx, w)
    ensures Poll(nominal, rx, log[..w], now, w) == Poll(nominal, rx, log, now, w)
    decreases w - rx.read, Rank(rx)
  {
    StepPrefix(nominal, rx, log, now, w);
    var (next, outcome) := Step(nominal, rx, log, now, w);
    if outcome.Again? { PollPrefix(nominal, next, log, now, w); }
  }

  /** Words i to j of the transmission, as the poller should report them. */
  function Words(frames: seq<Frame>, i: nat, j: nat): (words: seq<PollResult>)
    requires i <= j <= |frames|
    ensures |words| == j - i
  {
    seq(j - i, n requires 0 <= n < j - i => Complete(Value(frames[i + n].bits)))
  }

  /** Draining a transmission yields the words in order, without errors, up to the first that is not yet due. */
  lemma {:induction false} DrainTracks(nominal: Nominal, lag: nat, log: seq<int>, frames: seq<Frame>, k: nat, rx: Rx,
                                       now: int, w: nat)
    returns (m: nat)
    requires Transmission(nominal, lag, log, frames) && Visible(lag, log, now, w)
    requires Ready(rx, w) && !Recovering(rx) && Tracks(log, frames, k, rx)
    ensures k <= m <= |frames| && !Overdue(log, frames, m, now)
    ensures var (rx', results) := Drain(nominal, rx, log[..w], now, w);
            Tracks(log, frames, m, rx') && results == Words(frames, k, m)
    decreases w - rx.read
  {
    hide Poll, Transmission, Tracks, Overdue, Value;
    PollPrefix(nominal, rx, log, now, w);
    PollTracks(nominal, lag, log, frames, k, rx, now, w);
    var (next, result) := Poll(nominal, rx, log, now, w);
    if result.Incomplete? {
      m := k;
    } else {
      m := DrainTracks(nominal, lag, log, frames, k + 1, next, now, w);
      assert Words(frames, k, m) == [result] + Words(frames, k + 1, m);
    }
  }

  /** The limit on the start bit is exact: if its end is recorded later than the time-out, then even though its measured
      length is acceptable there is a moment at which the poller gives up on it. */
  lemma {:induction false} LateEndOfStartBitFails(nominal: Nominal, lag: nat, log: seq<int>, rx: Rx)
    returns (now: int, w: nat)
    requires rx.state.WaitingForEndOfStartBit? && 1 <= rx.read && rx.read + 1 < |log|
    requires forall i, j | 0 <= i <= j < |log| :: log[i] <= log[j]
    requires log[rx.read] + MaxBitLength(nominal) < log[rx.read + 1] + lag
    ensures Visible(lag, log, now, w) && Ready(rx, w)
    ensures Poll(nominal, rx, log, now, w) == (rx.(state := WaitingForStartBit, read := rx.read + 1), Failed)
  {
    w, now := rx.read + 1, log[rx.read] + MaxBitLength(nominal) + 1;
    var timedOut := rx.(state := ErrorRecovery2, read := rx.read + 1);
    assert Step(nominal, rx, log, now, w) == (timedOut, Again);
    assert Poll(nominal, timedOut, log, now, w) == (timedOut.(state := WaitingForStartBit), Failed);
  }

  function BitsOf(v: nat, n: nat): (bits: seq<bool>)
    ensures |bits| == n
  {
    if n == 0 then [] else BitsOf(v / 2, n - 1) + [v % 2 == 1]
  }

  /** Every 16-bit word has a frame whose bits spell it. */
  lemma {:induction false} BitsSpellWord(v: nat, n: nat)
    requires v < Power(n)
    ensures Value(BitsOf(v, n)) == v
  {
    if n > 0 {
      BitsSpellWord(v / 2, n - 1);
      assert BitsOf(v, n)[..n - 1] == BitsOf(v / 2, n - 1);
    }
  }

  // ---------------------------------------------------------------- runs

  /** What happens to the receiver: a pin change, or one pass of the poller's loop, each at its own clock time. */
  datatype Event = Edge(pin: bool, clock: int) | Pass(now: int)

  /** The receiver's state, the edges recorded so far, and what the poller has reported. */
  datatype Reception = Reception(rx: Rx, log: seq<int>, results: seq<PollResult>)

  /** The edges after a pin change: one of the wrong polarity is ignored, a falling one corrected. */
  function WithEdge(log: seq<int>, pin: bool, clock: int): seq<int> {
    if pin != (|log| % 2 == 1) then log else log + [if pin then clock else clock - DEBOUNCE_SKEW]
  }

  /** What a pass reports. */
  function Report(outcome: Outcome): seq<PollResult> {
    match outcome
    case Word(v) => [Complete(v)]
    case Error => [Failed]
    case _ => []
  }

  function Next(nominal: Nominal, s: Reception, e: Event): (s': Reception)
    requires Ready(s.rx, |s.log|)
    ensures Ready(s'.rx, |s'.log|) && s.results <= s'.results && s.log <= s'.log
  {
    match e
    case Edge(pin, clock) => s.(log := WithEdge(s.log, pin, clock))
    case Pass(now) =>
      var (rx, outcome) := Step(nominal, s.rx, s.log, now, |s.log|);
      Reception(rx, s.log, s.results + Report(outcome))
  }

  /** The receiver after a run that starts when the buffer is initialised. */
  function After(nominal: Nominal, start: int, events: seq<Event>): (s: Reception)
    ensures Ready(s.rx, |s.log|)
  {
    if events == [] then Reception(Rx(WaitingForStartBit, 1, 0, 0, 0, 0), [start], [])
    else Next(nominal, After(nominal, start, events[..|events| - 1]), events[|events| - 1])
  }

  /** The interrupt handler's test for a full ring. */
  predicate Full(s: Reception) { |s.log| + 1 >= s.rx.read + RING }

  /** A pin change that comes when the ring is full. */
  predicate Overruns(nominal: Nominal, start: int, events: seq<Event>, i: nat)
    requires i < |events|
  {
    events[i].Edge? && Full(After(nominal, start, events[..i]))
  }

  lemma {:induction false} RunGrows(nominal: Nominal, start: int, events: seq<Event>, i: nat)
    requires i < |events|
    ensures After(nominal, start, events[..i + 1]) == Next(nominal, After(nominal, start, events[..i]), events[i])
  {
    assert events[..i + 1][..i] == events[..i];
  }

  /** The pin changes are those of a transmission, and each pass sees all edges older than `lag`. */
  ghost predicate Fits(nominal: Nominal, start: int, events: seq<Event>, lag: nat, log: seq<int>) {
    log != [] && log[0] == start
    && forall i | 0 <= i < |events| :: FitsNext(After(nominal, start, events[..i]), events[i], lag, log)
  }

  ghost predicate FitsNext(s: Reception, e: Event, lag: nat, log: seq<int>) {
    match e
    case Edge(pin, clock) =>
      pin == (|s.log| % 2 == 1) ==>
        |s.log| < |log| && log[|s.log|] == (if pin then clock else clock - DEBOUNCE_SKEW)
    case Pass(now) => Visible(lag, log, now, |s.log|)
  }

  /** The words reported so far are the first words sent, in order and without errors. */
  ghost predicate Follows(log: seq<int>, frames: seq<Frame>, s: Reception) {
    && s.log <= log && |s.results| <= |frames|
    && Tracks(log, frames, |s.results|, s.rx) && s.results == Words(frames, 0, |s.results|)
  }

  lemma {:induction false} NextFollows(nominal: Nominal, lag: nat, log: seq<int>, frames: seq<Frame>, s: Reception,
                                       e: Event)
    requires Transmission(nominal, lag, log, frames) && Ready(s.rx, |s.log|)
    requires Follows(log, frames, s) && FitsNext(s, e, lag, log)
    ensures Follows(log, frames, Next(nominal, s, e))
    ensures e.Pass? && Step(nominal, s.rx, s.log, e.now, |s.log|).1.Idle? ==> !Overdue(log, frames, |s.results|, e.now)
  {
    hide Transmission, Tracks, Step, Overdue, Value;
    match e {
      case Edge(pin, clock) =>
      case Pass(now) =>
        var w, k := |s.log|, |s.results|;
        assert s.log == log[..w];
        StepPrefix(nominal, s.rx, log, now, w);
        StepTracks(nominal, lag, log, frames, k, s.rx, now, w);
        var (rx, outcome) := Step(nominal, s.rx, log, now, w);
        if outcome.Idle? {
          IdleWhenCaughtUp(nominal, lag, log, frames, k, s.rx, now, w);
        }
        if outcome.Word? {
          NextWord(frames, k);
        }
    }
  }

  lemma {:induction false} NextWord(frames: seq<Frame>, k: nat)
    requires k < |frames|
    ensures Words(frames, 0, k + 1) == Words(frames, 0, k) + [Complete(Value(frames[k].bits))]
  {
  }

  lemma {:induction false} FollowsFirst(nominal: Nominal, lag: nat, start: int, log: seq<int>, frames: seq<Frame>)
    requires Transmission(nominal, lag, log, frames) && log != [] && log[0] == start
    ensures Follows(log, frames, After(nominal, start, []))
  {
  }

  /**
   * Over every run on a transmission, whatever the order of pin changes and passes and whenever they come, the words
   * reported are the first words sent, in order and without errors, and when a pass goes idle none that is due is
   * missing.
   */
  lemma {:induction false} RunFollows(nominal: Nominal, lag: nat, start: int, events: seq<Event>, log: seq<int>,
                                      frames: seq<Frame>)
    requires Transmission(nominal, lag, log, frames) && Fits(nominal, start, events, lag, log)
    ensures Follows(log, frames, After(nominal, start, events))
    ensures IdleAtEnd(nominal, start, events) ==>
      !Overdue(log, frames, |After(nominal, start, events).results|, events[|events| - 1].now)
  {
    hide Transmission, Follows, FitsNext, Next, Overdue, Step;
    if events == [] {
      FollowsFirst(nominal, lag, start, log, frames);
    } else {
      var most, last := events[..|events| - 1], events[|events| - 1];
      assert forall i | 0 <= i < |most| :: most[..i] == events[..i] && most[i] == events[i];
      RunFollows(nominal, lag, start, most, log, frames);
      var s := After(nominal, start, most);
      assert FitsNext(s, last, lag, log);
      NextFollows(nominal, lag, log, frames, s, last);
      IdleReports(nominal, s, last);
    }
  }

  /** The last event is a pass that finds nothing to do. */
  predicate IdleAtEnd(nominal: Nominal, start: int, events: seq<Event>): (idle: bool)
    ensures idle ==> events != [] && events[|events| - 1].Pass?
  {
    events != [] && events[|events| - 1].Pass? &&
    var s := After(nominal, start, events[..|events| - 1]);
    Step(nominal, s.rx, s.log, events[|events| - 1].now, |s.log|).1.Idle?
  }

  lemma {:induction false} IdleReports(nominal: Nominal, s: Reception, e: Event)
    requires Ready(s.rx, |s.log|)
    ensures e.Pass? && Step(nominal, s.rx, s.log, e.now, |s.log|).1.Idle? ==> Next(nominal, s, e).results == s.results
  {
    hide Step;
  }

  /**
   * The limit on the start bit is exact, from start-up on. If its end can become visible later than the time-out,
   * although its length is within the limits, there is a run in which every edge is seen in time and the word is
   * rejected.
   */
  lemma {:induction false} LateRunFails(nominal: Nominal, lag: nat, start: int, rise: int, fall: int)
    returns (events: seq<Event>)
    requires ErrorRecoveryTime(nominal) <= rise - start < WRAP
    requires MinBitLength(nominal) <= fall - rise <= MaxBitLength(nominal) < fall - rise + lag
    ensures Fits(nominal, start, events, lag, [start, rise, fall])
    ensures After(nominal, start, events).results == [Failed] && After(nominal, start, events).log == [start, rise]
  {
    hide MinBitLength, MaxBitLength, ErrorRecoveryTime, Fits;
    var now := rise + MaxBitLength(nominal) + 1;
    events := [Edge(true, rise), Pass(now), Pass(now), Pass(now)];
    LimitsOf(nominal);
    var s0 := After(nominal, start, []);
    var s1 := Next(nominal, s0, events[0]);
    assert s1.log == [start, rise];
    var s2 := Next(nominal, s1, events[1]);
    assert s2 == s1.(rx := s1.rx.(state := WaitingForEndOfStartBit));
    var s3 := Next(nominal, s2, events[2]);
    assert s3.rx == s2.rx.(state := ErrorRecovery2, read := 2) && s3.log == s1.log && s3.results == [];
    var s4 := Next(nominal, s3, events[3]);
    assert s4.results == [Failed] && s4.log == s1.log;
    FourEvents(nominal, start, events);
    FitsFour(nominal, lag, start, rise, fall, events, now, s0, s1, s2, s3);
  }

  lemma {:induction false} FourEvents(nominal: Nominal, start: int, events: seq<Event>)
    requires |events| == 4
    ensures var s1 := Next(nominal, After(nominal, start, []), events[0]);
      var s2 := Next(nominal, s1, events[1]);
      var s3 := Next(nominal, s2, events[2]);
      && After(nominal, start, events[..0]) == After(nominal, start, [])
      && After(nominal, start, events[..1]) == s1 && After(nominal, start, events[..2]) == s2
      && After(nominal, start, events[..3]) == s3 && After(nominal, start, events) == Next(nominal, s3, events[3])
  {
    hide Next;
    assert events[..0] == [];
    RunGrows(nominal, start, events, 0);
    RunGrows(nominal, start, events, 1);
    RunGrows(nominal, start, events, 2);
    RunGrows(nominal, start, events, 3);
    assert events[..4] == events;
  }

  lemma {:induction false} FitsFour(nominal: Nominal, lag: nat, start: int, rise: int, fall: int, events: seq<Event>,
                                    now: int, s0: Reception, s1: Reception, s2: Reception, s3: Reception)
    requires events == [Edge(true, rise), Pass(now), Pass(now), Pass(now)] && start <= rise <= now <= fall + lag
    requires s0.log == [start] && s1.log == s2.log == s3.log == [start, rise]
    requires After(nominal, start, events[..0]) == s0 && After(nominal, start, events[..1]) == s1
    requires After(nominal, start, events[..2]) == s2 && After(nominal, start, events[..3]) == s3
    ensures Fits(nominal, start, events, lag, [start, rise, fall])
  {
    hide After;
    var log := [start, rise, fall];
    assert Visible(lag, log, now, 2);
    forall i | 0 <= i < |events| ensures FitsNext(After(nominal, start, events[..i]), events[i], lag, log) {
    }
  }

  /**
   * Runs the interrupt handler and the poller's loop on the ring, in any order. It stops only when a pin change comes
   * while the ring is full. What has been reported by then is what the run reports on the unbounded history; on a
   * transmission those are the words sent.
   */
  method Receive(nominal: Nominal, start: int, events: seq<Event>, ghost lag: nat, ghost log: seq<int>,
                 ghost frames: seq<Frame>)
    returns (results: seq<PollResult>, handled: nat)
    ensures handled <= |events| && (forall i | 0 <= i < handled :: !Overruns(nominal, start, events, i))
    ensures handled < |events| ==> Overruns(nominal, start, events, handled)
    ensures results == After(nominal, start, events[..handled]).results
    ensures Transmission(nominal, lag, log, frames) && Fits(nominal, start, events[..handled], lag, log) ==>
      && |results| <= |frames| && results == Words(frames, 0, |results|)
      && (IdleAtEnd(nominal, start, events[..handled]) ==> !Overdue(log, frames, |results|, events[handled - 1].now))
  {
    hide *;
    var receiver := new Receiver(nominal, start);
    results, handled := [], 0;
    RunStarts(nominal, start, events);
    while handled < |events|
      invariant handled <= |events| && receiver.Valid() && fresh(receiver) && fresh(receiver.edgeCaptures)
      invariant receiver.nominal == nominal
      invariant Reception(receiver.rx, receiver.log, results) == After(nominal, start, events[..handled])
      invariant forall i | 0 <= i < handled :: !Overruns(nominal, start, events, i)
    {
      RunGrows(nominal, start, events, handled);
      OverrunsIs(nominal, start, events, handled);
      ValidIsReady(receiver);
      match events[handled] {
        case Edge(pin, clock) =>
          var full := receiver.IsFull();
          if full { break; }
          EdgeIs(nominal, After(nominal, start, events[..handled]), pin, clock);
          var _ := receiver.Interrupt(pin, clock);
        case Pass(now) =>
          PassIs(nominal, After(nominal, start, events[..handled]), now);
          var again, result := receiver.Pass(Clock(now), now);
          ReportIs(result);
          if !again && !result.Incomplete? {
            results := results + [result];
          }
      }
      handled := handled + 1;
    }
    if Transmission(nominal, lag, log, frames) && Fits(nominal, start, events[..handled], lag, log) {
      RunFollows(nominal, lag, start, events[..handled], log, frames);
      FollowsMeans(log, frames, After(nominal, start, events[..handled]));
    }
  }

  lemma {:induction false} FollowsMeans(log: seq<int>, frames: seq<Frame>, s: Reception)
    requires Follows(log, frames, s)
    ensures |s.results| <= |frames| && s.results == Words(frames, 0, |s.results|)
  {
  }

  lemma {:induction false} RunStarts(nominal: Nominal, start: int, events: seq<Event>)
    ensures After(nominal, start, events[..0]) == Reception(Rx(WaitingForStartBit, 1, 0, 0, 0, 0), [start], [])
  {
    assert events[..0] == [];
  }

  lemma {:induction false} OverrunsIs(nominal: Nominal, start: int, events: seq<Event>, i: nat)
    requires i < |events|
    ensures Overruns(nominal, start, events, i) <==>
      events[i].Edge? && var s := After(nominal, start, events[..i]); |s.log| + 1 >= s.rx.read + RING
  {
  }

  lemma {:induction false} EdgeIs(nominal: Nominal, s: Reception, pin: bool, clock: int)
    requires Ready(s.rx, |s.log|)
    ensures Next(nominal, s, Edge(pin, clock)) == Reception(s.rx, WithEdge(s.log, pin, clock), s.results)
  {
  }

  lemma {:induction false} PassIs(nominal: Nominal, s: Reception, now: int)
    requires Ready(s.rx, |s.log|)
    ensures var (rx, outcome) := Step(nominal, s.rx, s.log, now, |s.log|);
      Next(nominal, s, Pass(now)) == Reception(rx, s.log, s.results + Report(outcome))
  {
    hide Step;
  }

  lemma {:induction false} ReportIs(result: PollResult)
    ensures Report(Meaning(result)) == if result.Incomplete? then [] else [result]
    ensures Report(Again) == []
  {
  }

  lemma {:induction false} ValidIsReady(receiver: Receiver)
    requires receiver.Valid()
    ensures Ready(receiver.rx, |receiver.log|) && |receiver.log| < receiver.rx.read + RING && WRAP > 0
  {
  }
}
