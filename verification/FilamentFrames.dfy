/** What the receiver of the filament sensors takes for a word, on any line at all. */
module FilamentFrames {
  import opened FilamentReceiver

  // ---------------------------------------------------------------- the level of the line

  /** The last edge that came before a time, from some edge on. */
  function LastBefore(ages: seq<nat>, first: nat, time: nat): (last: nat)
    requires first < |ages|
    ensures first <= last < |ages| && forall i | first < i <= last :: ages[i] < time
    ensures last + 1 < |ages| ==> ages[last + 1] >= time
    decreases |ages| - first
  {
    if first + 1 < |ages| && ages[first + 1] < time then LastBefore(ages, first + 1, time) else first
  }

  /** Every other edge rises, so the line is high after an edge with an odd number. */
  predicate High(ages: seq<nat>, first: nat, time: nat)
    requires first < |ages|
  {
    LastBefore(ages, first, time) % 2 == 1
  }

  /** The middle of bit i after an edge that ends a bit. */
  function Middle(bit: nat, i: nat): nat { bit * 3 / 2 + i * bit }

  /** The last edge before the middle of a bit. */
  function EdgeAt(ages: seq<nat>, first: nat, bit: nat, i: int): (last: nat)
    requires first < |ages| && -1 <= i
    ensures first <= last < |ages|
  {
    if i == -1 then first else LastBefore(ages, first, Middle(bit, i))
  }

  /** No more than one edge comes from the middle of one bit to that of the next, for n bits. */
  predicate Clean(ages: seq<nat>, first: nat, bit: nat, n: nat)
    requires first < |ages|
  {
    n == 0 || (Clean(ages, first, bit, n - 1) && EdgeAt(ages, first, bit, n - 1) <= EdgeAt(ages, first, bit, n - 2) + 1)
  }

  /** The levels in the middle of n bits as a number. */
  function Sampled(ages: seq<nat>, first: nat, bit: nat, n: nat): nat
    requires first < |ages|
  {
    if n == 0 then 0 else 2 * Sampled(ages, first, bit, n - 1) + if High(ages, first, Middle(bit, n - 1)) then 1 else 0
  }

  lemma {:induction false} MiddleIs(bit: nat, i: nat)
    ensures SamplePoint(bit, i) == Middle(bit, i)
  {
    if i > 0 {
      MiddleIs(bit, i - 1);
      assert i * bit == (i - 1) * bit + bit;
    }
  }

  /** Edges before an earlier time are before a later one. */
  lemma {:induction false} GoesOnFrom(ages: seq<nat>, first: nat, time: nat, later: nat)
    requires first < |ages| && time <= later
    ensures LastBefore(ages, first, time) <= LastBefore(ages, first, later)
    ensures LastBefore(ages, LastBefore(ages, first, time), later) == LastBefore(ages, first, later)
    decreases |ages| - first
  {
    if first + 1 < |ages| && ages[first + 1] < time {
      GoesOnFrom(ages, first + 1, time, later);
    }
  }

  /** Looking at two further edges is enough to see whether there is more than one. */
  lemma {:induction false} SampleIs(ages: seq<nat>, time: nat, last: nat)
    requires last < |ages|
    ensures var next := LastBefore(ages, last, time);
      Sample(ages, time, last) == if next <= last + 1 then next else last + 2
  {
    if last + 1 < |ages| && ages[last + 1] < time {
      assert LastBefore(ages, last, time) == LastBefore(ages, last + 1, time);
    }
  }

  /** The sampling loop reads the levels in the middle of the bits, and finds a glitch exactly if the line is not
      clean. */
  lemma {:induction false} ReadsLevels(ages: seq<nat>, bit: nat, first: nat, n: nat)
    requires first < |ages|
    ensures ReadNibble(ages, bit, first, n).Bits? <==> Clean(ages, first, bit, n)
    ensures Clean(ages, first, bit, n) ==>
      ReadNibble(ages, bit, first, n) == Bits(EdgeAt(ages, first, bit, n - 1), Sampled(ages, first, bit, n))
  {
    hide LastBefore, Sample, Middle, SamplePoint, EdgeAt;
    if n == 0 {
      NoEdgeYet(ages, first, bit);
    } else {
      ReadsLevels(ages, bit, first, n - 1);
      if Clean(ages, first, bit, n - 1) {
        NextEdge(ages, bit, first, n - 1);
      }
    }
  }

  lemma {:induction false} NoEdgeYet(ages: seq<nat>, first: nat, bit: nat)
    requires first < |ages|
    ensures EdgeAt(ages, first, bit, -1) == first
  {
  }

  /** One more sample. */
  lemma {:induction false} NextEdge(ages: seq<nat>, bit: nat, first: nat, i: nat)
    requires first < |ages|
    ensures var last, next := EdgeAt(ages, first, bit, i - 1), EdgeAt(ages, first, bit, i);
      && Sample(ages, SamplePoint(bit, i), last) == (if next <= last + 1 then next else last + 2)
      && last <= next && High(ages, first, Middle(bit, i)) == (next % 2 == 1)
  {
    hide LastBefore, Sample, Middle, SamplePoint;
    MiddleIs(bit, i);
    SampleIs(ages, SamplePoint(bit, i), EdgeAt(ages, first, bit, i - 1));
    if i > 0 {
      MiddleGrows(bit, i - 1);
      GoesOnFrom(ages, first, Middle(bit, i - 1), Middle(bit, i));
    }
  }

  lemma {:induction false} MiddleGrows(bit: nat, i: nat)
    ensures Middle(bit, i) <= Middle(bit, i + 1)
  {
    assert (i + 1) * bit == i * bit + bit;
  }

  // ---------------------------------------------------------------- one pass

  /** Four bits and, after them, the inverse of the fourth. */
  predicate GoodNibble(ages: seq<nat>, first: nat, bit: nat)
    requires first < |ages|
  {
    && Clean(ages, first, bit, 5)
    && (High(ages, first, Middle(bit, 4)) <==> !High(ages, first, Middle(bit, 3)))
  }

  lemma {:induction false} FifthSample(ages: seq<nat>, first: nat, bit: nat)
    requires first < |ages|
    ensures var bits := Sampled(ages, first, bit, 5);
      && bits / 2 == Sampled(ages, first, bit, 4)
      && (bits / 2 % 2 == bits % 2 <==> (High(ages, first, Middle(bit, 4)) <==> High(ages, first, Middle(bit, 3))))
  {
    hide High, Middle, Sampled;
    SampledStep(ages, first, bit, 4);
    SampledStep(ages, first, bit, 5);
    LastTwo(Sampled(ages, first, bit, 3), High(ages, first, Middle(bit, 3)), High(ages, first, Middle(bit, 4)));
  }

  lemma {:induction false} SampledStep(ages: seq<nat>, first: nat, bit: nat, n: nat)
    requires first < |ages| && n > 0
    ensures Sampled(ages, first, bit, n)
         == Then(Sampled(ages, first, bit, n - 1), High(ages, first, Middle(bit, n - 1)))
  {
    hide High, Middle;
  }

  /** A number with one more binary digit. */
  function Then(x: nat, digit: bool): nat { 2 * x + if digit then 1 else 0 }

  lemma {:induction false} LastTwo(x: nat, a: bool, b: bool)
    ensures var bits := Then(Then(x, a), b); bits / 2 == Then(x, a) && (bits / 2 % 2 == bits % 2 <==> (b <==> a))
  {
  }

  /** When a pass finds something wrong: the line was not idle for long enough before a start bit, the start bit is too
      short, too long or not yet over, or what is sampled is not a nibble. */
  predicate Fault(nominal: Nominal, rx: Rx, log: seq<int>, now: int, w: nat)
    requires w <= |log| && Ready(rx, w)
  {
    match rx.state
    case WaitingForStartBit =>
      rx.read < w && rx.read % 2 == 1 && Elapsed(log[rx.read], log[rx.read - 1]) < 8 * nominal
    case WaitingForEndOfStartBit =>
      if rx.read + 1 < w
      then
        var s := Elapsed(log[rx.read + 1], log[rx.read]);
        13 * (s + 1) <= 10 * nominal || 10 * s > 13 * nominal
      else 10 * Elapsed(now, log[rx.read]) > 13 * nominal
    case WaitingForNibble =>
      && 2 * Elapsed(now, log[rx.last]) > 13 * rx.startBit
      && !GoodNibble(Ages(log, w, rx.last), rx.last, rx.startBit)
    case _ => false
  }

  /** A pass goes into recovery exactly then, and the pass after it reports an error. */
  lemma {:induction false} FaultsAreErrors(nominal: Nominal, rx: Rx, log: seq<int>, now: int, w: nat)
    requires w <= |log| && Ready(rx, w)
    ensures Recovering(Step(nominal, rx, log, now, w).0) <==> Fault(nominal, rx, log, now, w)
    ensures Fault(nominal, rx, log, now, w) ==> Poll(nominal, rx, log, now, w).1 == Failed
  {
    hide ReadNibble, GoodNibble, Elapsed, Ages;
    if rx.state.WaitingForNibble? {
      NibbleAdded(rx, log, now, w);
    }
    var (next, outcome) := Step(nominal, rx, log, now, w);
    if Recovering(next) {
      assert Step(nominal, next, log, now, w).1 == Error;
    }
  }

  /** A nibble that is due is added to the word if it is good; with the fourth one the word is reported. */
  lemma {:induction false} NibbleAdded(rx: Rx, log: seq<int>, now: int, w: nat)
    requires w <= |log| && Ready(rx, w) && rx.state.WaitingForNibble?
    ensures var (next, outcome) := AwaitNibble(rx, log, now, w);
      var ages := Ages(log, w, rx.last);
      if 2 * Elapsed(now, log[rx.last]) <= 13 * rx.startBit then next == rx && outcome.Idle?
      else if !GoodNibble(ages, rx.last, rx.startBit) then Recovering(next) && outcome.Again?
      else
        var value := (16 * rx.value + Sampled(ages, rx.last, rx.startBit, 4)) % 0x1_0000;
        && next.value == value && next.nibbles == rx.nibbles + 1 && next.last == EdgeAt(ages, rx.last, rx.startBit, 4)
        && next.startBit == rx.startBit
        && if rx.nibbles == 3 then next.state.WaitingForStartBit? && outcome == Word(value)
           else next.state.WaitingForNibble? && next.read == rx.read && outcome.Again?
  {
    hide ReadNibble, Clean, Sampled, High, Middle, EdgeAt, Elapsed;
    var ages := Ages(log, w, rx.last);
    ReadsLevels(ages, rx.startBit, rx.last, 5);
    FifthSample(ages, rx.last, rx.startBit);
  }

  // ---------------------------------------------------------------- words over whole runs

  /** A nibble that was heard: after which edge, and with how many edges recorded. */
  datatype Heard = Heard(first: nat, w: nat)

  predicate NibbleHeard(log: seq<int>, bit: nat, h: Heard) {
    h.first < h.w <= |log| && GoodNibble(Ages(log, h.w, h.first), h.first, bit)
  }

  function NibbleEnd(log: seq<int>, bit: nat, h: Heard): nat
    requires h.first < h.w <= |log|
  {
    EdgeAt(Ages(log, h.w, h.first), h.first, bit, 4)
  }

  function NibbleValue(log: seq<int>, bit: nat, h: Heard): nat
    requires h.first < h.w <= |log|
  {
    Sampled(Ages(log, h.w, h.first), h.first, bit, 4)
  }

  /** A start bit on a line that has been idle, of a length within the limits. */
  predicate StartHeard(nominal: Nominal, log: seq<int>, b: nat) {
    && 1 <= b && b + 1 < |log| && b % 2 == 1 && Elapsed(log[b], log[b - 1]) >= 8 * nominal
    && var s := Elapsed(log[b + 1], log[b]); 13 * (s + 1) > 10 * nominal && 10 * s <= 13 * nominal
  }

  /** Nibbles, one after the other, each starting at the last edge of the one before it. */
  predicate NibblesHeard(log: seq<int>, bit: nat, first: nat, hs: seq<Heard>) {
    hs == [] ||
    var most, h := hs[..|hs| - 1], hs[|hs| - 1];
    && NibblesHeard(log, bit, first, most) && NibbleHeard(log, bit, h) && h.first == EndOf(log, bit, first, most)
  }

  function EndOf(log: seq<int>, bit: nat, first: nat, hs: seq<Heard>): nat {
    if hs == [] then first
    else
      var h := hs[|hs| - 1];
      if h.first < h.w <= |log| then NibbleEnd(log, bit, h) else first
  }

  function ValueOf(log: seq<int>, bit: nat, hs: seq<Heard>): nat {
    if hs == [] then 0
    else
      var h := hs[|hs| - 1];
      16 * ValueOf(log, bit, hs[..|hs| - 1]) + if h.first < h.w <= |log| then NibbleValue(log, bit, h) else 0
  }

  /** A start bit and some nibbles of a word have been heard. */
  predicate WordHeard(nominal: Nominal, log: seq<int>, b: nat, hs: seq<Heard>, v: nat) {
    && StartHeard(nominal, log, b)
    && var s := Elapsed(log[b + 1], log[b]); NibblesHeard(log, s, b + 1, hs) && v == ValueOf(log, s, hs)
  }

  /** A value is the word of some edges: a start bit on an idle line, and four good nibbles. */
  ghost predicate Genuine(nominal: Nominal, log: seq<int>, v: nat) {
    exists b: nat, hs: seq<Heard> :: |hs| == 4 && WordHeard(nominal, log, b, hs, v)
  }

  /** What the receiver has assembled so far has been heard. */
  ghost predicate Backed(nominal: Nominal, log: seq<int>, rx: Rx) {
    match rx.state
    case WaitingForEndOfStartBit =>
      && 1 <= rx.read < |log| && rx.read % 2 == 1 && Elapsed(log[rx.read], log[rx.read - 1]) >= 8 * nominal
    case WaitingForNibble =>
      rx.read >= 1 && exists hs: seq<Heard> :: |hs| == rx.nibbles && BackedBy(nominal, log, rx, hs)
    case _ => true
  }

  predicate BackedBy(nominal: Nominal, log: seq<int>, rx: Rx, hs: seq<Heard>)
    requires rx.read >= 1
  {
    && WordHeard(nominal, log, rx.read - 1, hs, rx.value)
    && rx.startBit == Elapsed(log[rx.read], log[rx.read - 1])
    && rx.last == EndOf(log, rx.startBit, rx.read, hs)
  }

  /** More edges change nothing about what has been heard. */
  lemma {:induction false} StillHeard(nominal: Nominal, log: seq<int>, more: seq<int>, b: nat, hs: seq<Heard>, v: nat)
    requires WordHeard(nominal, log, b, hs, v)
    ensures WordHeard(nominal, log + more, b, hs, v)
    ensures var s := Elapsed(log[b + 1], log[b]); EndOf(log + more, s, b + 1, hs) == EndOf(log, s, b + 1, hs)
  {
    hide NibblesHeard, EndOf, ValueOf, Elapsed;
    NibblesStay(log, more, Elapsed(log[b + 1], log[b]), b + 1, hs);
  }

  lemma {:induction false} NibblesStay(log: seq<int>, more: seq<int>, bit: nat, first: nat, hs: seq<Heard>)
    requires NibblesHeard(log, bit, first, hs)
    ensures NibblesHeard(log + more, bit, first, hs)
    ensures ValueOf(log + more, bit, hs) == ValueOf(log, bit, hs)
    ensures EndOf(log + more, bit, first, hs) == EndOf(log, bit, first, hs)
    decreases |hs|
  {
    hide GoodNibble, EdgeAt, Sampled, Ages;
    if hs != [] {
      var h := hs[|hs| - 1];
      NibblesStay(log, more, bit, first, hs[..|hs| - 1]);
      AgesStay(log, more, h.w, h.first);
    }
  }

  lemma {:induction false} AgesStay(log: seq<int>, more: seq<int>, w: nat, origin: nat)
    requires origin < w <= |log|
    ensures Ages(log + more, w, origin) == Ages(log, w, origin)
  {
  }

  lemma {:induction false} NibbleFits(ages: seq<nat>, first: nat, bit: nat, n: nat)
    requires first < |ages|
    ensures Sampled(ages, first, bit, n) < Power(n)
  {
    if n > 0 {
      NibbleFits(ages, first, bit, n - 1);
    }
  }

  function Power(n: nat): nat { if n == 0 then 1 else 2 * Power(n - 1) }

  /** Up to four nibbles make a number of at most 16 bits. */
  lemma {:induction false} ValueFits(log: seq<int>, bit: nat, hs: seq<Heard>)
    ensures ValueOf(log, bit, hs) < Power(4 * |hs|)
  {
    hide Sampled, Ages;
    if hs != [] {
      var h := hs[|hs| - 1];
      ValueFits(log, bit, hs[..|hs| - 1]);
      if h.first < h.w <= |log| {
        NibbleFits(Ages(log, h.w, h.first), h.first, bit, 4);
      }
      Sixteen(4 * (|hs| - 1));
    }
  }

  lemma {:induction false} Sixteen(n: nat)
    ensures Power(n + 4) == 16 * Power(n) && Power(4) == 16
  {
    assert Power(n + 4) == 2 * Power(n + 3) && Power(n + 3) == 2 * Power(n + 2) && Power(n + 2) == 2 * Power(n + 1);
    assert Power(3) == 8;
  }

  /** Every pass keeps this, and a word that it reports is genuine. */
  lemma {:induction false} StepBacked(nominal: Nominal, rx: Rx, log: seq<int>, now: int)
    requires Ready(rx, |log|) && Backed(nominal, log, rx)
    ensures var (next, outcome) := Step(nominal, rx, log, now, |log|);
      Backed(nominal, log, next) && (outcome.Word? ==> Genuine(nominal, log, outcome.value))
  {
    hide Genuine, WordHeard, AwaitNibble, BackedBy;
    match rx.state {
      case WaitingForStartBit =>
      case WaitingForEndOfStartBit =>
        if rx.read + 1 < |log| {
          StartBacked(nominal, rx, log, now);
        }
      case WaitingForNibble =>
        var hs: seq<Heard> :| |hs| == rx.nibbles && BackedBy(nominal, log, rx, hs);
        NibbleBacked(nominal, rx, log, now, hs);
      case _ =>
    }
  }

  lemma {:induction false} StartBacked(nominal: Nominal, rx: Rx, log: seq<int>, now: int)
    requires Ready(rx, |log|) && rx.state.WaitingForEndOfStartBit? && Backed(nominal, log, rx) && rx.read + 1 < |log|
    ensures Backed(nominal, log, AwaitEndOfStartBit(nominal, rx, log, now, |log|).0)
  {
    hide Elapsed;
    var s := Elapsed(log[rx.read + 1], log[rx.read]);
    var next := AwaitEndOfStartBit(nominal, rx, log, now, |log|).0;
    if MinBitLength(nominal) <= s <= MaxBitLength(nominal) {
      var none: seq<Heard> := [];
      assert StartHeard(nominal, log, rx.read);
      assert NibblesHeard(log, s, rx.read + 1, none) && ValueOf(log, s, none) == 0;
      assert BackedBy(nominal, log, next, none);
    }
  }

  lemma {:induction false} NibbleBacked(nominal: Nominal, rx: Rx, log: seq<int>, now: int, hs: seq<Heard>)
    requires Ready(rx, |log|) && rx.state.WaitingForNibble? && |hs| == rx.nibbles && BackedBy(nominal, log, rx, hs)
    ensures var (next, outcome) := AwaitNibble(rx, log, now, |log|);
      Backed(nominal, log, next) && (outcome.Word? ==> Genuine(nominal, log, outcome.value))
  {
    hide AwaitNibble, GoodNibble, Elapsed, Ages, WordHeard, EdgeAt, Sampled, Genuine;
    NibbleAdded(rx, log, now, |log|);
    var (next, outcome) := AwaitNibble(rx, log, now, |log|);
    var ages := Ages(log, |log|, rx.last);
    if 2 * Elapsed(now, log[rx.last]) > 13 * rx.startBit && GoodNibble(ages, rx.last, rx.startBit) {
      var h := Heard(rx.last, |log|);
      OneMoreHeard(nominal, log, rx.read - 1, hs, rx.value, rx.startBit, h);
      var more := hs + [h];
      if rx.nibbles == 3 {
        GenuineIs(nominal, log, rx.read - 1, more, next.value);
      } else {
        assert BackedBy(nominal, log, next, more);
      }
    }
  }

  lemma {:induction false} GenuineIs(nominal: Nominal, log: seq<int>, b: nat, hs: seq<Heard>, v: nat)
    requires |hs| == 4 && WordHeard(nominal, log, b, hs, v)
    ensures Genuine(nominal, log, v)
  {
  }

  lemma {:induction false} OneMoreHeard(nominal: Nominal, log: seq<int>, b: nat, hs: seq<Heard>, v: nat, bit: nat,
                                        h: Heard)
    requires WordHeard(nominal, log, b, hs, v) && bit == Elapsed(log[b + 1], log[b]) && |hs| < 4
    requires NibbleHeard(log, bit, h) && h.first == EndOf(log, bit, b + 1, hs)
    ensures var value := (16 * v + NibbleValue(log, bit, h)) % 0x1_0000;
      WordHeard(nominal, log, b, hs + [h], value)
    ensures EndOf(log, bit, b + 1, hs + [h]) == NibbleEnd(log, bit, h)
  {
    hide GoodNibble, Elapsed, Ages, StartHeard, NibbleEnd, NibbleValue;
    var more := hs + [h];
    assert more[..|more| - 1] == hs;
    ValueFits(log, bit, more);
    FourFit(|more|);
  }

  lemma {:induction false} FourFit(n: nat)
    requires n <= 4
    ensures Power(4 * n) <= 0x1_0000
  {
    Sixteen(0);
    Sixteen(4);
    Sixteen(8);
    Sixteen(12);
  }

  lemma {:induction false} StillBacked(nominal: Nominal, log: seq<int>, more: seq<int>, rx: Rx)
    requires Ready(rx, |log|) && Backed(nominal, log, rx)
    ensures Backed(nominal, log + more, rx)
  {
    hide WordHeard, EndOf, Elapsed;
    if rx.state.WaitingForNibble? {
      var hs: seq<Heard> :| |hs| == rx.nibbles && BackedBy(nominal, log, rx, hs);
      StillHeard(nominal, log, more, rx.read - 1, hs, rx.value);
      assert (log + more)[rx.read] == log[rx.read] && (log + more)[rx.read - 1] == log[rx.read - 1];
      assert BackedBy(nominal, log + more, rx, hs);
    }
  }

  lemma {:induction false} StillGenuine(nominal: Nominal, log: seq<int>, more: seq<int>, v: nat)
    requires Genuine(nominal, log, v)
    ensures Genuine(nominal, log + more, v)
  {
    hide WordHeard;
    var b: nat, hs: seq<Heard> :| |hs| == 4 && WordHeard(nominal, log, b, hs, v);
    StillHeard(nominal, log, more, b, hs, v);
  }

  /** All words reported are genuine. */
  ghost predicate AllGenuine(nominal: Nominal, s: Reception) {
    forall i | 0 <= i < |s.results| && s.results[i].Complete? :: Genuine(nominal, s.log, s.results[i].measurement)
  }

  /**
   * Whatever happens on the line and whenever the poller looks, a word is reported only for a start bit within the
   * limits, on a line that was idle, and four nibbles after it, each clean and followed by the inverse of its last bit;
   * and it is the word of their levels.
   */
  lemma {:induction false} WordsAreGenuine(nominal: Nominal, start: int, events: seq<Event>)
    ensures AllGenuine(nominal, After(nominal, start, events))
    ensures var s := After(nominal, start, events); Backed(nominal, s.log, s.rx)
  {
    hide Genuine, Backed, Next, Step;
    if events == [] {
      NothingHeard(nominal, start);
    } else {
      var most, e := events[..|events| - 1], events[|events| - 1];
      WordsAreGenuine(nominal, start, most);
      NextGenuine(nominal, After(nominal, start, most), e);
    }
  }

  lemma {:induction false} NothingHeard(nominal: Nominal, start: int)
    ensures var s := After(nominal, start, []); s.results == [] && Backed(nominal, s.log, s.rx)
  {
  }

  lemma {:induction false} NextGenuine(nominal: Nominal, s: Reception, e: Event)
    requires Ready(s.rx, |s.log|) && AllGenuine(nominal, s) && Backed(nominal, s.log, s.rx)
    ensures var t := Next(nominal, s, e); AllGenuine(nominal, t) && Backed(nominal, t.log, t.rx)
  {
    hide Genuine, Backed, Step, Ready;
    match e {
      case Edge(pin, clock) =>
        var more := WithEdge(s.log, pin, clock)[|s.log|..];
        assert WithEdge(s.log, pin, clock) == s.log + more;
        StillBacked(nominal, s.log, more, s.rx);
        forall i | 0 <= i < |s.results| && s.results[i].Complete?
          ensures Genuine(nominal, s.log + more, s.results[i].measurement)
        {
          StillGenuine(nominal, s.log, more, s.results[i].measurement);
        }
      case Pass(now) =>
        StepBacked(nominal, s.rx, s.log, now);
    }
  }

  /**
   * A lone pulse of the length of a start bit on an idle line is an error: the line stays low, and so the bit after the
   * first nibble is not the inverse of its last.
   */
  lemma {:induction false} LonePulseFails(nominal: Nominal, start: int, rise: int, fall: int, now: int)
    requires 8 * nominal <= rise - start < WRAP && MinBitLength(nominal) <= fall - rise <= MaxBitLength(nominal)
    requires 13 * (fall - rise) < 2 * (now - fall) < 2 * WRAP
    ensures var p := Pass(now);
      After(nominal, start, [Edge(true, rise), Edge(false, fall + DEBOUNCE_SKEW), p, p, p, p]).results == [Failed]
  {
    hide AwaitNibble;
    var p := Pass(now);
    var events := [Edge(true, rise), Edge(false, fall + DEBOUNCE_SKEW), p, p, p, p];
    var log, bit := [start, rise, fall], fall - rise;
    var s2 := Reception(Rx(WaitingForStartBit, 1, 0, 0, 0, 0), log, []);
    var s3 := s2.(rx := s2.rx.(state := WaitingForEndOfStartBit));
    var s4 := s2.(rx := Rx(WaitingForNibble, 2, bit, 2, 0, 0));
    TwoEdges(nominal, start, rise, fall);
    assert Next(nominal, s2, p) == s3;
    assert Next(nominal, s3, p) == s4;
    LowNibble(nominal, s4.rx, log, now);
    var s5 := Next(nominal, s4, p);
    assert Recovering(s5.rx) && s5.results == [];
    assert Next(nominal, s5, p).results == [Failed];
    SixEvents(nominal, start, events);
  }

  lemma {:induction false} TwoEdges(nominal: Nominal, start: int, rise: int, fall: int)
    ensures var s0 := After(nominal, start, []);
      Next(nominal, Next(nominal, s0, Edge(true, rise)), Edge(false, fall + DEBOUNCE_SKEW))
      == Reception(Rx(WaitingForStartBit, 1, 0, 0, 0, 0), [start, rise, fall], [])
  {
    assert [start] + [rise] == [start, rise] && [start, rise] + [fall] == [start, rise, fall];
  }

  /** With no more edges the line is low throughout. */
  lemma {:induction false} LowNibble(nominal: Nominal, rx: Rx, log: seq<int>, now: int)
    requires |log| == 3 && rx.state.WaitingForNibble? && rx.last == 2 && rx.nibbles == 0 && rx.read == 2
    requires 13 * rx.startBit < 2 * Elapsed(now, log[2])
    ensures var (next, outcome) := AwaitNibble(rx, log, now, 3); Recovering(next) && outcome.Again?
  {
    hide AwaitNibble, Clean;
    NibbleAdded(rx, log, now, 3);
    var ages := Ages(log, 3, 2);
    assert !High(ages, 2, Middle(rx.startBit, 3)) && !High(ages, 2, Middle(rx.startBit, 4));
  }

  lemma {:induction false} SixEvents(nominal: Nominal, start: int, events: seq<Event>)
    requires |events| == 6
    ensures var s2 := Next(nominal, Next(nominal, After(nominal, start, []), events[0]), events[1]);
      var s4 := Next(nominal, Next(nominal, s2, events[2]), events[3]);
      After(nominal, start, events) == Next(nominal, Next(nominal, s4, events[4]), events[5])
  {
    hide Next;
    FourEvents(nominal, start, events[..4]);
    assert events[..4][..3] == events[..3];
    RunGrows(nominal, start, events, 4);
    RunGrows(nominal, start, events, 5);
    assert events[..6] == events;
  }
}
