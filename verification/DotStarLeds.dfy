/** Sending colours to a strip of LEDs in chunks of limited size. */
module DotStarLeds {
  import opened Basics

  const MAX_CHUNK_SIZE := 30
  const WORD := 0x1_0000_0000

  datatype Colour = Colour(red: bv32, green: bv32, blue: bv32, brightness: bv32)

  /** A command to set the next LEDs of the strip. Unless others follow, it is the last for the strip. */
  datatype Command = Command(colour: Colour, leds: nat, following: bool)

  datatype GCodeResult = Ok | NotFinished

  function LedFrame(c: Colour): bv32 {
    (c.brightness & 31) | 0xE0 | ((c.blue & 255) << 8) | ((c.green & 255) << 16) | ((c.red & 255) << 24)
  }

  function Repeat(w: bv32, n: nat): seq<bv32> { if n == 0 then [] else Repeat(w, n - 1) + [w] }

  /** How many words of zeros end the data for n LEDs: one for each 64, as far as they fit a chunk. */
  function StopWords(n: nat): nat { Min((n + 63) / 64, MAX_CHUNK_SIZE - 1) }

  /** That is the least number of words that is enough, or as many as fit. */
  lemma {:induction false} StopWordsAre(n: nat)
    ensures StopWords(n) < MAX_CHUNK_SIZE && (64 * StopWords(n) >= n || StopWords(n) == MAX_CHUNK_SIZE - 1)
    ensures StopWords(n) > 0 ==> 64 * (StopWords(n) - 1) < n
  {
  }

  /** The words of a command: a start frame if one is needed, a frame for each LED, and the stop words if it is the
      last. */
  ghost function Words(c: Command, leds: nat, start: bool, stops: nat): seq<bv32> {
    (if start then [0] else []) + Repeat(LedFrame(c.colour), leds) + Repeat(0, stops)
  }

  /** A word with these bits set cannot be mistaken for a start frame or a stop word. */
  predicate IsLed(w: bv32) { w & 0xE0 == 0xE0 }

  lemma {:induction false} FramesAreLeds(c: Colour)
    ensures IsLed(LedFrame(c))
  {
  }

  /** The bytes of a frame, the highest first: red, green, blue, and the brightness under three set bits. */
  datatype Bytes = Bytes(red: bv32, green: bv32, blue: bv32, brightness: bv32)

  function BytesOf(w: bv32): Bytes { Bytes(w >> 24, (w >> 16) & 255, (w >> 8) & 255, w & 255) }

  /** The part of a colour that can be shown. */
  function Shown(c: Colour): Bytes {
    Bytes(c.red % 256, c.green % 256, c.blue % 256, 0xE0 + c.brightness % 32)
  }

  /** A frame shows its colour: each of its bytes reads back. */
  lemma {:induction false} FrameReadsBack(c: Colour)
    ensures BytesOf(LedFrame(c)) == Shown(c)
  {
  }

  /** So frames are equal exactly for colours of which the same is shown. */
  lemma {:induction false} SameFrames(c: Colour, d: Colour)
    ensures LedFrame(c) == LedFrame(d) <==> Shown(c) == Shown(d)
  {
    hide *;
    FrameReadsBack(c);
    FrameReadsBack(d);
    Recomposed(LedFrame(c), LedFrame(d));
  }

  lemma {:induction false} Recomposed(v: bv32, w: bv32)
    ensures BytesOf(v) == BytesOf(w) ==> v == w
  {
  }

  /** A transfer that fits the buffer and is for at least one LED. */
  ghost predicate Carries(transfer: seq<bv32>) {
    |transfer| <= MAX_CHUNK_SIZE && exists i | 0 <= i < |transfer| :: IsLed(transfer[i])
  }

  class DotStar {
    const chunkBuffer: array<bv32>
    var numRemaining: nat      // how much of the current request remains after the current transfer
    var totalSent: nat         // how much was sent since the start frame
    var needStartFrame: bool
    var busy: bool
    ghost var sent: seq<seq<bv32>>  // the words of each transfer that was started

    constructor ()
      ensures chunkBuffer.Length == MAX_CHUNK_SIZE && numRemaining == 0 && needStartFrame && !busy && fresh(chunkBuffer)
      ensures sent == [] && Loaded()
    {
      chunkBuffer, sent := new bv32[MAX_CHUNK_SIZE], [];
      numRemaining, totalSent, needStartFrame, busy := 0, 0, true, false;
    }

    /** Adds copies of a word to the chunk. */
    method Fill(p: nat, w: bv32, n: nat) returns (p': nat)
      requires p + n <= chunkBuffer.Length
      modifies chunkBuffer
      ensures p' == p + n && chunkBuffer[..p'] == old(chunkBuffer[..p]) + Repeat(w, n)
    {
      hide Repeat;
      p' := p;
      var i := 0;
      RepeatNone(w);
      assert chunkBuffer[..p'] == chunkBuffer[..p] + [];
      while i < n
        invariant i <= n && p' == p + i && chunkBuffer[..p'] == old(chunkBuffer[..p]) + Repeat(w, i)
      {
        RepeatMore(w, i);
        chunkBuffer[p'] := w;
        p' := p' + 1;
        i := i + 1;
        assert chunkBuffer[..p'] == chunkBuffer[..p' - 1] + [w];
      }
    }

    /** What is still to be sent, and what was sent since the start frame. */
    ghost function ToSend(c: Command): nat
      reads this
    {
      if numRemaining != 0 then numRemaining else c.leds
    }

    ghost function Base(): nat
      reads this
    {
      if needStartFrame then 0 else totalSent
    }

    /** While a transfer is under way its words are in the buffer. */
    ghost predicate Loaded()
      reads this, chunkBuffer
    {
      busy ==> sent != [] && Holds(sent[|sent| - 1])
    }

    ghost predicate Holds(transfer: seq<bv32>)
      reads chunkBuffer
    {
      |transfer| <= chunkBuffer.Length && chunkBuffer[..|transfer|] == transfer
    }

    /** Nothing is done because the last transfer is still under way. */
    ghost predicate Waiting(transferEnded: bool)
      reads this
    {
      busy && !transferEnded
    }

    /** There is nothing to send. */
    ghost predicate Nothing(c: Command, seen: bool)
      reads this
    {
      !seen || (c.leds == 0 && !needStartFrame && !c.following)
    }

    /** Sends the next chunk of a command, unless the last transfer is still under way. The result says whether the
        command is finished. */
    method SetColours(c: Command, seen: bool, transferEnded: bool) returns (result: GCodeResult)
      requires chunkBuffer.Length == MAX_CHUNK_SIZE && Base() + ToSend(c) + 63 < WORD && Loaded()
      modifies this, chunkBuffer
      ensures Loaded()
      ensures old(Waiting(transferEnded)) ==> result == NotFinished && busy
      ensures !old(Waiting(transferEnded)) && old(Nothing(c, seen)) ==> result == Ok && !busy
      ensures old(Waiting(transferEnded)) || old(Nothing(c, seen)) ==>
        && sent == old(sent) && numRemaining == old(numRemaining)
        && totalSent == old(totalSent) && needStartFrame == old(needStartFrame)
      ensures !old(Waiting(transferEnded)) && !old(Nothing(c, seen)) ==>
        && |sent| == |old(sent)| + 1 && sent[..|old(sent)|] == old(sent)
        && Sent(c, old(ToSend(c)), old(Base()), old(needStartFrame), result, sent[|old(sent)|])
    {
      hide Sent;
      if busy {
        if !transferEnded {
          return NotFinished;
        }
        busy := false;
      }
      if !seen || (c.leds == 0 && !needStartFrame && !c.following) {
        return Ok;
      }
      var numLeds := c.leds;
      if numRemaining != 0 {
        numLeds := numRemaining;
      }
      result := SendChunk(c, numLeds);
    }

    /** A chunk of at least one LED has been sent, after a start frame if one was needed, and with the stop words if
        nothing remains and nothing follows. */
    ghost predicate Sent(c: Command, leds: nat, base: nat, start: bool, result: GCodeResult, transfer: seq<bv32>)
      reads this
    {
      var last := numRemaining == 0 && !c.following;
      && numRemaining <= leds && (leds > 0 ==> numRemaining < leds)
      && totalSent == base + (leds - numRemaining) && needStartFrame == last && busy
      && transfer == Words(c, leds - numRemaining, start, if last then StopWords(base + leds) else 0)
      && |transfer| <= MAX_CHUNK_SIZE && (result == Ok <==> numRemaining == 0)
    }

    method SendChunk(c: Command, numLeds: nat) returns (result: GCodeResult)
      requires chunkBuffer.Length == MAX_CHUNK_SIZE
      modifies this, chunkBuffer
      ensures |sent| == |old(sent)| + 1 && sent[..|old(sent)|] == old(sent) && Loaded()
      ensures Sent(c, numLeds, old(Base()), old(needStartFrame), result, sent[|old(sent)|])
    {
      hide LedFrame, Repeat, StopWords, Min, Words;
      var start, spaceLeft := needStartFrame, MAX_CHUNK_SIZE;
      if start {
        spaceLeft := spaceLeft - 1;
        totalSent := 0;
      }
      var numStopWordsNeeded := if c.following then 0 else Min((numLeds + totalSent + 63) / 64, MAX_CHUNK_SIZE - 1);
      Fits(numLeds, totalSent, spaceLeft, c.following);
      var thisChunk;
      if numLeds + numStopWordsNeeded <= spaceLeft {
        thisChunk := numLeds;
      } else {
        thisChunk := Min(spaceLeft, numLeds - 1);
        numStopWordsNeeded := 0;
      }
      numRemaining := numLeds - thisChunk;
      totalSent := totalSent + thisChunk;
      needStartFrame := numRemaining == 0 && !c.following;
      var p := Assemble(c, start, thisChunk, numStopWordsNeeded);
      sent := sent + [chunkBuffer[..p]];
      busy := true;
      result := if numRemaining == 0 then Ok else NotFinished;
    }

    /** Puts a start frame if one is needed, the frames of some LEDs, and stop words into the buffer. */
    method Assemble(c: Command, start: bool, leds: nat, stops: nat) returns (p: nat)
      requires chunkBuffer.Length == MAX_CHUNK_SIZE && leds + stops + (if start then 1 else 0) <= MAX_CHUNK_SIZE
      modifies chunkBuffer
      ensures p == leds + stops + (if start then 1 else 0) && chunkBuffer[..p] == Words(c, leds, start, stops)
    {
      hide LedFrame, Repeat;
      p := 0;
      if start {
        chunkBuffer[p] := 0;
        p := p + 1;
      }
      assert chunkBuffer[..p] == if start then [0] else [];
      p := Fill(p, LedFrame(c.colour), leds);
      p := Fill(p, 0, stops);
    }
  }

  /** There is always room for some of the LEDs, and for the stop words of all if there is no room for all. */
  lemma {:induction false} Fits(leds: nat, base: nat, space: nat, following: bool)
    requires space == MAX_CHUNK_SIZE || (space == MAX_CHUNK_SIZE - 1 && base == 0)
    ensures var stops := if following then 0 else Min((leds + base + 63) / 64, MAX_CHUNK_SIZE - 1);
            && (!following ==> stops == StopWords(base + leds))
            && (leds + stops > space ==> leds >= 2 && 0 < Min(space, leds - 1) < leds && Min(space, leds - 1) <= space)
  {
  }

  lemma {:induction false} RepeatNone(w: bv32)
    ensures Repeat(w, 0) == []
  {
  }

  lemma {:induction false} RepeatMore(w: bv32, n: nat)
    ensures Repeat(w, n + 1) == Repeat(w, n) + [w]
  {
  }

  lemma {:induction false} RepeatLength(w: bv32, n: nat)
    ensures |Repeat(w, n)| == n && forall i | 0 <= i < n :: Repeat(w, n)[i] == w
  {
    if n > 0 {
      RepeatLength(w, n - 1);
    }
  }

  lemma {:induction false} RepeatJoins(w: bv32, m: nat, n: nat)
    ensures Repeat(w, m) + Repeat(w, n) == Repeat(w, m + n)
  {
    if n > 0 {
      RepeatJoins(w, m, n - 1);
      assert Repeat(w, m) + (Repeat(w, n - 1) + [w]) == Repeat(w, m) + Repeat(w, n - 1) + [w];
    } else {
      assert Repeat(w, m) + [] == Repeat(w, m);
    }
  }

  // ---------------------------------------------------------------- whole strips

  /** Issues a command until it is finished, asking once in vain whenever a transfer is under way. The transfers it
      starts have exactly its words. */
  method SendCommand(d: DotStar, c: Command) returns (ghost transfers: seq<seq<bv32>>)
    requires d.chunkBuffer.Length == MAX_CHUNK_SIZE && d.Loaded() && d.numRemaining == 0 && c.leds >= 1
    requires d.Base() + c.leds + 63 < WORD
    modifies d, d.chunkBuffer
    ensures d.Loaded()
    ensures d.numRemaining == 0 && d.totalSent == old(d.Base()) + c.leds && d.needStartFrame == !c.following
    ensures d.sent == old(d.sent) + transfers && forall i | 0 <= i < |transfers| :: Carries(transfers[i])
    ensures Flat(transfers) ==
      Words(c, c.leds, old(d.needStartFrame), if c.following then 0 else StopWords(old(d.Base()) + c.leds))
  {
    hide Words, StopWords, LedFrame, Repeat, DotStar.Sent, DotStar.Loaded, Flat, Carries, Underway;
    ghost var base, start := d.Base(), d.needStartFrame;
    transfers := [];
    UnderwayStarts(d, c);
    var result := NotFinished;
    while result == NotFinished
      invariant d.chunkBuffer.Length == MAX_CHUNK_SIZE && d.Loaded() && d.sent == old(d.sent) + transfers
      invariant Underway(c, base, start, transfers, result, d.numRemaining, d.totalSent, d.needStartFrame)
      decreases result == NotFinished, if transfers == [] then c.leds + 1 else d.numRemaining
    {
      UnderwayIs(c, base, start, transfers, result, d.numRemaining, d.totalSent, d.needStartFrame);
      if d.busy {
        var _ := d.SetColours(c, true, false);
      }
      ghost var before, first, n := d.ToSend(c), transfers == [], |d.sent|;
      result := d.SetColours(c, true, true);
      ghost var transfer := d.sent[n];
      SentIs(d, c, before, if first then base else base + c.leds - before, first && start, result, transfer);
      UnderwayStep(d, c, base, start, transfers, before, transfer, result);
      transfers := transfers + [transfer];
    }
    UnderwayIs(c, base, start, transfers, result, d.numRemaining, d.totalSent, d.needStartFrame);
  }

  /** Where a command is when some transfers have been started for it. */
  ghost predicate Underway(c: Command, base: nat, start: bool, transfers: seq<seq<bv32>>, result: GCodeResult,
                           numRemaining: nat, totalSent: nat, needStartFrame: bool)
  {
    var stops := if c.following || result == NotFinished then 0 else StopWords(base + c.leds);
    && (forall i | 0 <= i < |transfers| :: Carries(transfers[i])) && numRemaining < c.leds
    && if transfers == [] then
         numRemaining == 0 && (if needStartFrame then 0 else totalSent) == base && needStartFrame == start
         && result == NotFinished
       else
         && totalSent == base + c.leds - numRemaining
         && Flat(transfers) == Words(c, c.leds - numRemaining, start, stops)
         && (result == Ok <==> numRemaining == 0) && needStartFrame == (result == Ok && !c.following)
  }

  lemma {:induction false} UnderwayStarts(d: DotStar, c: Command)
    requires d.numRemaining == 0 && c.leds >= 1
    ensures Underway(c, d.Base(), d.needStartFrame, [], NotFinished, d.numRemaining, d.totalSent, d.needStartFrame)
  {
  }

  lemma {:induction false} UnderwayIs(c: Command, base: nat, start: bool, transfers: seq<seq<bv32>>,
                                      result: GCodeResult,
                                      numRemaining: nat, totalSent: nat, needStartFrame: bool)
    requires Underway(c, base, start, transfers, result, numRemaining, totalSent, needStartFrame)
    ensures numRemaining < c.leds && forall i | 0 <= i < |transfers| :: Carries(transfers[i])
    ensures transfers == [] ==> numRemaining == 0 && needStartFrame == start && result == NotFinished
    ensures transfers == [] ==> (if needStartFrame then 0 else totalSent) == base
    ensures transfers != [] ==> totalSent == base + c.leds - numRemaining
    ensures transfers != [] && result == NotFinished ==> numRemaining > 0 && !needStartFrame
    ensures transfers == [] ==> Flat(transfers) == []
    ensures transfers != [] && result == NotFinished ==> Flat(transfers) == Words(c, c.leds - numRemaining, start, 0)
    ensures result == Ok ==> transfers != [] && numRemaining == 0 && needStartFrame == !c.following
    ensures result == Ok ==>
      Flat(transfers) == Words(c, c.leds, start, if c.following then 0 else StopWords(base + c.leds))
  {
    hide Words, StopWords, Flat, Carries;
    FlatOne<bv32>([]);
  }

  lemma {:induction false} UnderwayStep(d: DotStar, c: Command, base: nat, start: bool, transfers: seq<seq<bv32>>,
                                        before: nat, transfer: seq<bv32>, result: GCodeResult)
    requires d.numRemaining < before <= c.leds && Carries(transfer)
    requires forall i | 0 <= i < |transfers| :: Carries(transfers[i])
    requires transfers == [] ==> before == c.leds && Flat(transfers) == []
    requires transfers != [] ==> Flat(transfers) == Words(c, c.leds - before, start, 0)
    requires d.totalSent == base + (c.leds - d.numRemaining)
    requires d.needStartFrame == (d.numRemaining == 0 && !c.following) && (result == Ok <==> d.numRemaining == 0)
    requires var stops := if d.numRemaining == 0 && !c.following then StopWords(base + c.leds) else 0;
      transfer == Words(c, before - d.numRemaining, transfers == [] && start, stops)
    ensures Underway(c, base, start, transfers + [transfer], result, d.numRemaining, d.totalSent, d.needStartFrame)
  {
    hide Words, StopWords, Flat, Carries;
    var stops := if d.numRemaining == 0 && !c.following then StopWords(base + c.leds) else 0;
    ChunkAdds(c, transfers == [], Flat(transfers), transfer, start, c.leds - before, before - d.numRemaining, stops);
    FlatJoins(transfers, [transfer]);
    FlatOne(transfer);
  }

  lemma {:induction false} SentIs(d: DotStar, c: Command, leds: nat, base: nat, start: bool, result: GCodeResult,
                                  transfer: seq<bv32>)
    requires d.Sent(c, leds, base, start, result, transfer) && leds > 0
    ensures d.numRemaining < leds && d.totalSent == base + (leds - d.numRemaining)
    ensures d.needStartFrame == (d.numRemaining == 0 && !c.following) && d.busy
    ensures transfer ==
      Words(c, leds - d.numRemaining, start, if d.numRemaining == 0 && !c.following then StopWords(base + leds) else 0)
    ensures Carries(transfer) && (result == Ok <==> d.numRemaining == 0)
  {
    hide LedFrame, IsLed;
    RepeatLength(LedFrame(c.colour), leds - d.numRemaining);
    FramesAreLeds(c.colour);
    assert transfer[if start then 1 else 0] == LedFrame(c.colour);
  }

  /** The words of one chunk and of the next, which has no start frame, are those of both. */
  lemma {:induction false} ChunkAdds(c: Command, first: bool, words: seq<bv32>, transfer: seq<bv32>, start: bool,
                                     done: nat, chunk: nat, stops: nat)
    requires if first then done == 0 && words == [] else words == Words(c, done, start, 0)
    requires transfer == Words(c, chunk, first && start, stops)
    ensures words + transfer == Words(c, done + chunk, start, stops)
  {
    hide LedFrame, Repeat;
    var f := LedFrame(c.colour);
    RepeatNone(0);
    RepeatJoins(f, done, chunk);
    var s := if start then [0] else [];
    if !first {
      assert words == s + Repeat(f, done);
      assert transfer == Repeat(f, chunk) + Repeat(0, stops);
      assert s + Repeat(f, done) + (Repeat(f, chunk) + Repeat(0, stops))
          == s + (Repeat(f, done) + Repeat(f, chunk)) + Repeat(0, stops);
    }
  }

  function Total(commands: seq<Command>): nat {
    if commands == [] then 0 else Total(commands[..|commands| - 1]) + commands[|commands| - 1].leds
  }

  /** The frames of all LEDs, in the order of the commands. */
  function Frames(commands: seq<Command>): seq<bv32> {
    if commands == [] then []
    else
      var last := commands[|commands| - 1];
      Frames(commands[..|commands| - 1]) + Repeat(LedFrame(last.colour), last.leds)
  }

  /** Commands for one strip: each sets at least one LED, and all but the last are followed by another. */
  predicate Strip(commands: seq<Command>) {
    commands != [] && forall i | 0 <= i < |commands| ::
      commands[i].leds >= 1 && (commands[i].following <==> i + 1 < |commands|)
  }

  /** Sends the commands for a strip. The transfers that are started have, in order, exactly the words of one start
      frame, a frame for every LED, and the stop words for their number; each fits the buffer and is for at least one
      LED. */
  method SendStrip(d: DotStar, commands: seq<Command>) returns (ghost transfers: seq<seq<bv32>>)
    requires d.chunkBuffer.Length == MAX_CHUNK_SIZE && d.Loaded() && d.numRemaining == 0 && d.needStartFrame
    requires Strip(commands) && Total(commands) + 63 < WORD
    modifies d, d.chunkBuffer
    ensures d.Loaded()
    ensures d.sent == old(d.sent) + transfers && forall i | 0 <= i < |transfers| :: Carries(transfers[i])
    ensures Flat(transfers) == [0] + Frames(commands) + Repeat(0, StopWords(Total(commands)))
    ensures d.numRemaining == 0 && d.needStartFrame
  {
    hide Words, StopWords, Frames, Total, Repeat, DotStar.Loaded, Flat, Carries, LedFrame;
    transfers := [];
    FlatOne<bv32>([]);
    var k := 0;
    StripStarts(commands);
    while k < |commands|
      invariant k <= |commands| && d.chunkBuffer.Length == MAX_CHUNK_SIZE && d.Loaded() && d.numRemaining == 0
      invariant d.needStartFrame == (k == 0 || k == |commands|)
      invariant 0 < k < |commands| ==> d.totalSent == Total(commands[..k])
      invariant d.sent == old(d.sent) + transfers && forall i | 0 <= i < |transfers| :: Carries(transfers[i])
      invariant k == 0 ==> Flat(transfers) == []
      invariant k > 0 ==>
        Flat(transfers) ==
          [0] + Frames(commands[..k]) + Repeat(0, if k == |commands| then StopWords(Total(commands)) else 0)
    {
      StripStep(commands, k);
      ghost var more := SendCommand(d, commands[k]);
      CommandAdds(commands, k, Flat(transfers), Flat(more));
      FlatJoins(transfers, more);
      transfers := transfers + more;
      k := k + 1;
    }
    assert commands[..k] == commands;
  }

  lemma {:induction false} StripStarts(commands: seq<Command>)
    ensures Total(commands[..0]) == 0
  {
  }

  lemma {:induction false} TotalGrows(commands: seq<Command>, k: nat)
    requires k <= |commands|
    ensures Total(commands[..k]) <= Total(commands)
    decreases |commands|
  {
    if k < |commands| {
      TotalGrows(commands[..|commands| - 1], k);
      assert commands[..|commands| - 1][..k] == commands[..k];
    } else {
      assert commands[..k] == commands;
    }
  }

  lemma {:induction false} StripStep(commands: seq<Command>, k: nat)
    requires k < |commands|
    ensures Total(commands[..k + 1]) == Total(commands[..k]) + commands[k].leds <= Total(commands)
    ensures Frames(commands[..k + 1]) == Frames(commands[..k]) + Repeat(LedFrame(commands[k].colour), commands[k].leds)
    ensures k == 0 ==> Total(commands[..k]) == 0
    ensures k + 1 == |commands| ==> Total(commands[..k + 1]) == Total(commands)
  {
    hide LedFrame, Repeat;
    assert commands[..k + 1][..k] == commands[..k];
    TotalGrows(commands, k + 1);
    assert k + 1 == |commands| ==> commands[..k + 1] == commands;
  }

  lemma {:induction false} NoFrames(commands: seq<Command>)
    ensures Frames(commands[..0]) == []
  {
  }

  lemma {:induction false} CommandAdds(commands: seq<Command>, k: nat, words: seq<bv32>, more: seq<bv32>)
    requires Strip(commands) && k < |commands|
    requires words == if k == 0 then [] else [0] + Frames(commands[..k]) + Repeat(0, 0)
    requires more ==
      Words(commands[k], commands[k].leds, k == 0, if commands[k].following then 0 else StopWords(Total(commands)))
    ensures words + more ==
      [0] + Frames(commands[..k + 1]) + Repeat(0, if k + 1 == |commands| then StopWords(Total(commands)) else 0)
  {
    hide LedFrame, Repeat, StopWords, Total, Frames;
    StripStep(commands, k);
    NoFrames(commands);
    RepeatNone(0);
    var f := Repeat(LedFrame(commands[k].colour), commands[k].leds);
    var stops := Repeat(0, if k + 1 == |commands| then StopWords(Total(commands)) else 0);
    var frames := Frames(commands[..k]);
    if k == 0 {
      FirstAdds(f, stops);
    } else {
      LaterAdds(frames, f, stops);
    }
  }

  lemma {:induction false} FirstAdds(f: seq<bv32>, stops: seq<bv32>)
    ensures [] + ([0] + f + stops) == [0] + ([] + f) + stops
  {
    assert [] + f == f;
  }

  lemma {:induction false} LaterAdds(frames: seq<bv32>, f: seq<bv32>, stops: seq<bv32>)
    ensures [0] + frames + [] + ([] + f + stops) == [0] + (frames + f) + stops
  {
    assert [0] + frames + [] == [0] + frames && [] + f == f;
    assert [0] + frames + (f + stops) == [0] + frames + f + stops;
    assert [0] + frames + f == [0] + (frames + f);
  }
}
