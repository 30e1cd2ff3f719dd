/** Writing JSON strings to output buffers: `EncodeString` and `EncodeReply`. */
module OutputEncoder {
  import opened Basics
  import opened Options
  import opened OutputMemory
  import opened JsonText

  /** The first n characters of `wanted` have been appended to `base`; if some are missing there is no room for more. */
  ghost predicate Emitted(pool: Pool, items: seq<OutputBuffer>, base: string, wanted: string, n: nat)
    reads pool, pool.free`next, items`next, items`last, items`dataLength, items`references, DataOf(items)
  {
    && pool.Live(items) && n <= |wanted|
    && Bytes(items) == base + wanted[..n]
    && (n < |wanted| ==> pool.free == [] && Room(items) == 0)
  }

  /** Appends one character, counting it if there was room. */
  method Put(pool: Pool, buf: OutputBuffer, c: char, written: nat, ghost items: seq<OutputBuffer>, ghost base: string,
             ghost wanted: string)
    returns (written': nat, ghost items': seq<OutputBuffer>)
    requires Emitted(pool, items, base, wanted, written) && buf == items[0]
    modifies pool, Storage(items, pool.free)
    ensures Emitted(pool, items', base, wanted + [c], written') && items' != [] && items'[0] == buf
    ensures Took(items, old(pool.free), items', pool.free)
    ensures buf.hadOverflow == (old(buf.hadOverflow) || written' < |wanted| + 1)
    ensures written < |wanted| ==> written' == written
  {
    hide Distinct, Linked, Points, Bytes, Apart, Filled, Claimed, Storage;
    var n;
    n, items' := pool.CatSome(buf, [c], items);
    written' := written + n;
    assert (wanted + [c])[..written] == wanted[..written];
    if n == 1 {
      assert wanted[..written] == wanted && [c][..1] == [c];
      assert base + wanted + [c] == base + (wanted + [c]);
    }
  }

  /** A chain before anything was written to it. */
  datatype Before = Before(items: seq<OutputBuffer>, free: seq<OutputBuffer>, bytes: seq<char>, overflow: bool)

  /** What has been written so far, and where, relative to the state before the first character. */
  ghost predicate Writing(pool: Pool, buf: OutputBuffer, items: seq<OutputBuffer>, so: Before, wanted: string, n: nat)
    reads pool, pool.free`next, items`next, items`last, items`dataLength, items`references, DataOf(items)
    reads buf`hadOverflow
  {
    && Emitted(pool, items, so.bytes, wanted, n) && items[0] == buf
    && Took(so.items, so.free, items, pool.free)
    && buf.hadOverflow == (so.overflow || n < |wanted|)
  }

  method Write(pool: Pool, buf: OutputBuffer, c: char, written: nat, ghost items: seq<OutputBuffer>,
               ghost so: Before, ghost wanted: string)
    returns (written': nat, ghost items': seq<OutputBuffer>)
    requires Writing(pool, buf, items, so, wanted, written)
    modifies pool, Storage(items, pool.free)
    ensures Writing(pool, buf, items', so, wanted + [c], written')
    ensures Storage(items', pool.free) <= old(Storage(items, pool.free))
  {
    hide Emitted, Took, Storage;
    EmittedSome(pool, items, so.bytes, wanted, written);
    written', items' := Put(pool, buf, c, written, items, so.bytes, wanted);
    TookFacts(items, old(pool.free), items', pool.free);
    TookTrans(so.items, so.free, items, old(pool.free), items', pool.free);
  }

  lemma {:induction false} EmittedSome(pool: Pool, items: seq<OutputBuffer>, base: string, wanted: string, n: nat)
    requires Emitted(pool, items, base, wanted, n)
    ensures items != [] && n <= |wanted|
  {
  }

  lemma {:induction false} WritingStarts(pool: Pool, buf: OutputBuffer, items: seq<OutputBuffer>)
    requires pool.Live(items) && buf == items[0]
    ensures Distinct(items) && Filled(items)
    ensures Writing(pool, buf, items, Before(items, pool.free, Bytes(items), buf.hadOverflow), "", 0)
  {
    assert Bytes(items) + ""[..0] == Bytes(items);
  }

  lemma {:induction false} WritingEnds(pool: Pool, buf: OutputBuffer, items: seq<OutputBuffer>, so: Before,
                                       wanted: string, n: nat)
    requires Writing(pool, buf, items, so, wanted, n)
    ensures pool.Live(items) && items != [] && items[0] == buf && Distinct(items) && Filled(items) && n <= |wanted|
    ensures Bytes(items) == so.bytes + wanted[..n] && Took(so.items, so.free, items, pool.free)
    ensures buf.hadOverflow == (so.overflow || n < |wanted|)
  {
  }

  /** Writes the encodable part of a text, escaped, between quotes if wanted. What arrives is always a prefix of the
      encoding as long as the result says; it is the whole encoding unless an overflow is flagged. */
  method EncodeString(pool: Pool, buf: OutputBuffer, src: string, allowControlChars: bool, encapsulate: bool,
                      asterisk: bool,
                      ghost items: seq<OutputBuffer>)
    returns (bytesWritten: nat, ghost items': seq<OutputBuffer>)
    requires pool.Live(items) && buf == items[0]
    modifies pool, Storage(items, pool.free)
    ensures pool.Live(items') && items' != [] && items'[0] == buf && Took(items, old(pool.free), items', pool.free)
    ensures bytesWritten <= |Encoding(src, allowControlChars, encapsulate, asterisk)|
    ensures Bytes(items') == old(Bytes(items)) + Encoding(src, allowControlChars, encapsulate, asterisk)[..bytesWritten]
    ensures buf.hadOverflow ==
      (old(buf.hadOverflow) || bytesWritten < |Encoding(src, allowControlChars, encapsulate, asterisk)|)
  {
    hide *;
    WritingStarts(pool, buf, items);
    ghost var so := Before(items, pool.free, Bytes(items), buf.hadOverflow);
    ghost var wanted := "";
    bytesWritten, items' := 0, items;
    if encapsulate {
      bytesWritten, items' := Write(pool, buf, '"', bytesWritten, items', so, wanted);
      wanted := wanted + ['"'];
    }
    if asterisk {
      bytesWritten, items' := Write(pool, buf, '*', bytesWritten, items', so, wanted);
      wanted := wanted + ['*'];
    }
    ghost var opening := wanted;
    var srcPointer := 0;
    NothingEscaped(src, opening);
    while srcPointer < |src| && src[srcPointer] != '\0' && (src[srcPointer] >= ' ' || allowControlChars)
      invariant srcPointer <= |src| && forall i | 0 <= i < srcPointer :: Accepted(src[i], allowControlChars)
      invariant Writing(pool, buf, items', so, wanted, bytesWritten)
      invariant Storage(items', pool.free) <= old(Storage(items, pool.free))
      invariant wanted == opening + EscapeAll(src[..srcPointer])
    {
      var c := src[srcPointer];
      IsAccepted(c, allowControlChars);
      EscapesTo(c, wanted);
      match EscapeLetter(c) {
        case Some(esc) =>
          bytesWritten, items' := Write(pool, buf, '\\', bytesWritten, items', so, wanted);
          bytesWritten, items' := Write(pool, buf, esc, bytesWritten, items', so, wanted + ['\\']);
        case None =>
          bytesWritten, items' := Write(pool, buf, c, bytesWritten, items', so, wanted);
      }
      EscapeGrowsAfter(opening, src, srcPointer);
      wanted := wanted + Escape(c);
      srcPointer := srcPointer + 1;
    }
    StopsAt(src, allowControlChars, srcPointer);
    if encapsulate {
      bytesWritten, items' := Write(pool, buf, '"', bytesWritten, items', so, wanted);
      wanted := wanted + ['"'];
    }
    EncodingIs(src, allowControlChars, encapsulate, asterisk, srcPointer, opening, wanted);
    WritingEnds(pool, buf, items', so, wanted, bytesWritten);
  }

  lemma {:induction false} NothingEscaped(src: string, opening: string)
    ensures opening == opening + EscapeAll(src[..0])
  {
  }

  lemma {:induction false} IsAccepted(c: char, allowControlChars: bool)
    ensures Accepted(c, allowControlChars) == (c != '\0' && (c >= ' ' || allowControlChars))
  {
  }

  lemma {:induction false} EscapesTo(c: char, wanted: string)
    ensures match EscapeLetter(c)
            case Some(esc) => wanted + Escape(c) == wanted + ['\\'] + [esc]
            case None => wanted + Escape(c) == wanted + [c]
  {
  }

  lemma {:induction false} EscapeGrowsAfter(opening: string, src: string, n: nat)
    requires n < |src|
    ensures opening + EscapeAll(src[..n]) + Escape(src[n]) == opening + EscapeAll(src[..n + 1])
  {
    EscapeGrows(src, n);
    assert opening + EscapeAll(src[..n]) + Escape(src[n]) == opening + (EscapeAll(src[..n]) + Escape(src[n]));
  }

  lemma {:induction false} StopsAt(src: string, allowControlChars: bool, n: nat)
    requires n <= |src| && forall i | 0 <= i < n :: Accepted(src[i], allowControlChars)
    requires !(n < |src| && src[n] != '\0' && (src[n] >= ' ' || allowControlChars))
    ensures Encodable(src, allowControlChars) == src[..n]
  {
    EncodableStops(src, allowControlChars, n);
  }

  lemma {:induction false} EncodingIs(src: string, allowControlChars: bool, encapsulate: bool, asterisk: bool, n: nat,
                                      opening: string, wanted: string)
    requires n <= |src| && Encodable(src, allowControlChars) == src[..n]
    requires opening == (if encapsulate then "\"" else "") + (if asterisk then "*" else "")
    requires wanted == opening + EscapeAll(src[..n]) + (if encapsulate then "\"" else "")
    ensures wanted == Encoding(src, allowControlChars, encapsulate, asterisk)
  {
  }

  // ---------------------------------------------------------------- EncodeReply

  /** Two separate chains in use: one written to, and one that is being used up. */
  ghost predicate Both(pool: Pool, items: seq<OutputBuffer>, rest: seq<OutputBuffer>)
    reads pool, pool.free`next, items`next, items`last, items`dataLength, items`references, rest`next, rest`dataLength
    reads rest`references
  {
    && pool.Live(items)
    && (rest != [] ==> List(rest) && Unshared(rest))
    && Apart(items, rest) && Apart(rest, pool.free)
    && |items| + |rest| <= pool.usedOutputBuffers
  }

  /** The contents of the buffers of a list. */
  ghost predicate Hold(rest: seq<OutputBuffer>, texts: seq<string>)
    reads rest`dataLength, DataOf(rest)
  {
    && |rest| == |texts|
    && (forall i | 0 <= i < |rest| ::
          rest[i].dataLength <= rest[i].data.Length && rest[i].data[..rest[i].dataLength] == texts[i])
  }

  /** The encodings of several texts, one after the other. */
  function EncodeEach(texts: seq<string>, allowControlChars: bool): string {
    if texts == [] then ""
    else
      EncodeEach(texts[..|texts| - 1], allowControlChars)
      + EscapeAll(Encodable(texts[|texts| - 1], allowControlChars))
  }

  lemma {:induction false} RestUntouched(items: seq<OutputBuffer>, rest: seq<OutputBuffer>, free: seq<OutputBuffer>)
    requires Apart(items, rest) && Apart(rest, free)
    ensures forall i | 0 <= i < |rest| :: rest[i] !in Storage(items, free) && rest[i].data !in Storage(items, free)
  {
  }

  lemma {:induction false} BothAfterWrite(pool: Pool, items: seq<OutputBuffer>, free: seq<OutputBuffer>,
                                          items': seq<OutputBuffer>, rest: seq<OutputBuffer>, used: nat)
    requires pool.Live(items') && Took(items, free, items', pool.free) && used + |free| == pool.bufferCount
    requires rest != [] ==> List(rest) && Unshared(rest)
    requires Apart(items, rest) && Apart(rest, free) && |items| + |rest| <= used
    ensures Both(pool, items', rest)
  {
    assert forall b | b in items' :: b in items || b in free;
    assert forall b | b in pool.free :: b in free;
  }

  lemma {:induction false} BothAfterRelease(pool: Pool, items: seq<OutputBuffer>, rest: seq<OutputBuffer>,
                                            free: seq<OutputBuffer>)
    requires items != [] && Chain(items) && rest != [] && pool.Valid() && pool.free == [rest[0]] + free
    requires |rest| > 1 ==> pool.Held(rest[1..]) && Unshared(rest[1..])
    requires Apart(items, rest) && Apart(items, free) && |items| + |rest| - 1 <= pool.usedOutputBuffers
    ensures Both(pool, items, rest[1..])
  {
    assert rest == [rest[0]] + rest[1..];
  }

  /** Encodes the first buffer of a list behind `items`. */
  method EncodeFirst(pool: Pool, buf: OutputBuffer, src: OutputBuffer, allowControlChars: bool,
                     ghost items: seq<OutputBuffer>, ghost rest: seq<OutputBuffer>, ghost texts: seq<string>)
    returns (n: nat, ghost items': seq<OutputBuffer>)
    requires Both(pool, items, rest) && rest != [] && src == rest[0] && buf == items[0] && Hold(rest, texts)
    modifies pool, Storage(items, pool.free)
    ensures Both(pool, items', rest) && items'[0] == buf && Hold(rest, texts)
    ensures Took(items, old(pool.free), items', pool.free)
    ensures old(buf.hadOverflow) ==> buf.hadOverflow
    ensures !buf.hadOverflow ==>
      && n == |EscapeAll(Encodable(texts[0], allowControlChars))|
      && Bytes(items') == old(Bytes(items)) + EscapeAll(Encodable(texts[0], allowControlChars))
  {
    hide Linked, Points, Storage, Bytes, Claimed, Apart, Encoding, EscapeAll, Encodable, Took;
    ghost var free0, used0 := pool.free, pool.usedOutputBuffers;
    RestUntouched(items, rest, free0);
    BareEncoding(texts[0], allowControlChars);
    n, items' := EncodeString(pool, buf, src.data[..src.dataLength], allowControlChars, false, false, items);
    BothAfterWrite(pool, items, free0, items', rest, used0);
  }

  lemma {:induction false} BareEncoding(text: string, allowControlChars: bool)
    ensures Encoding(text, allowControlChars, false, false) == EscapeAll(Encodable(text, allowControlChars))
    ensures forall s: string :: s[..|s|] == s
  {
  }

  /** Releases the first buffer of a list that is being used up. */
  method ReleaseFirst(pool: Pool, src: OutputBuffer, ghost items: seq<OutputBuffer>, ghost rest: seq<OutputBuffer>)
    returns (next: OutputBuffer?)
    requires Both(pool, items, rest) && rest != [] && src == rest[0]
    modifies pool, src`next, src`references, src`bytesRead
    ensures Both(pool, items, rest[1..]) && next == At(rest[1..], 0) && pool.free == [src] + old(pool.free)
  {
    hide Linked, Points, Distinct, Filled, Claimed;
    assert src in rest && forall i | 0 <= i < |items| :: items[i] in items && items[i] != src;
    ghost var free0 := pool.free;
    next := pool.Release(src, rest);
    BothAfterRelease(pool, items, rest, free0);
  }

  /** What `EncodeReply` has done so far: the first k texts are encoded behind the opening quote, unless it
      overflowed. */
  ghost predicate Replying(pool: Pool, buf: OutputBuffer, items: seq<OutputBuffer>, rest: seq<OutputBuffer>,
                           base: string, texts: seq<string>, k: nat, allowControlChars: bool, n: nat)
    reads pool, pool.free`next, items`next, items`last, items`dataLength, items`references, DataOf(items),
          rest`next, rest`dataLength, rest`references, DataOf(rest), buf`hadOverflow
  {
    && Both(pool, items, rest) && items[0] == buf && k <= |texts| && Hold(rest, texts[k..])
    && (!buf.hadOverflow ==>
          var out := "\"" + EncodeEach(texts[..k], allowControlChars);
          n == |out| && Bytes(items) == base + out)
  }

  /** Encodes and releases one buffer of the source chain. */
  method EncodeBuffer(pool: Pool, buf: OutputBuffer, src: OutputBuffer, written: nat, allowControlChars: bool,
                      ghost items: seq<OutputBuffer>, ghost rest: seq<OutputBuffer>, ghost base: string,
                      ghost texts: seq<string>, ghost k: nat)
    returns (written': nat, next: OutputBuffer?, ghost items': seq<OutputBuffer>)
    requires Replying(pool, buf, items, rest, base, texts, k, allowControlChars, written) && rest != []
    requires src == rest[0]
    modifies pool, Storage(items, pool.free), src`next, src`references, src`bytesRead
    ensures k < |texts| && Replying(pool, buf, items', rest[1..], base, texts, k + 1, allowControlChars, written')
    ensures next == At(rest[1..], 0)
    ensures old(buf.hadOverflow) ==> buf.hadOverflow
    ensures pool.free != [] && pool.free[0] == src && Took(items, old(pool.free), items', pool.free[1..])
  {
    hide Linked, Points, Storage, Bytes, Claimed, Apart, EscapeAll, Encodable, EncodeEach, Took, Unshared, Both,
         Pool.Valid;
    var n;
    n, items' := EncodeFirst(pool, buf, src, allowControlChars, items, rest, texts[k..]);
    written' := written + n;
    BothTidy(pool, items', rest);
    label encoded:
    next := ReleaseFirst(pool, src, items', rest);
    BothTidy(pool, items', rest[1..]);
    BytesUnchanged@encoded(items');
    EachGrows(texts, k, allowControlChars, base);
  }

  lemma {:induction false} BothTidy(pool: Pool, items: seq<OutputBuffer>, rest: seq<OutputBuffer>)
    requires Both(pool, items, rest)
    ensures items != [] && Distinct(items) && Filled(items)
    ensures forall i, j | 0 <= i < |items| && 0 <= j < |rest| :: items[i] != rest[j]
  {
  }

  lemma {:induction false} EachGrows(texts: seq<string>, k: nat, allowControlChars: bool, base: string)
    requires k < |texts|
    ensures texts[k..][0] == texts[k] && texts[k..][1..] == texts[k + 1..]
    ensures var out := "\"" + EncodeEach(texts[..k], allowControlChars);
            var more := EscapeAll(Encodable(texts[k], allowControlChars));
            && "\"" + EncodeEach(texts[..k + 1], allowControlChars) == out + more
            && base + out + more == base + (out + more)
  {
    assert texts[..k + 1][..k] == texts[..k];
  }

  /** Writes a quote while another chain is in use. */
  method Quote(pool: Pool, buf: OutputBuffer, ghost items: seq<OutputBuffer>, ghost rest: seq<OutputBuffer>,
               ghost texts: seq<string>)
    returns (n: nat, ghost items': seq<OutputBuffer>)
    requires Both(pool, items, rest) && buf == items[0] && Hold(rest, texts)
    modifies pool, Storage(items, pool.free)
    ensures Both(pool, items', rest) && items'[0] == buf && Hold(rest, texts)
    ensures Took(items, old(pool.free), items', pool.free)
    ensures old(buf.hadOverflow) ==> buf.hadOverflow
    ensures !buf.hadOverflow ==> n == 1 && Bytes(items') == old(Bytes(items)) + "\""
  {
    hide Linked, Points, Storage, Bytes, Claimed, Apart, Took;
    ghost var free0, used0 := pool.free, pool.usedOutputBuffers;
    RestUntouched(items, rest, free0);
    assert Bytes(items) + ""[..0] == Bytes(items) && "" + ['"'] == "\"" && "\""[..1] == "\"";
    n, items' := Put(pool, buf, '"', 0, items, Bytes(items), "");
    BothAfterWrite(pool, items, free0, items', rest, used0);
  }

  lemma {:induction false} Conserved(items: seq<OutputBuffer>, free: seq<OutputBuffer>, items': seq<OutputBuffer>,
                                     free': seq<OutputBuffer>)
    requires Took(items, free, items', free')
    ensures multiset(items' + free') == multiset(items + free)
    ensures Storage(items', free') <= Storage(items, free)
  {
    TookFacts(items, free, items', free');
    assert items' + free' == items + free;
  }

  lemma {:induction false} ConservedRelease(items: seq<OutputBuffer>, free: seq<OutputBuffer>,
                                            items': seq<OutputBuffer>, free': seq<OutputBuffer>)
    requires free' != [] && Took(items, free, items', free'[1..])
    ensures multiset(items' + free') == multiset(items + free) + multiset{free'[0]}
    ensures Storage(items', free') <= Storage(items, free) + Storage([free'[0]], [])
  {
    Conserved(items, free, items', free'[1..]);
    WithFirst(items', free');
    FirstStorage(items', free');
  }

  lemma {:induction false} WithFirst(items: seq<OutputBuffer>, free: seq<OutputBuffer>)
    requires free != []
    ensures multiset(items + free) == multiset(items + free[1..]) + multiset{free[0]}
  {
    assert free == [free[0]] + free[1..];
  }

  lemma {:induction false} FirstStorage(items: seq<OutputBuffer>, free: seq<OutputBuffer>)
    requires free != []
    ensures Storage(items, free) <= Storage(items, free[1..]) + Storage([free[0]], [])
  {
    forall b | b in items + free ensures b in items + free[1..] || b in [free[0]] + [] {
    }
  }

  /** Encodes a whole reply as one JSON string and releases it, buffer by buffer. Unless an overflow is flagged, the
      text appended is the quoted encoding of the buffers' contents and the result is its length. Every buffer of the
      source ends up free, or reused for the encoding. */
  method EncodeReply(pool: Pool, buf: OutputBuffer, src: OutputBuffer?, allowControlChars: bool,
                     ghost items: seq<OutputBuffer>, ghost srcItems: seq<OutputBuffer>, ghost texts: seq<string>)
    returns (bytesWritten: nat, ghost items': seq<OutputBuffer>)
    requires Both(pool, items, srcItems) && buf == items[0] && src == At(srcItems, 0) && Hold(srcItems, texts)
    modifies pool, Storage(items, pool.free), Storage(srcItems, [])
    ensures pool.Live(items') && items'[0] == buf
    ensures !buf.hadOverflow ==>
      && bytesWritten == |"\"" + EncodeEach(texts, allowControlChars) + "\""|
      && Bytes(items') == old(Bytes(items)) + ("\"" + EncodeEach(texts, allowControlChars) + "\"")
    ensures multiset(items' + pool.free) == multiset(items + old(pool.free)) + multiset(srcItems)
  {
    hide *;
    BothTidy(pool, items, srcItems);
    ghost var base, free0 := Bytes(items), pool.free;
    bytesWritten, items' := Quote(pool, buf, items, srcItems, texts);
    var item := src;
    ghost var k := 0;
    Conserved(items, free0, items', pool.free);
    ReplyOpened(pool, buf, items', srcItems, base, texts, allowControlChars, bytesWritten);
    ConservesNone(items + free0, srcItems, items' + pool.free);
    while item != null
      invariant k <= |srcItems| && item == At(srcItems[k..], 0)
      invariant Replying(pool, buf, items', srcItems[k..], base, texts, k, allowControlChars, bytesWritten)
      invariant Storage(items', pool.free) <= old(Storage(items, pool.free)) + Storage(srcItems, [])
      invariant Conserves(items + free0, srcItems[..k], items' + pool.free)
      decreases |srcItems| - k
    {
      ghost var before, free1 := items', pool.free;
      NextOf(srcItems, k);
      bytesWritten, item, items' := EncodeBuffer(pool, buf, item, bytesWritten, allowControlChars, before,
                                                 srcItems[k..], base, texts, k);
      ConservedRelease(before, free1, items', pool.free);
      ConservesNext(items + free0, srcItems, k, before + free1, items' + pool.free);
      k := k + 1;
    }
    AllRead(pool, buf, items', srcItems, base, texts, k, allowControlChars, bytesWritten);
    ghost var before, free1 := items', pool.free;
    var n;
    n, items' := Quote(pool, buf, before, [], []);
    Conserved(before, free1, items', pool.free);
    bytesWritten := bytesWritten + n;
    ReplyClosed(pool, items', base, EncodeEach(texts, allowControlChars));
    ConservesAll(items + free0, srcItems, k, before + free1, items' + pool.free);
  }

  /** What there was before, and what has been used up since, is what there is. */
  ghost predicate Conserves(before: seq<OutputBuffer>, done: seq<OutputBuffer>, after: seq<OutputBuffer>) {
    multiset(after) == multiset(before) + multiset(done)
  }

  lemma {:induction false} ConservesNone(before: seq<OutputBuffer>, srcItems: seq<OutputBuffer>,
                                         after: seq<OutputBuffer>)
    requires multiset(after) == multiset(before)
    ensures Conserves(before, srcItems[..0], after)
  {
  }

  lemma {:induction false} ConservesNext(before: seq<OutputBuffer>, srcItems: seq<OutputBuffer>, k: nat,
                                         after: seq<OutputBuffer>, after': seq<OutputBuffer>)
    requires k < |srcItems| && Conserves(before, srcItems[..k], after)
    requires multiset(after') == multiset(after) + multiset{srcItems[k]}
    ensures Conserves(before, srcItems[..k + 1], after')
  {
    assert srcItems[..k + 1] == srcItems[..k] + [srcItems[k]];
  }

  lemma {:induction false} ConservesAll(before: seq<OutputBuffer>, srcItems: seq<OutputBuffer>, k: nat,
                                        after: seq<OutputBuffer>, after': seq<OutputBuffer>)
    requires k <= |srcItems| && srcItems[..k] == srcItems && Conserves(before, srcItems[..k], after)
    requires multiset(after') == multiset(after)
    ensures multiset(after') == multiset(before) + multiset(srcItems)
  {
  }

  lemma {:induction false} ReplyOpened(pool: Pool, buf: OutputBuffer, items: seq<OutputBuffer>,
                                       srcItems: seq<OutputBuffer>, base: string,
                    texts: seq<string>, allowControlChars: bool, n: nat)
    requires Both(pool, items, srcItems) && items[0] == buf && Hold(srcItems, texts)
    requires !buf.hadOverflow ==> n == 1 && Bytes(items) == base + "\""
    ensures Replying(pool, buf, items, srcItems[0..], base, texts, 0, allowControlChars, n)
    ensures srcItems[0..] == srcItems && srcItems[..0] == []
  {
    assert srcItems[0..] == srcItems && texts[0..] == texts && texts[..0] == [];
    assert "\"" + "" == "\"";
  }

  lemma {:induction false} NextOf(srcItems: seq<OutputBuffer>, k: nat)
    requires k <= |srcItems| && At(srcItems[k..], 0) != null
    ensures k < |srcItems| && srcItems[k..] != [] && srcItems[k..][0] == srcItems[k] == At(srcItems[k..], 0)
    ensures srcItems[k..][1..] == srcItems[k + 1..] && srcItems[..k + 1] == srcItems[..k] + [srcItems[k]]
    ensures srcItems[k] in Storage(srcItems, []) && Storage([srcItems[k]], []) <= Storage(srcItems, [])
  {
    InStorage(srcItems, []);
    assert srcItems + [] == srcItems && [srcItems[k]] + [] == [srcItems[k]];
  }

  lemma {:induction false} AllRead(pool: Pool, buf: OutputBuffer, items: seq<OutputBuffer>,
                                   srcItems: seq<OutputBuffer>, base: string,
                texts: seq<string>, k: nat, allowControlChars: bool, n: nat)
    requires k <= |srcItems| && At(srcItems[k..], 0) == null
    requires Replying(pool, buf, items, srcItems[k..], base, texts, k, allowControlChars, n)
    ensures srcItems[..k] == srcItems && Both(pool, items, []) && Hold([], [])
    ensures items != [] && Distinct(items) && Filled(items) && items[0] == buf
    ensures !buf.hadOverflow ==>
              var out := "\"" + EncodeEach(texts, allowControlChars); n == |out| && Bytes(items) == base + out
  {
    assert srcItems[k..] == [] && texts[..k] == texts;
  }

  lemma {:induction false} ReplyClosed(pool: Pool, items: seq<OutputBuffer>, base: string, body: string)
    requires Both(pool, items, [])
    ensures pool.Live(items) && items != [] && Distinct(items) && Filled(items)
    ensures base + ("\"" + body) + "\"" == base + ("\"" + body + "\"")
  {
  }

  /** What is kept of a chain's text: of each buffer, the part that can be encoded. */
  function Kept(texts: seq<string>, allowControlChars: bool): string {
    if texts == [] then ""
    else Kept(texts[..|texts| - 1], allowControlChars) + Encodable(texts[|texts| - 1], allowControlChars)
  }

  /** Every character may be encoded. */
  predicate AllAccepted(text: string, allowControlChars: bool) {
    forall i | 0 <= i < |text| :: Accepted(text[i], allowControlChars)
  }

  /**
   * The reply is one quoted string that stands for what is kept of the chain's text, however it was split into buffers;
   * it is valid JSON (section 7 of RFC 8259) if and only if that is printable. All of the text is kept unless a buffer
   * has a character in it that may not be encoded.
   */
  lemma {:induction false} ReplyReadsBack(texts: seq<string>, allowControlChars: bool, strict: bool)
    ensures ReadString("\"" + EncodeEach(texts, allowControlChars) + "\"", strict)
      == Recovered(Kept(texts, allowControlChars), strict)
    ensures Kept(texts, allowControlChars) == Flat(texts)
      <==> forall i | 0 <= i < |texts| :: AllAccepted(texts[i], allowControlChars)
  {
    hide Chars, EscapeAll;
    EachIsWhole(texts, allowControlChars);
    var kept := Kept(texts, allowControlChars);
    ReadsBack(kept, strict);
    var s := "\"" + EscapeAll(kept) + "\"";
    assert s[1..|s| - 1] == EscapeAll(kept);
    AllKept(texts, allowControlChars);
  }

  lemma {:induction false} NoneEscaped()
    ensures EscapeAll("") == ""
  {
  }

  lemma {:induction false} EachIsWhole(texts: seq<string>, allowControlChars: bool)
    ensures EncodeEach(texts, allowControlChars) == EscapeAll(Kept(texts, allowControlChars))
  {
    hide EscapeAll, Encodable;
    NoneEscaped();
    if texts != [] {
      var most, last := texts[..|texts| - 1], texts[|texts| - 1];
      EachIsWhole(most, allowControlChars);
      EscapeJoins(Kept(most, allowControlChars), Encodable(last, allowControlChars));
    }
  }

  lemma {:induction false} AllKept(texts: seq<string>, allowControlChars: bool)
    ensures |Kept(texts, allowControlChars)| <= |Flat(texts)|
    ensures Kept(texts, allowControlChars) == Flat(texts)
      <==> forall i | 0 <= i < |texts| :: AllAccepted(texts[i], allowControlChars)
  {
    hide Encodable, AllAccepted;
    if texts != [] {
      var most, last := texts[..|texts| - 1], texts[|texts| - 1];
      AllKept(most, allowControlChars);
      WholeIfAccepted(last, allowControlChars);
      var kept, all := Kept(most, allowControlChars), Flat(most);
      if kept + Encodable(last, allowControlChars) == all + last {
        assert |kept| == |all|;
        assert kept == (all + last)[..|all|] == all;
      }
      assert forall i | 0 <= i < |most| :: most[i] == texts[i];
    }
  }

  lemma {:induction false} WholeIfAccepted(text: string, allowControlChars: bool)
    ensures |Encodable(text, allowControlChars)| <= |text|
    ensures Encodable(text, allowControlChars) == text <==> AllAccepted(text, allowControlChars)
    ensures |Encodable(text, allowControlChars)| == |text| ==> Encodable(text, allowControlChars) == text
  {
    var prefix := Encodable(text, allowControlChars);
    if AllAccepted(text, allowControlChars) {
      EncodableStops(text, allowControlChars, |text|);
      assert text[..|text|] == text;
    }
    assert forall i | 0 <= i < |text| :: text[i] in text;
  }
}
