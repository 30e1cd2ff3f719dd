/** Parsing the first line of an HTTP request. */
module HttpQueries {
  import opened Basics
  import opened Options

  datatype State =
    | CommandWord | Filename | FilenameEsc1 | FilenameEsc2
    | QualifierKey | QualifierValue | QualifierValueEsc1 | QualifierValueEsc2 | HeaderKey

  const MAX_COMMAND_WORDS := 4
  const MAX_QUAL_KEYS := 5

  /** What has been understood of a request. Words, keys and values are positions in the message. */
  datatype Request = Request(
    state: State,
    message: string,
    words: nat,             // number of command words
    starts: seq<nat>,       // where the command words start
    keys: seq<nat>,         // where the keys start, and then where the next one would
    values: seq<nat>,
    high: nat)              // first digit of an escape, times 16

  /** A request of which nothing has been seen. */
  predicate Fresh(r: Request) {
    && r.state == CommandWord && r.message == [] && r.words == 0 && |r.starts| == MAX_COMMAND_WORDS && r.starts[0] == 0
    && r.keys == [] && r.values == []
  }

  function Store(r: Request, c: char): Request { r.(message := r.message + [c]) }

  function Hex(c: char): Option<nat> {
    if '0' <= c <= '9' then Some((c - '0') as int) else if 'A' <= c <= 'F' then Some((c - 'A') as int + 10) else None
  }

  /** The current word ends, and another one starts. */
  function NextWord(r: Request, state: State): Request
    requires r.words + 1 < |r.starts|
  {
    Store(r, NUL).(words := r.words + 1, starts := r.starts[r.words + 1 := |r.message| + 1], state := state)
  }

  function EndLine(r: Request): Request { Store(r, NUL).(state := HeaderKey) }

  function StepWord(r: Request, c: char): Option<Request>
    requires r.state == CommandWord && Bounded(r, c)
  {
    if c == '\n' then Some(EndLine(r).(words := r.words + 1))
    else if c == '\r' then Some(r)
    else if Blank(c) then
      if r.words < MAX_COMMAND_WORDS then Some(NextWord(r, if r.words == 0 then Filename else r.state)) else None
    else Some(Store(r, c))
  }

  function StepFile(r: Request, c: char): Option<Request>
    requires r.state == Filename && Bounded(r, c)
  {
    if c == '\n' then Some(EndLine(r).(words := r.words + 1, keys := [], values := []))
    else if c == '?'
    then Some(Store(r, NUL).(words := r.words + 1, keys := [|r.message| + 1], values := [], state := QualifierKey))
    else if c == '%' then Some(r.(state := FilenameEsc1))
    else if c == '\r' then Some(r)
    else if Blank(c) then if r.words < MAX_COMMAND_WORDS then Some(NextWord(r, CommandWord)) else None
    else Some(Store(r, c))
  }

  predicate KeyChar(c: char) { c != '=' && c != '\n' && c != ' ' && c != '\t' && c != '\r' && c != '%' && c != '&' }

  function StepKey(r: Request, c: char): Option<Request> {
    if c == '=' then Some(Store(r, NUL).(values := r.values + [|r.message| + 1], state := QualifierValue))
    else if KeyChar(c) then Some(Store(r, c))
    else None
  }

  /** A value ends where the next key would start, less one. */
  function EndValue(r: Request): Request { Store(r, NUL).(keys := r.keys + [|r.message| + 1]) }

  function StepValue(r: Request, c: char): Option<Request>
    requires r.state == QualifierValue && Bounded(r, c)
  {
    if c == '\n' then Some(EndValue(r).(state := HeaderKey))
    else if Blank(c) then Some(EndValue(r).(starts := r.starts[r.words := |r.message| + 1], state := CommandWord))
    else if c == '\r' then Some(r)
    else if c == '%' then Some(r.(state := QualifierValueEsc1))
    else if c == '&' then if |r.values| < MAX_QUAL_KEYS then Some(EndValue(r).(state := QualifierKey)) else None
    else if c == '+' then Some(Store(r, ' '))
    else Some(Store(r, c))
  }

  function StepEsc1(r: Request, c: char, next: State): Option<Request> {
    if Hex(c).Some? then Some(r.(high := 16 * Hex(c).value, state := next)) else None
  }

  function StepEsc2(r: Request, c: char, back: State): Option<Request> {
    if Hex(c).Some? then Some(Store(r, ((r.high + Hex(c).value) % 256) as char).(state := back)) else None
  }

  /** The first line of a request is not over, and there is room to note where a word starts. */
  predicate Bounded(r: Request, c: char) {
    && r.state != HeaderKey && |r.starts| == MAX_COMMAND_WORDS
    && ((r.state == CommandWord || r.state == Filename) && Blank(c) ==> r.words != MAX_COMMAND_WORDS - 1)
    && (r.state == QualifierValue ==> r.words < MAX_COMMAND_WORDS)
  }

  /** The request after one more character, or nothing if it is rejected. */
  function Step(r: Request, size: nat, c: char): Option<Request>
    requires Bounded(r, c)
  {
    var next := match r.state
      case CommandWord => StepWord(r, c)
      case Filename => StepFile(r, c)
      case FilenameEsc1 => StepEsc1(r, c, FilenameEsc2)
      case FilenameEsc2 => StepEsc2(r, c, Filename)
      case QualifierKey => StepKey(r, c)
      case QualifierValue => StepValue(r, c)
      case QualifierValueEsc1 => StepEsc1(r, c, QualifierValueEsc2)
      case QualifierValueEsc2 => StepEsc2(r, c, QualifierValue);
    if next.Some? && |next.value.message| == size then None else next
  }

  /** A request parsed from some text: nothing if it was rejected, or if it had too many words. */
  function Parse(r: Request, size: nat, text: string): Option<Request>
    decreases |text|
  {
    if text == [] then Some(r)
    else if !Bounded(r, text[0]) then None
    else
      var next := Step(r, size, text[0]);
      if next.None? then None else Parse(next.value, size, text[1..])
  }

  lemma {:induction false} ParseOne(r: Request, size: nat, c: char)
    requires Bounded(r, c)
    ensures Parse(r, size, [c]) == Step(r, size, c)
  {
    hide Step, Bounded;
  }

  // ---------------------------------------------------------------- requests that say something

  /** A byte of a file name or a value, as it is or escaped with two hexadecimal digits (section 2.1 of RFC 3986), or a
      plus sign that stands for a space. */
  datatype Unit = Plain(c: char) | Escaped(c: char) | Plus

  predicate Safe(u: Unit) {
    match u
    case Plain(c) => c != '\n' && !Blank(c) && c != '\r' && c != '%'
    case Escaped(c) => c < 256 as char
    case Plus => true
  }

  /** What a unit stands for. */
  function Byte(u: Unit): char { if u.Plus? then ' ' else u.c }

  function HexDigit(n: nat): char
    requires n < 16
  {
    if n < 10 then '0' + n as char else 'A' + (n - 10) as char
  }

  function UnitText(u: Unit): string
    requires Safe(u)
  {
    match u
    case Plain(c) => [c]
    case Escaped(c) => ['%', HexDigit(c as int / 16), HexDigit(c as int % 16)]
    case Plus => ['+']
  }

  predicate AllSafe(units: seq<Unit>) { forall i | 0 <= i < |units| :: Safe(units[i]) }

  function Text(units: seq<Unit>): string
    requires AllSafe(units)
  {
    if units == [] then [] else UnitText(units[0]) + Text(units[1..])
  }

  function Bytes(units: seq<Unit>): string { if units == [] then [] else [Byte(units[0])] + Bytes(units[1..]) }

  predicate PlainKey(k: string) { forall i | 0 <= i < |k| :: KeyChar(k[i]) }

  predicate PlainWord(w: string) { forall i | 0 <= i < |w| :: w[i] != '\n' && w[i] != '\r' && !Blank(w[i]) }

  datatype Pair = Pair(key: string, value: seq<Unit>)

  /** In a value a plain ampersand or plus sign is no byte of its own. */
  predicate InValue(u: Unit) { Safe(u) && u != Plain('&') && u != Plain('+') }

  predicate Value(units: seq<Unit>) { AllSafe(units) && forall i | 0 <= i < |units| :: InValue(units[i]) }

  predicate GoodPair(p: Pair) { PlainKey(p.key) && Value(p.value) }

  function PairText(p: Pair): string
    requires GoodPair(p)
  {
    p.key + ['='] + Text(p.value)
  }

  predicate GoodPairs(pairs: seq<Pair>) { forall i | 0 <= i < |pairs| :: GoodPair(pairs[i]) }

  function PairsText(pairs: seq<Pair>): string
    requires GoodPairs(pairs) && pairs != []
  {
    PairText(pairs[0]) + if |pairs| == 1 then [] else ['&'] + PairsText(pairs[1..])
  }

  /** The room that pairs take up in the message, each with two terminators. */
  function PairsSize(pairs: seq<Pair>): nat {
    if pairs == [] then 0 else |pairs[0].key| + |Bytes(pairs[0].value)| + 2 + PairsSize(pairs[1..])
  }

  /** In a file name a plus sign is itself, and a question mark ends it. */
  predicate InFileName(u: Unit) { Safe(u) && u != Plain('?') && !u.Plus? }

  predicate FileName(file: seq<Unit>) { AllSafe(file) && forall i | 0 <= i < |file| :: InFileName(file[i]) }

  /** The first line of a request with a query. */
  function RequestLine(verb: string, file: seq<Unit>, pairs: seq<Pair>, version: string): string
    requires FileName(file) && GoodPairs(pairs)
  {
    var query := if pairs == [] then [] else ['?'] + PairsText(pairs);
    verb + ([' '] + (Text(file) + (query + ([' '] + (version + ['\r', '\n'])))))
  }

  // ---------------------------------------------------------------- what parsing makes of them

  /** Characters have been stored and nothing else has been noted. */
  predicate Stored(r: Request, m: Request, added: string) { m == r.(message := r.message + added, high := m.high) }

  lemma {:induction false} ParseMore(r: Request, size: nat, c: char, rest: string)
    requires Bounded(r, c) && Step(r, size, c).Some?
    ensures Parse(r, size, [c] + rest) == Parse(Step(r, size, c).value, size, rest)
  {
    hide Step, Bounded;
    assert ([c] + rest)[1..] == rest;
  }

  lemma {:induction false} HexOf(n: nat)
    requires n < 16
    ensures Hex(HexDigit(n)) == Some(n)
  {
  }

  predicate InUnits(r: Request) {
    && (r.state == Filename || r.state == QualifierValue) && |r.starts| == MAX_COMMAND_WORDS
    && r.words < MAX_COMMAND_WORDS - 1
  }

  lemma {:induction false} ParseUnit(r: Request, size: nat, u: Unit, rest: string)
    requires Safe(u) && |r.message| + 1 < size && InUnits(r)
    requires if r.state == Filename then InFileName(u) else InValue(u)
    ensures exists m :: Stored(r, m, [Byte(u)]) && Parse(r, size, UnitText(u) + rest) == Parse(m, size, rest)
  {
    hide Parse, Hex, HexDigit;
    match u {
      case Escaped(c) =>
        ParseEscape(r, size, c, rest);
      case Plain(c) =>
        ParseMore(r, size, c, rest);
        assert Stored(r, Step(r, size, c).value, [c]);
      case Plus =>
        ParseMore(r, size, '+', rest);
        assert Stored(r, Step(r, size, '+').value, [' ']);
    }
  }

  lemma {:induction false} ParseEscape(r: Request, size: nat, c: char, rest: string)
    requires c < 256 as char && |r.message| + 1 < size && InUnits(r)
    ensures exists m :: Stored(r, m, [c]) && Parse(r, size, UnitText(Escaped(c)) + rest) == Parse(m, size, rest)
  {
    hide Parse, HexDigit, Step, Bounded;
    var d, e := HexDigit(c as int / 16), HexDigit(c as int % 16);
    EscapeSteps(r, size, c);
    var a := Step(r, size, '%').value;
    var b := Step(a, size, d).value;
    var m := Step(b, size, e).value;
    ParseMore(b, size, e, rest);
    ParseMore(a, size, d, [e] + rest);
    ParseMore(r, size, '%', [d] + ([e] + rest));
    assert ['%'] + ([d] + ([e] + rest)) == ['%', d, e] + rest;
  }

  lemma {:induction false} EscapeSteps(r: Request, size: nat, c: char)
    requires c < 256 as char && |r.message| + 1 < size && InUnits(r)
    ensures var d, e := HexDigit(c as int / 16), HexDigit(c as int % 16);
      && Bounded(r, '%') && Step(r, size, '%').Some? && var a := Step(r, size, '%').value;
         && Bounded(a, d) && Step(a, size, d).Some? && var b := Step(a, size, d).value;
            Bounded(b, e) && Step(b, size, e).Some? && Stored(r, Step(b, size, e).value, [c])
  {
    hide Hex, HexDigit, Step, Bounded;
    var d, e := HexDigit(c as int / 16), HexDigit(c as int % 16);
    HexOf(c as int / 16);
    HexOf(c as int % 16);
    PercentStep(r, size);
    var a := Step(r, size, '%').value;
    HighStep(a, size, d);
    LowStep(Step(a, size, d).value, size, e);
    assert (16 * (c as int / 16) + c as int % 16) % 256 == c as int;
  }

  lemma {:induction false} PercentStep(r: Request, size: nat)
    requires |r.message| + 1 < size && InUnits(r)
    ensures Bounded(r, '%')
    ensures Step(r, size, '%') == Some(r.(state := if r.state == Filename then FilenameEsc1 else QualifierValueEsc1))
  {
  }

  lemma {:induction false} HighStep(r: Request, size: nat, d: char)
    requires (r.state == FilenameEsc1 || r.state == QualifierValueEsc1) && Hex(d).Some? && |r.message| < size
    requires |r.starts| == MAX_COMMAND_WORDS
    ensures Bounded(r, d)
    ensures Step(r, size, d) == Some(r.(high := 16 * Hex(d).value,
                                        state := if r.state == FilenameEsc1 then FilenameEsc2 else QualifierValueEsc2))
  {
    hide Hex;
  }

  lemma {:induction false} LowStep(r: Request, size: nat, e: char)
    requires (r.state == FilenameEsc2 || r.state == QualifierValueEsc2) && Hex(e).Some? && |r.message| + 1 < size
    requires |r.starts| == MAX_COMMAND_WORDS
    ensures Bounded(r, e)
    ensures Step(r, size, e) == Some(r.(message := r.message + [((r.high + Hex(e).value) % 256) as char],
                                        state := if r.state == FilenameEsc2 then Filename else QualifierValue))
  {
    hide Hex;
  }

  lemma {:induction false} ParseUnits(r: Request, size: nat, units: seq<Unit>, rest: string) returns (m: Request)
    requires AllSafe(units) && |r.message| + |Bytes(units)| < size && InUnits(r)
    requires if r.state == Filename then FileName(units) else Value(units)
    ensures Stored(r, m, Bytes(units)) && Parse(r, size, Text(units) + rest) == Parse(m, size, rest)
    decreases |units|
  {
    hide Parse, UnitText, Safe, Byte, InValue, InFileName;
    if units == [] {
      m := r;
      assert [] + rest == rest && r.message + [] == r.message;
    } else {
      var tail := Text(units[1..]) + rest;
      ParseUnit(r, size, units[0], tail);
      var n :| Stored(r, n, [Byte(units[0])]) && Parse(r, size, UnitText(units[0]) + tail) == Parse(n, size, tail);
      m := ParseUnits(n, size, units[1..], rest);
      assert UnitText(units[0]) + Text(units[1..]) + rest == UnitText(units[0]) + tail;
      assert r.message + [Byte(units[0])] + Bytes(units[1..]) == r.message + Bytes(units);
    }
  }

  lemma {:induction false} ParseKey(r: Request, size: nat, k: string, rest: string)
    requires PlainKey(k) && |r.message| + |k| < size && r.state == QualifierKey && |r.starts| == MAX_COMMAND_WORDS
    ensures Parse(r, size, k + rest) == Parse(r.(message := r.message + k), size, rest)
    decreases |k|
  {
    hide Parse;
    if k == [] {
      assert [] + rest == rest && r.message + [] == r.message;
    } else {
      ParseMore(r, size, k[0], k[1..] + rest);
      assert k + rest == [k[0]] + (k[1..] + rest);
      var m := Step(r, size, k[0]).value;
      ParseKey(m, size, k[1..], rest);
      assert m.message + k[1..] == r.message + k;
    }
  }

  lemma {:induction false} ParseWord(r: Request, size: nat, w: string, rest: string)
    requires PlainWord(w) && |r.message| + |w| < size && r.state == CommandWord && |r.starts| == MAX_COMMAND_WORDS
    ensures Parse(r, size, w + rest) == Parse(r.(message := r.message + w), size, rest)
    decreases |w|
  {
    hide Parse;
    if w == [] {
      assert [] + rest == rest && r.message + [] == r.message;
    } else {
      ParseMore(r, size, w[0], w[1..] + rest);
      assert w + rest == [w[0]] + (w[1..] + rest);
      var m := Step(r, size, w[0]).value;
      ParseWord(m, size, w[1..], rest);
      assert m.message + w[1..] == r.message + w;
    }
  }

  // ---------------------------------------------------------------- the pairs that were found

  /** The first pairs have been found in the message. */
  ghost predicate Found(r: Request, pairs: seq<Pair>) {
    && |pairs| <= |r.values| && |pairs| < |r.keys|
    && forall i | 0 <= i < |pairs| :: PairAt(r, i, pairs[i])
  }

  /** A key lies between its pointer and the value pointer, less one; a value between its pointer and the next key
      pointer, less one. */
  ghost predicate PairAt(r: Request, i: nat, p: Pair)
    requires i < |r.values| && i + 1 < |r.keys|
  {
    && r.keys[i] < r.values[i] < r.keys[i + 1] <= |r.message|
    && r.message[r.keys[i]..r.values[i] - 1] == p.key
    && r.message[r.values[i]..r.keys[i + 1] - 1] == Bytes(p.value)
    && r.message[r.values[i] - 1] == NUL && r.message[r.keys[i + 1] - 1] == NUL
  }

  /** In front of a key: the pairs before it have been found. */
  ghost predicate BeforeKey(r: Request, pairs: seq<Pair>) {
    && r.state == QualifierKey && r.words == 2 && |r.starts| == MAX_COMMAND_WORDS
    && |r.values| == |pairs| && |r.keys| == |pairs| + 1 && r.keys[|pairs|] == |r.message| && Found(r, pairs)
  }

  lemma {:induction false} ParsePair(r: Request, size: nat, done: seq<Pair>, p: Pair, rest: string) returns (m: Request)
    requires BeforeKey(r, done) && GoodPair(p) && |r.message| + |p.key| + |Bytes(p.value)| + 1 < size
    ensures m.state == QualifierValue && m.words == 2 && m.starts == r.starts && m.keys == r.keys
    ensures m.values == r.values + [|r.message| + |p.key| + 1]
    ensures m.message == r.message + p.key + [NUL] + Bytes(p.value)
    ensures Parse(r, size, PairText(p) + rest) == Parse(m, size, rest)
  {
    hide Parse, Text, Found;
    var value := Text(p.value);
    ParseKey(r, size, p.key, ['='] + (value + rest));
    var a := r.(message := r.message + p.key);
    ParseMore(a, size, '=', value + rest);
    var b := Step(a, size, '=').value;
    m := ParseUnits(b, size, p.value, rest);
    assert PairText(p) + rest == p.key + (['='] + (value + rest));
  }

  /** Text added to the message leaves what was found in it. */
  lemma {:induction false} StaysFound(r: Request, m: Request, pairs: seq<Pair>)
    requires Found(r, pairs) && r.message <= m.message && r.keys <= m.keys && r.values <= m.values
    ensures Found(m, pairs)
  {
    forall i | 0 <= i < |pairs| ensures PairAt(m, i, pairs[i]) {
      assert PairAt(r, i, pairs[i]);
      assert m.keys[i] == r.keys[i] && m.keys[i + 1] == r.keys[i + 1] && m.values[i] == r.values[i];
      assert forall a, b | 0 <= a <= b <= |r.message| :: m.message[a..b] == r.message[a..b];
    }
  }

  /** The end of a value completes a pair. */
  lemma {:induction false} PairCompleted(r: Request, done: seq<Pair>, p: Pair, m: Request, e: Request)
    requires BeforeKey(r, done)
    requires m.keys == r.keys && m.values == r.values + [|r.message| + |p.key| + 1]
    requires m.message == r.message + p.key + [NUL] + Bytes(p.value)
    requires e.message == m.message + [NUL] && e.keys == m.keys + [|m.message| + 1] && e.values == m.values
    ensures Found(e, done + [p])
  {
    StaysFound(r, e, done);
    var i := |done|;
    var text := r.message + p.key + [NUL] + Bytes(p.value) + [NUL];
    assert e.message == text && e.keys[i] == |r.message| && e.values[i] == |r.message| + |p.key| + 1;
    assert text[|r.message|..|r.message| + |p.key|] == p.key;
    assert text[|r.message| + |p.key| + 1..|m.message|] == Bytes(p.value);
    assert PairAt(e, i, p);
    forall j | 0 <= j < |done + [p]| ensures PairAt(e, j, (done + [p])[j]) {
      if j < |done| {
        assert PairAt(e, j, done[j]);
      }
    }
  }

  /** The query has been read. */
  ghost predicate AfterQuery(r: Request, pairs: seq<Pair>, used: nat) {
    && r.state == CommandWord && r.words == 2 && |r.starts| == MAX_COMMAND_WORDS && |r.message| == used
    && |r.values| == |pairs| && Found(r, pairs)
  }

  /** One pair, and the character that ends it. */
  lemma {:induction false} ParseEnded(r: Request, size: nat, done: seq<Pair>, p: Pair, c: char, rest: string)
    returns (m: Request)
    requires BeforeKey(r, done) && GoodPair(p) && |r.message| + |p.key| + |Bytes(p.value)| + 2 < size
    requires c == ' ' || (c == '&' && |done| + 1 < MAX_QUAL_KEYS)
    ensures r.message <= m.message && |r.starts| == |m.starts| && r.starts[1] == m.starts[1]
    ensures |m.message| == |r.message| + |p.key| + |Bytes(p.value)| + 2
    ensures c == ' ' ==> AfterQuery(m, done + [p], |m.message|)
    ensures c == '&' ==> BeforeKey(m, done + [p])
    ensures Parse(r, size, PairText(p) + ([c] + rest)) == Parse(m, size, rest)
  {
    hide Parse, PairText, Found, Bytes, Text;
    var v := ParsePair(r, size, done, p, [c] + rest);
    ParseMore(v, size, c, rest);
    m := Step(v, size, c).value;
    PairCompleted(r, done, p, v, m);
  }

  lemma {:induction false} ParsePairs(r: Request, size: nat, done: seq<Pair>, todo: seq<Pair>, rest: string)
    returns (m: Request)
    requires BeforeKey(r, done) && GoodPairs(todo) && todo != [] && |done| + |todo| <= MAX_QUAL_KEYS
    requires |r.message| + PairsSize(todo) < size
    ensures r.message <= m.message && |r.starts| == |m.starts| && r.starts[1] == m.starts[1]
    ensures AfterQuery(m, done + todo, |r.message| + PairsSize(todo))
    ensures Parse(r, size, PairsText(todo) + ([' '] + rest)) == Parse(m, size, rest)
    decreases |todo|
  {
    hide Parse, PairText, Found, Bytes, BeforeKey, AfterQuery, GoodPair;
    var p, more := todo[0], todo[1..];
    PairsSplit(todo, [' '] + rest);
    assert |r.starts| == MAX_COMMAND_WORDS by { KeyStarts(r, done); }
    if more == [] {
      m := ParseEnded(r, size, done, p, ' ', rest);
      assert todo == [p];
    } else {
      var e := ParseEnded(r, size, done, p, '&', PairsText(more) + ([' '] + rest));
      m := ParsePairs(e, size, done + [p], more, rest);
      assert done + [p] + more == done + todo;
    }
  }

  lemma {:induction false} KeyStarts(r: Request, done: seq<Pair>)
    requires BeforeKey(r, done)
    ensures |r.starts| == MAX_COMMAND_WORDS
  {
  }

  /** The text of pairs, and the room for them, from the first on. */
  lemma {:induction false} PairsSplit(pairs: seq<Pair>, rest: string)
    requires GoodPairs(pairs) && pairs != []
    ensures GoodPairs(pairs[1..])
    ensures PairsSize(pairs) == |pairs[0].key| + |Bytes(pairs[0].value)| + 2 + PairsSize(pairs[1..])
    ensures |pairs| == 1 ==> PairsText(pairs) + rest == PairText(pairs[0]) + rest
    ensures |pairs| > 1 ==>
      PairsText(pairs) + rest == PairText(pairs[0]) + (['&'] + (PairsText(pairs[1..]) + rest))
  {
    hide PairText, GoodPair, Bytes;
    if |pairs| > 1 {
      var a, b := PairText(pairs[0]), PairsText(pairs[1..]);
      assert a + (['&'] + b) + rest == a + (['&'] + (b + rest));
    }
  }

  /** The room that a request line takes up in the message. */
  function LineSize(verb: string, file: seq<Unit>, pairs: seq<Pair>, version: string): nat {
    |verb| + |Bytes(file)| + PairsSize(pairs) + |version| + 3
  }

  /** The request after a request line: it names the file, and its pairs are exactly those of the query. */
  ghost predicate Understood(m: Request, verb: string, file: seq<Unit>, pairs: seq<Pair>) {
    && m.state == HeaderKey && m.words == 3 && |m.starts| == MAX_COMMAND_WORDS
    && m.starts[1] == |verb| + 1 && verb + [NUL] + Bytes(file) + [NUL] <= m.message
    && |m.values| == |pairs| && (pairs != [] ==> Found(m, pairs))
  }

  /** Every query comes out as it was put in, whatever bytes its values are made of. */
  lemma {:induction false} QueryRoundTrip(r: Request, size: nat, verb: string, file: seq<Unit>, pairs: seq<Pair>,
                                          version: string)
    requires Fresh(r) && PlainWord(verb) && FileName(file) && GoodPairs(pairs) && |pairs| <= MAX_QUAL_KEYS
    requires PlainWord(version)
    requires LineSize(verb, file, pairs, version) < size
    ensures Parse(r, size, RequestLine(verb, file, pairs, version)).Some?
    ensures Understood(Parse(r, size, RequestLine(verb, file, pairs, version)).value, verb, file, pairs)
  {
    hide Parse, Text, PairsText, Found, Step;
    var ending := version + ['\r', '\n'];
    var query := (if pairs == [] then [] else ['?'] + PairsText(pairs)) + ([' '] + ending);
    ParseWord(r, size, verb, [' '] + (Text(file) + query));
    var a := r.(message := r.message + verb);
    StepBlank(a, size);
    ParseMore(a, size, ' ', Text(file) + query);
    var b := Step(a, size, ' ').value;
    var f := ParseUnits(b, size, file, query);
    var m := ParseQuery(f, size, pairs, ending);
    var e := ParseEnding(m, size, version);
    if pairs != [] {
      StaysFound(m, e, pairs);
    }
    assert f.message == verb + [NUL] + Bytes(file);
  }

  lemma {:induction false} StepBlank(r: Request, size: nat)
    requires r.state == CommandWord && r.words == 0 && |r.starts| == MAX_COMMAND_WORDS && |r.message| + 1 < size
    ensures Bounded(r, ' ') && Step(r, size, ' ') == Some(NextWord(r, Filename))
  {
  }

  lemma {:induction false} ParseQuery(f: Request, size: nat, pairs: seq<Pair>, ending: string) returns (m: Request)
    requires f.state == Filename && f.words == 1 && |f.starts| == MAX_COMMAND_WORDS && f.values == [] && f.keys == []
    requires GoodPairs(pairs) && |pairs| <= MAX_QUAL_KEYS && |f.message| + 1 + PairsSize(pairs) < size
    ensures m.state == CommandWord && m.words == 2 && |m.starts| == MAX_COMMAND_WORDS && m.starts[1] == f.starts[1]
    ensures |m.message| == |f.message| + 1 + PairsSize(pairs) && f.message + [NUL] <= m.message
    ensures |m.values| == |pairs| && (pairs != [] ==> Found(m, pairs))
    ensures Parse(f, size, (if pairs == [] then [] else ['?'] + PairsText(pairs)) + ([' '] + ending)) ==
      Parse(m, size, ending)
  {
    hide Parse, PairsText;
    if pairs == [] {
      ParseMore(f, size, ' ', ending);
      m := Step(f, size, ' ').value;
      assert [] + ([' '] + ending) == [' '] + ending;
    } else {
      var rest := PairsText(pairs) + ([' '] + ending);
      ParseMore(f, size, '?', rest);
      var q := Step(f, size, '?').value;
      assert BeforeKey(q, []);
      m := ParsePairs(q, size, [], pairs, ending);
      assert [] + pairs == pairs;
      assert ['?'] + PairsText(pairs) + ([' '] + ending) == ['?'] + rest;
    }
  }

  lemma {:induction false} ParseEnding(r: Request, size: nat, version: string) returns (m: Request)
    requires r.state == CommandWord && r.words == 2 && |r.starts| == MAX_COMMAND_WORDS && PlainWord(version)
    requires |r.message| + |version| + 1 < size
    ensures m == r.(message := r.message + version + [NUL], words := 3, state := HeaderKey)
    ensures Parse(r, size, version + ['\r', '\n']) == Some(m)
  {
    hide Parse;
    ParseWord(r, size, version, ['\r', '\n']);
    var a := r.(message := r.message + version);
    ParseMore(a, size, '\r', ['\n']);
    assert ['\r'] + ['\n'] == ['\r', '\n'];
    ParseOne(a, size, '\n');
    m := Step(a, size, '\n').value;
  }

  // ---------------------------------------------------------------- requests that are refused

  /** Two hexadecimal digits, in capitals. */
  predicate HexPair(x: char, y: char) { x in "0123456789ABCDEF" && y in "0123456789ABCDEF" }

  lemma {:induction false} HexIs(c: char)
    ensures Hex(c).Some? <==> c in "0123456789ABCDEF"
  {
  }

  lemma {:induction false} ParseFirst(r: Request, size: nat, c: char, rest: string)
    ensures !Bounded(r, c) || Step(r, size, c).None? ==> Parse(r, size, [c] + rest) == None
    ensures Bounded(r, c) && Step(r, size, c).Some? ==>
      Parse(r, size, [c] + rest) == Parse(Step(r, size, c).value, size, rest)
  {
    hide Step, Bounded;
    assert ([c] + rest)[1..] == rest;
  }

  /** A key that is not followed by an equals sign is refused, whatever came before it. */
  lemma {:induction false} KeyRefused(r: Request, size: nat, key: string, c: char, rest: string)
    requires r.state == QualifierKey && '=' !in key && c in "&% \t\r\n"
    ensures Parse(r, size, key + ([c] + rest)) == None
    decreases |key|
  {
    hide Parse;
    if key == [] {
      assert key + ([c] + rest) == [c] + rest;
      ParseFirst(r, size, c, rest);
    } else {
      var d, more := key[0], key[1..] + ([c] + rest);
      assert key + ([c] + rest) == [d] + more && d in key;
      ParseFirst(r, size, d, more);
      if Bounded(r, d) && Step(r, size, d).Some? {
        KeyRefused(Step(r, size, d).value, size, key[1..], c, rest);
      }
    }
  }

  /** An escape without two hexadecimal digits is refused. */
  lemma {:induction false} EscapeRefused(r: Request, size: nat, x: char, y: char, rest: string)
    requires (r.state == Filename || r.state == QualifierValue) && !HexPair(x, y)
    ensures Parse(r, size, ['%', x, y] + rest) == None
  {
    hide Parse, Hex;
    HexIs(x);
    HexIs(y);
    assert ['%', x, y] + rest == ['%'] + ([x] + ([y] + rest));
    ParseFirst(r, size, '%', [x] + ([y] + rest));
    if Bounded(r, '%') && Step(r, size, '%').Some? {
      var a := Step(r, size, '%').value;
      ParseFirst(a, size, x, [y] + rest);
      if Bounded(a, x) && Step(a, size, x).Some? {
        ParseFirst(Step(a, size, x).value, size, y, rest);
      }
    }
  }

  /** So is another pair when there are five. */
  lemma {:induction false} PairRefused(r: Request, size: nat, rest: string)
    requires r.state == QualifierValue && |r.values| >= MAX_QUAL_KEYS
    ensures Parse(r, size, ['&'] + rest) == None
  {
    hide Parse;
    ParseFirst(r, size, '&', rest);
  }

  /** The text of pairs with more to come. */
  function PairsAnd(pairs: seq<Pair>): string
    requires GoodPairs(pairs)
  {
    if pairs == [] then [] else PairsAnd(pairs[..|pairs| - 1]) + (PairText(pairs[|pairs| - 1]) + ['&'])
  }

  /** Pairs that are read, up to a key. */
  lemma {:induction false} ReachKey(r: Request, size: nat, pairs: seq<Pair>, rest: string) returns (m: Request)
    requires BeforeKey(r, []) && GoodPairs(pairs) && |pairs| < MAX_QUAL_KEYS
    requires |r.message| + RoomFor(pairs) < size
    ensures BeforeKey(m, pairs) && |m.message| == |r.message| + RoomFor(pairs)
    ensures Parse(r, size, PairsAnd(pairs) + rest) == Parse(m, size, rest)
    decreases |pairs|
  {
    hide Parse, PairText, BeforeKey, GoodPair, Bytes;
    if pairs == [] {
      m := r;
      assert "" + rest == rest;
    } else {
      var most, p := pairs[..|pairs| - 1], pairs[|pairs| - 1];
      var tail := PairText(p) + (['&'] + rest);
      var k := ReachKey(r, size, most, tail);
      m := ParseEnded(k, size, most, p, '&', rest);
      assert most + [p] == pairs;
      assert PairsAnd(most) + (PairText(p) + ['&']) + rest == PairsAnd(most) + tail;
    }
  }

  /** The room that pairs take up, from the last one on. */
  function RoomFor(pairs: seq<Pair>): nat {
    if pairs == [] then 0
    else
      var p := pairs[|pairs| - 1];
      RoomFor(pairs[..|pairs| - 1]) + |p.key| + |Bytes(p.value)| + 2
  }

  /** What may be wrong with a query after some good pairs. */
  datatype Fault =
    | NoValue(key: string, c: char)
    | BadEscape(key: string, value: seq<Unit>, x: char, y: char)
    | SixthPair(p: Pair)

  predicate Faulty(pairs: seq<Pair>, f: Fault) {
    match f
    case NoValue(key, c) => '=' !in key && c in "&% \t\r\n"
    case BadEscape(key, value, x, y) => PlainKey(key) && Value(value) && !HexPair(x, y)
    case SixthPair(p) => GoodPair(p) && |pairs| == MAX_QUAL_KEYS - 1
  }

  function FaultText(f: Fault): string
    requires f.BadEscape? ==> PlainKey(f.key) && Value(f.value)
    requires f.SixthPair? ==> GoodPair(f.p)
  {
    match f
    case NoValue(key, c) => key + [c]
    case BadEscape(key, value, x, y) => PairText(Pair(key, value)) + ['%', x, y]
    case SixthPair(p) => PairText(p) + ['&']
  }

  function FaultRoom(f: Fault): nat {
    match f
    case NoValue(key, c) => 0
    case BadEscape(key, value, x, y) => |key| + |Bytes(value)| + 1
    case SixthPair(p) => |p.key| + |Bytes(p.value)| + 1
  }

  lemma {:induction false} FaultRefused(r: Request, size: nat, pairs: seq<Pair>, f: Fault, rest: string)
    requires BeforeKey(r, pairs) && Faulty(pairs, f) && |r.message| + FaultRoom(f) < size
    ensures Parse(r, size, FaultText(f) + rest) == None
  {
    hide Parse, PairText, Found, Value, GoodPair;
    match f {
      case NoValue(key, c) =>
        KeyRefused(r, size, key, c, rest);
        assert key + [c] + rest == key + ([c] + rest);
      case BadEscape(key, value, x, y) =>
        assert GoodPair(Pair(key, value)) by { PairIsGood(key, value); }
        var m := ParsePair(r, size, pairs, Pair(key, value), ['%', x, y] + rest);
        EscapeRefused(m, size, x, y, rest);
        assert PairText(Pair(key, value)) + ['%', x, y] + rest == PairText(Pair(key, value)) + (['%', x, y] + rest);
      case SixthPair(p) =>
        var m := ParsePair(r, size, pairs, p, ['&'] + rest);
        PairRefused(m, size, rest);
        assert PairText(p) + ['&'] + rest == PairText(p) + (['&'] + rest);
    }
  }

  lemma {:induction false} PairIsGood(key: string, value: seq<Unit>)
    requires PlainKey(key) && Value(value)
    ensures GoodPair(Pair(key, value))
  {
  }

  /** A request line is refused whose query has a key without a value, an escape without two digits or a sixth pair,
      whatever good pairs come before it and whatever follows. */
  lemma {:induction false} QueryRefused(r: Request, size: nat, verb: string, file: seq<Unit>, pairs: seq<Pair>,
                                        f: Fault, rest: string)
    requires Fresh(r) && PlainWord(verb) && FileName(file) && GoodPairs(pairs) && |pairs| < MAX_QUAL_KEYS
    requires Faulty(pairs, f) && |verb| + |Bytes(file)| + 2 + RoomFor(pairs) + FaultRoom(f) < size
    ensures var query := PairsAnd(pairs) + (FaultText(f) + rest);
      Parse(r, size, verb + ([' '] + (Text(file) + (['?'] + query)))) == None
  {
    hide Parse, Text, Found, Step, PairsAnd, FaultText, FaultRoom, RoomFor;
    var query := PairsAnd(pairs) + (FaultText(f) + rest);
    ParseWord(r, size, verb, [' '] + (Text(file) + (['?'] + query)));
    var a := r.(message := r.message + verb);
    StepBlank(a, size);
    ParseMore(a, size, ' ', Text(file) + (['?'] + query));
    var b := Step(a, size, ' ').value;
    var e := ParseUnits(b, size, file, ['?'] + query);
    StepQuery(e, size);
    ParseMore(e, size, '?', query);
    var q := Step(e, size, '?').value;
    var k := ReachKey(q, size, pairs, FaultText(f) + rest);
    FaultRefused(k, size, pairs, f, rest);
  }

  lemma {:induction false} StepQuery(f: Request, size: nat)
    requires f.state == Filename && f.words == 1 && |f.starts| == MAX_COMMAND_WORDS && f.values == [] && f.keys == []
    requires |f.message| + 1 < size
    ensures Bounded(f, '?') && Step(f, size, '?').Some?
    ensures var q := Step(f, size, '?').value; BeforeKey(q, []) && |q.message| == |f.message| + 1
  {
  }

  // ---------------------------------------------------------------- looking up a key

  /** The text from a position up to the next terminator. */
  function CString(message: string, i: nat): string
    decreases |message| - i
  {
    if i >= |message| || message[i] == NUL then [] else [message[i]] + CString(message, i + 1)
  }

  lemma {:induction false} CStringIs(message: string, i: nat, j: nat)
    requires i <= j < |message| && message[j] == NUL && forall k | i <= k < j :: message[k] != NUL
    ensures CString(message, i) == message[i..j]
    decreases j - i
  {
    if i < j {
      CStringIs(message, i + 1, j);
    }
  }

  /** The first key that has a name. */
  function Lookup(r: Request, name: string, i: nat): Option<nat>
    requires |r.values| <= |r.keys|
    decreases |r.values| - i
  {
    if i >= |r.values| then None
    else if CString(r.message, r.keys[i]) == name then Some(r.values[i])
    else Lookup(r, name, i + 1)
  }

  predicate NoNul(k: string) { forall i | 0 <= i < |k| :: k[i] != NUL }

  /** Looking up a key of the query gives the value that came with its first occurrence. */
  lemma {:induction false} LookupFinds(r: Request, pairs: seq<Pair>, i: nat, from: nat)
    requires Found(r, pairs) && |r.values| == |pairs| && from <= i < |pairs|
    requires (forall j | 0 <= j < |pairs| :: NoNul(pairs[j].key))
    requires forall j | 0 <= j < i :: pairs[j].key != pairs[i].key
    ensures Lookup(r, pairs[i].key, from) == Some(r.values[i])
    ensures r.message[r.values[i]..r.keys[i + 1] - 1] == Bytes(pairs[i].value)
    decreases i - from
  {
    assert PairAt(r, i, pairs[i]) && PairAt(r, from, pairs[from]);
    forall k | r.keys[from] <= k < r.values[from] - 1 ensures r.message[k] != NUL {
      assert r.message[k] == pairs[from].key[k - r.keys[from]];
    }
    CStringIs(r.message, r.keys[from], r.values[from] - 1);
    if from < i {
      LookupFinds(r, pairs, i, from + 1);
    }
  }

  /** A name that is not in the query is not found. */
  lemma {:induction false} LookupMisses(r: Request, pairs: seq<Pair>, name: string, from: nat)
    requires (pairs != [] ==> Found(r, pairs)) && |r.values| == |pairs| <= |r.keys| && from <= |pairs|
    requires forall j | 0 <= j < |pairs| :: NoNul(pairs[j].key) && pairs[j].key != name
    ensures Lookup(r, name, from) == None
    decreases |pairs| - from
  {
    if from < |pairs| {
      assert PairAt(r, from, pairs[from]);
      forall k | r.keys[from] <= k < r.values[from] - 1 ensures r.message[k] != NUL {
        assert r.message[k] == pairs[from].key[k - r.keys[from]];
      }
      CStringIs(r.message, r.keys[from], r.values[from] - 1);
      LookupMisses(r, pairs, name, from + 1);
    }
  }
}
