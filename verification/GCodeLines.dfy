/** Assembling a line of G-code character by character, splitting it into commands, and reading a quoted parameter. */
module GCodeLines {
  import opened Basics
  import opened Options

  datatype State =
    | NotStarted | LineNumber | Whitespace | Code | BracketedComment | QuotedString | Checksum | Discarding | Ready
    | Executing

  const WORD := 0x1_0000_0000

  const DEL := 0x7F as char

  /** A checksum with one more character. */
  function Xor(checksum: bv8, c: char): bv8 { checksum ^ ((c as int % 256) as bv8) }

  predicate Digit(c: char) { '0' <= c <= '9' }

  predicate Alpha(c: char) { 'a' <= c <= 'z' || 'A' <= c <= 'Z' }

  function Upper(c: char): char { if 'a' <= c <= 'z' then c - 'a' + 'A' else c }

  function Lower(c: char): char { if 'A' <= c <= 'Z' then c - 'A' + 'a' else c }

  /** A number with one more digit, as a 32-bit word. */
  function Shifted(n: nat, c: char): nat
    requires Digit(c)
  {
    (10 * n + (c - '0') as int) % WORD
  }

  // ---------------------------------------------------------------- a line being assembled

  datatype Line = Line(
    state: State,
    text: string,             // what has been stored
    computedChecksum: bv8,
    declaredChecksum: nat,
    hadChecksum: bool,
    lineNumber: nat,
    hadLineNumber: bool)

  /** A line of which nothing has been seen. */
  predicate Starting(a: Line) {
    && a.state == NotStarted && a.text == [] && a.computedChecksum == 0 && !a.hadChecksum && !a.hadLineNumber
  }

  function Checked(a: Line, c: char): Line { a.(computedChecksum := Xor(a.computedChecksum, c)) }

  function Stored(a: Line, size: nat, c: char): Line {
    Checked(a, c).(text := if |a.text| < size then a.text + [c] else a.text)
  }

  function FeedCode(a: Line, size: nat, c: char): Line {
    if c == '*' then a.(state := Checksum, declaredChecksum := 0, hadChecksum := true)
    else if c == ';' then a.(state := Discarding)
    else if c == '(' then Checked(a, c).(state := BracketedComment)
    else if c == '"' then Stored(a, size, c).(state := QuotedString)
    else Stored(a, size, c).(state := Code)
  }

  function FeedBlanks(a: Line, size: nat, c: char): Line {
    if Blank(c) then Checked(a, c) else FeedCode(a, size, c)
  }

  /** The line after one more character that does not end it. */
  function Feed(a: Line, size: nat, c: char): Line {
    if c == DEL && a.state != Discarding then a.(text := [], state := Discarding)
    else match a.state
      case NotStarted =>
        if c == 'N' || c == 'n' then Checked(a, c).(state := LineNumber, lineNumber := 0, hadLineNumber := true)
        else FeedBlanks(a, size, c)
      case LineNumber =>
        if Digit(c) then Checked(a, c).(lineNumber := Shifted(a.lineNumber, c))
        else FeedBlanks(a.(state := Whitespace), size, c)
      case Whitespace => FeedBlanks(a, size, c)
      case Code => FeedCode(a, size, c)
      case BracketedComment => Checked(a, c).(state := if c == ')' then Code else BracketedComment)
      case QuotedString => Stored(a, size, c).(state := if c == '"' then Code else QuotedString)
      case Checksum =>
        if Digit(c) then a.(declaredChecksum := Shifted(a.declaredChecksum, c)) else a.(state := Discarding)
      case _ => a
  }

  function FeedAll(a: Line, size: nat, text: string): Line {
    if text == [] then a else Feed(FeedAll(a, size, text[..|text| - 1]), size, text[|text| - 1])
  }

  /** A line may be executed: it is not empty, it fits, and it has the right checksum, or none and needs none. */
  predicate Accepted(a: Line, size: nat, needed: bool) {
    0 < |a.text| < size && if a.hadChecksum then a.computedChecksum as int == a.declaredChecksum else !needed
  }

  /** It is to be sent again: it has a number and a wrong checksum. */
  predicate Refused(a: Line, size: nat) {
    0 < |a.text| < size && a.hadLineNumber && a.hadChecksum && a.computedChecksum as int != a.declaredChecksum
  }

  // ---------------------------------------------------------------- splitting a line into commands

  /** Whether position i is inside double quotes. */
  function Quoted(line: string, i: nat): bool
    requires i <= |line|
  {
    i > 0 && Quoted(line, i - 1) != (line[i - 1] == '"')
  }

  predicate CommandLetter(c: char) { Upper(c) == 'G' || Upper(c) == 'M' || Upper(c) == 'T' }

  /** A G or M after an unquoted space or tab begins a new command. */
  predicate Splits(line: string, i: nat) {
    0 < i < |line| && (Upper(line[i]) == 'G' || Upper(line[i]) == 'M') && Blank(line[i - 1]) && !Quoted(line, i)
  }

  function NextSplit(line: string, i: nat): (r: nat)
    requires i <= |line|
    ensures i <= r <= |line| && (forall j | i <= j < r :: !Splits(line, j)) && (r < |line| ==> Splits(line, r))
    decreases |line| - i
  {
    if i == |line| || Splits(line, i) then i else NextSplit(line, i + 1)
  }

  /** Where the command that starts at a position ends. */
  function CommandEnd(line: string, start: nat): (r: nat)
    requires start < |line|
    ensures start < r <= |line|
  {
    if CommandLetter(line[start]) then NextSplit(line, start + 1) else |line|
  }

  function Starts(line: string, start: nat): seq<nat>
    requires start <= |line|
    decreases |line| - start
  {
    if start == |line| then [] else [start] + Starts(line, CommandEnd(line, start))
  }

  function Commands(line: string, start: nat): (r: seq<string>)
    requires start <= |line|
    ensures forall i | 0 <= i < |r| :: r[i] != []
    decreases |line| - start
  {
    if start == |line| then [] else [line[start..CommandEnd(line, start)]] + Commands(line, CommandEnd(line, start))
  }

  function Join(parts: seq<string>): string { if parts == [] then [] else parts[0] + Join(parts[1..]) }

  /** The commands of a line, one after the other, are the line. */
  lemma {:induction false} CommandsJoin(line: string, start: nat)
    requires start <= |line|
    ensures Join(Commands(line, start)) == line[start..]
    decreases |line| - start
  {
    if start < |line| {
      var end := CommandEnd(line, start);
      CommandsJoin(line, end);
      assert Commands(line, start)[1..] == Commands(line, end);
      assert line[start..] == line[start..end] + line[end..];
    }
  }

  /** The positions at which commands start are the first one and, if the line starts with a command letter, exactly the
      positions that split it. */
  lemma {:induction false} StartsAre(line: string, start: nat, i: nat)
    requires start < |line| && i < |line|
    requires start == 0 || Splits(line, start)
    ensures i in Starts(line, start) <==> i == start || (i > start && CommandLetter(line[start]) && Splits(line, i))
    decreases |line| - start
  {
    var end := CommandEnd(line, start);
    assert Starts(line, start) == [start] + Starts(line, end);
    if end == |line| {
      assert Starts(line, end) == [];
    } else {
      StartsAre(line, end, i);
    }
  }

  /** Every command after the first starts with G or M, after an unquoted space or tab. */
  lemma {:induction false} LaterCommands(line: string, start: nat, k: nat)
    requires start < |line| && 0 < k < |Commands(line, start)|
    ensures |Starts(line, start)| == |Commands(line, start)|
    ensures var i := Starts(line, start)[k];
      Splits(line, i) && line[i..] == Join(Commands(line, start)[k..]) && Commands(line, start)[k][0] == line[i]
    decreases |line| - start
  {
    var end := CommandEnd(line, start);
    SameNumber(line, start);
    assert Commands(line, start)[k..] == Commands(line, end)[k - 1..];
    if k == 1 {
      CommandsJoin(line, end);
      assert Commands(line, end)[0..] == Commands(line, end);
    } else {
      LaterCommands(line, end, k - 1);
    }
  }

  lemma {:induction false} SameNumber(line: string, start: nat)
    requires start <= |line|
    ensures |Starts(line, start)| == |Commands(line, start)|
    decreases |line| - start
  {
    if start < |line| {
      SameNumber(line, CommandEnd(line, start));
    }
  }

  // ---------------------------------------------------------------- quoted strings


  function Prefixed(c: char, r: Option<string>): Option<string> { if r.Some? then Some([c] + r.value) else None }

  /** The quoted string whose text starts at a position, or nothing if it is not ended. */
  function Unquote(line: string, i: nat): Option<string>
    decreases |line| - i
  {
    if i >= |line| || line[i] < ' ' then None
    else if line[i] == '"' then
      if i + 1 < |line| && line[i + 1] == '"' then Prefixed('"', Unquote(line, i + 2)) else Some([])
    else if line[i] == '\'' && i + 1 < |line| && Alpha(line[i + 1])
    then Prefixed(Lower(line[i + 1]), Unquote(line, i + 2))
    else if line[i] == '\'' && i + 1 < |line| && line[i + 1] == '\'' then Prefixed('\'', Unquote(line, i + 2))
    else Prefixed(line[i], Unquote(line, i + 1))
  }

  predicate Printable(s: string) { forall i | 0 <= i < |s| :: ' ' <= s[i] <= '~' }

  predicate Quote(c: char) { c == '"' || c == '\'' }

  /** A string with its quotes doubled. */
  function Doubled(s: string): string {
    if s == [] then [] else (if Quote(s[0]) then [s[0], s[0]] else [s[0]]) + Doubled(s[1..])
  }

  /** A command word: its letter, and then a number. */
  predicate Word(w: string) {
    w != [] && CommandLetter(w[0]) && forall i | 0 < i < |w| :: Digit(w[i]) || w[i] == '-' || w[i] == '.'
  }

  /** A command with one quoted parameter. */
  function QuotedLine(w: string, letter: char, s: string): string {
    w + [' ', letter, '"'] + (Doubled(s) + ['"'])
  }

  /** Reading undoes the doubling. */
  lemma {:induction false} UnquoteDoubled(line: string, i: nat, s: string)
    requires i <= |line| && line[i..] == Doubled(s) + ['"'] && Printable(s)
    ensures Unquote(line, i) == Some(s)
    decreases |s|
  {
    var rest := line[i..];
    if s == [] {
      assert rest == ['"'] && line[i] == rest[0];
    } else {
      var d := if Quote(s[0]) then 2 else 1;
      assert rest[0] == line[i] == s[0];
      assert line[i + d..] == rest[d..] == Doubled(s[1..]) + ['"'];
      if Quote(s[0]) {
        assert rest[1] == line[i + 1] == s[0];
      }
      UnquoteDoubled(line, i + d, s[1..]);
      assert s == [s[0]] + s[1..];
    }
  }

  lemma {:induction false} FeedJoins(a: Line, size: nat, x: string, y: string)
    ensures FeedAll(a, size, x + y) == FeedAll(FeedAll(a, size, x), size, y)
  {
    hide Feed;
    if y == [] {
      assert x + y == x;
    } else {
      FeedJoins(a, size, x, y[..|y| - 1]);
      assert (x + y)[..|x + y| - 1] == x + y[..|y| - 1];
    }
  }

  lemma {:induction false} FeedOne(a: Line, size: nat, c: char)
    ensures FeedAll(a, size, [c]) == Feed(a, size, c)
  {
    hide Feed;
    assert [c][..0] == [];
  }

  /** Some text has been stored, and neither a line number nor a checksum was seen. */
  predicate Grown(a: Line, b: Line, added: string, state: State) {
    b.text == a.text + added && b.state == state && b.hadChecksum == a.hadChecksum && b.hadLineNumber == a.hadLineNumber
  }

  lemma {:induction false} FeedInQuotes(a: Line, size: nat, c: char)
    requires a.state == QuotedString && |a.text| < size && c != DEL
    ensures Grown(a, Feed(a, size, c), [c], if c == '"' then Code else QuotedString)
  {
    hide Xor;
  }

  lemma {:induction false} FeedInCode(a: Line, size: nat, c: char)
    requires a.state == Code || (a.state == NotStarted && c != 'N' && c != 'n' && !Blank(c))
    requires |a.text| < size && c != DEL && c != '*' && c != ';' && c != '('
    ensures Grown(a, Feed(a, size, c), [c], if c == '"' then QuotedString else Code)
  {
    hide Xor;
  }

  lemma {:induction false} FeedTwo(a: Line, size: nat, x: char, y: char)
    ensures FeedAll(a, size, [x, y]) == Feed(Feed(a, size, x), size, y)
  {
    hide Feed;
    FeedOne(a, size, x);
    FeedOne(Feed(a, size, x), size, y);
    FeedJoins(a, size, [x], [y]);
    assert [x] + [y] == [x, y];
  }

  lemma {:induction false} FeedDoubled(a: Line, size: nat, s: string)
    requires a.state == QuotedString && |a.text| + |Doubled(s)| <= size && Printable(s)
    ensures Grown(a, FeedAll(a, size, Doubled(s)), Doubled(s), QuotedString)
    decreases |s|
  {
    hide Feed;
    if s != [] {
      var c, rest := s[0], Doubled(s[1..]);
      var d := if Quote(c) then [c, c] else [c];
      FeedInQuotes(a, size, c);
      FeedOne(a, size, c);
      if c == '"' {
        FeedInCode(Feed(a, size, c), size, c);
      } else if Quote(c) {
        FeedInQuotes(Feed(a, size, c), size, c);
      }
      FeedTwo(a, size, c, c);
      var b := FeedAll(a, size, d);
      assert a.text + [c] + [c] == a.text + [c, c];
      assert Grown(a, b, d, QuotedString);
      FeedDoubled(b, size, s[1..]);
      FeedJoins(a, size, d, rest);
      assert a.text + d + rest == a.text + (d + rest);
    }
  }

  lemma {:induction false} FeedWord(a: Line, size: nat, w: string)
    requires Starting(a) && Word(w) && |w| <= size
    ensures Grown(a, FeedAll(a, size, w), w, Code)
  {
    hide Feed;
    var init, c := w[..|w| - 1], w[|w| - 1];
    assert w == init + [c];
    if |w| == 1 {
      assert init == [];
      FeedInCode(a, size, c);
    } else {
      FeedWord(a, size, init);
      FeedInCode(FeedAll(a, size, init), size, c);
    }
  }

  /** The whole line is stored. */
  lemma {:induction false} FeedLine(a0: Line, size: nat, w: string, letter: char, s: string)
    requires Starting(a0) && Word(w) && Alpha(letter) && Printable(s) && |QuotedLine(w, letter, s)| <= size
    ensures Grown(a0, FeedAll(a0, size, QuotedLine(w, letter, s)), QuotedLine(w, letter, s), Code)
  {
    hide Feed, Doubled, FeedAll;
    var body, intro := Doubled(s), [' ', letter, '"'];
    FeedWord(a0, size, w);
    var a := FeedAll(a0, size, w);
    FeedIntro(a, size, letter);
    var d := FeedAll(a, size, intro);
    FeedDoubled(d, size, s);
    var e := FeedAll(d, size, body);
    FeedInQuotes(e, size, '"');
    FeedOne(e, size, '"');
    FeedJoins(d, size, body, ['"']);
    FeedJoins(a0, size, w, intro);
    FeedJoins(a0, size, w + intro, body + ['"']);
    assert w + intro + body + ['"'] == w + intro + (body + ['"']);
  }

  lemma {:induction false} FeedIntro(a: Line, size: nat, letter: char)
    requires a.state == Code && |a.text| + 3 <= size && Alpha(letter)
    ensures Grown(a, FeedAll(a, size, [' ', letter, '"']), [' ', letter, '"'], QuotedString)
  {
    hide Feed;
    FeedInCode(a, size, ' ');
    var b := Feed(a, size, ' ');
    FeedInCode(b, size, letter);
    var c := Feed(b, size, letter);
    FeedInCode(c, size, '"');
    FeedTwo(a, size, ' ', letter);
    FeedOne(c, size, '"');
    FeedJoins(a, size, [' ', letter], ['"']);
    assert [' ', letter] + ['"'] == [' ', letter, '"'];
    assert a.text + [' '] + [letter] + ['"'] == a.text + [' ', letter, '"'];
  }

  // ---------------------------------------------------------------- the number of a command

  function SkipDigits(line: string, i: nat): (r: nat)
    requires i <= |line|
    ensures i <= r <= |line| && (forall j | i <= j < r :: Digit(line[j])) && (r < |line| ==> !Digit(line[r]))
    decreases |line| - i
  {
    if i < |line| && Digit(line[i]) then SkipDigits(line, i + 1) else i
  }

  function Number(line: string, i: nat, j: nat): nat
    requires i <= j <= |line| && forall k | i <= k < j :: Digit(line[k])
    decreases j
  {
    if i == j then 0 else assert Digit(line[j - 1]); 10 * Number(line, i, j - 1) + (line[j - 1] - '0') as int
  }

  /** Where the digits of the number after a command letter start: a minus sign may come first. */
  function NumberStart(line: string, start: nat): (r: nat)
    requires start < |line|
    ensures start < r <= |line| && forall j | start < j < r :: line[j] == '-'
  {
    if start + 1 < |line| && line[start + 1] == '-' then start + 2 else start + 1
  }

  /** Where the parameters of a command start: after its letter, its number and at most one digit of a fraction. */
  function ParameterStart(line: string, start: nat): (r: nat)
    requires start < |line|
    ensures start <= r <= |line| && forall j | start < j < r :: Digit(line[j]) || line[j] == '-' || line[j] == '.'
    ensures CommandLetter(line[start]) <==> start < r
  {
    if !CommandLetter(line[start]) then start
    else
      var p := NumberStart(line, start);
      var q := SkipDigits(line, p);
      if p == q || q == |line| || line[q] != '.' then q
      else if q + 1 < |line| && Digit(line[q + 1]) then q + 2
      else q + 1
  }

  function CommandNumber(line: string, start: nat): int
    requires start < |line|
  {
    var p := NumberStart(line, start);
    var q := SkipDigits(line, p);
    if !CommandLetter(line[start]) || p == q then -1
    else
      var n: int := Number(line, p, q);
      if p == start + 2 then -n else n
  }

  predicate HasNumber(line: string, start: nat)
    requires start < |line|
  {
    CommandLetter(line[start]) && NumberStart(line, start) < SkipDigits(line, NumberStart(line, start))
  }

  /** The digit after the point that follows the number, if there is one, and otherwise -1. */
  function CommandFraction(line: string, start: nat): int
    requires start < |line|
  {
    var q := SkipDigits(line, NumberStart(line, start));
    if HasNumber(line, start) && q + 1 < |line| && line[q] == '.' && Digit(line[q + 1]) then (line[q + 1] - '0') as int
    else -1
  }

  // ---------------------------------------------------------------- finding a parameter

  /** The first unquoted occurrence of a letter, in either case, in part of a line. */
  function SeenAt(line: string, from: nat, to: nat, c: char): (r: Option<nat>)
    requires from <= to <= |line|
    ensures r.Some? ==>
      from <= r.value < to && Upper(line[r.value]) == c && !Quoted(line, r.value) && line[r.value] != '"'
    decreases |line| - from
  {
    if from == to then None
    else if line[from] != '"' && !Quoted(line, from) && Upper(line[from]) == c then Some(from)
    else SeenAt(line, from + 1, to, c)
  }

  /** It is the first, and if there is none nothing is found. */
  lemma {:induction false} SeenIsFirst(line: string, from: nat, to: nat, c: char, i: nat)
    requires from <= i < to <= |line| && Upper(line[i]) == c && !Quoted(line, i) && line[i] != '"'
    ensures SeenAt(line, from, to, c).Some? && SeenAt(line, from, to, c).value <= i
    decreases i - from
  {
    hide Quoted;
    if from < i {
      SeenIsFirst(line, from + 1, to, c, i);
    }
  }

  /** Everything between the outer quotes is quoted or itself a quote. */
  lemma {:induction false} QuotedInside(line: string, i: nat, s: string, j: nat)
    requires i <= j < |line| && line[i..] == Doubled(s) + ['"'] && Quoted(line, i)
    ensures Quoted(line, j) || line[j] == '"'
    decreases |s|
  {
    var rest := line[i..];
    if s == [] {
      assert j == i;
    } else {
      var d := if Quote(s[0]) then 2 else 1;
      assert rest[0] == line[i] == s[0];
      assert line[i + d..] == rest[d..] == Doubled(s[1..]) + ['"'];
      if Quote(s[0]) {
        assert rest[1] == line[i + 1] == s[0];
      }
      if j >= i + d {
        QuotedInside(line, i + d, s[1..], j);
      }
    }
  }

  lemma {:induction false} WordUnquoted(w: string, line: string, i: nat)
    requires Word(w) && i <= |w| <= |line| && line[..|w|] == w
    ensures !Quoted(line, i)
  {
    if i > 0 {
      WordUnquoted(w, line, i - 1);
      assert line[i - 1] == line[..|w|][i - 1];
    }
  }

  /** The line is one command, and its parameter is found where it is. */
  lemma {:induction false} LineIsOneCommand(w: string, letter: char, s: string, from: nat)
    requires Word(w) && Alpha(letter) && Upper(letter) != 'G' && Upper(letter) != 'M' && Printable(s)
    requires 1 <= from <= |w|
    ensures var line := QuotedLine(w, letter, s);
            && CommandEnd(line, 0) == |line|
            && SeenAt(line, from, |line|, Upper(letter)) == Some(|w| + 1)
            && Unquote(line, |w| + 3) == Some(s)
            && line[|w| + 2] == '"'
  {
    hide Unquote, Doubled;
    var line, k := QuotedLine(w, letter, s), |w|;
    assert line[..k] == w && line[k] == ' ' && line[k + 1] == letter && line[k + 2] == '"';
    assert line[k + 3..] == Doubled(s) + ['"'];
    WordUnquoted(w, line, k);
    assert !Quoted(line, k + 1) && !Quoted(line, k + 2) && Quoted(line, k + 3);
    forall j | 1 <= j < |line| ensures !Splits(line, j) {
      if j < k {
        assert line[j] == line[..k][j];
      } else if j >= k + 3 {
        QuotedInside(line, k + 3, s, j);
      }
    }
    UnquoteDoubled(line, k + 3, s);
    SeenInWord(w, line, from, letter);
  }

  lemma {:induction false} SeenInWord(w: string, line: string, from: nat, letter: char)
    requires Word(w) && Alpha(letter) && 1 <= from <= |w| && |w| + 2 <= |line| && line[..|w|] == w && line[|w|] == ' '
    requires line[|w| + 1] == letter
    requires !Quoted(line, |w| + 1)
    ensures SeenAt(line, from, |line|, Upper(letter)) == Some(|w| + 1)
    decreases |w| - from
  {
    if from < |w| {
      assert line[from] == line[..|w|][from];
      SeenInWord(w, line, from + 1, letter);
    }
  }
}
