/** Lines of G-code as they are written, and what the buffer makes of them. */
module GCodeTexts {
  import opened Basics
  import opened Options
  import opened GCodeLines

  // ---------------------------------------------------------------- numerals

  function Decimal(n: nat): (s: string)
    ensures s != [] && forall i | 0 <= i < |s| :: Digit(s[i])
  {
    (if n < 10 then [] else Decimal(n / 10)) + [('0' as int + n % 10) as char]
  }

  predicate Digits(s: string) { forall i | 0 <= i < |s| :: Digit(s[i]) }

  function ValueOf(s: string): nat
    requires Digits(s)
  {
    if s == [] then 0 else 10 * ValueOf(s[..|s| - 1]) + (s[|s| - 1] - '0') as int
  }

  lemma {:induction false} DecimalReads(n: nat)
    ensures ValueOf(Decimal(n)) == n
  {
    var s := Decimal(n);
    if n < 10 {
      assert s[..|s| - 1] == [];
    } else {
      DecimalReads(n / 10);
      assert s[..|s| - 1] == Decimal(n / 10);
    }
  }

  /** A 32-bit number with one more digit. */
  lemma {:induction false} ShiftedIs(v: nat, c: char)
    requires Digit(c)
    ensures Shifted(v % WORD, c) == (10 * v + (c - '0') as int) % WORD
  {
    var q, d := v / WORD, (c - '0') as int;
    assert 10 * v + d == 10 * (v % WORD) + d + WORD * (10 * q);
    Wraps(10 * (v % WORD) + d, 10 * q);
  }

  lemma {:induction false} Wraps(d: int, k: int)
    ensures (d + WORD * k) % WORD == d % WORD
  {
  }

  // ---------------------------------------------------------------- checksums

  function XorAll(sum: bv8, text: string): bv8 {
    if text == [] then sum else Xor(XorAll(sum, text[..|text| - 1]), text[|text| - 1])
  }

  lemma {:induction false} XorJoins(sum: bv8, x: string, y: string)
    ensures XorAll(sum, x + y) == XorAll(XorAll(sum, x), y)
  {
    hide Xor;
    if y == [] {
      assert x + y == x;
    } else {
      XorJoins(sum, x, y[..|y| - 1]);
      assert (x + y)[..|x + y| - 1] == x + y[..|y| - 1];
    }
  }

  predicate BitOf(b: bv8, i: nat)
    requires i < 8
  {
    (b >> i) & 1 == 1
  }

  /** Whether bit i is set in an odd number of the characters. */
  predicate Odd(text: string, i: nat)
    requires i < 8
  {
    text != [] && Odd(text[..|text| - 1], i) != BitOf((text[|text| - 1] as int % 256) as bv8, i)
  }

  /** The exclusive or of the characters of a text: each bit is set if it is in an odd number of them. */
  predicate HasBits(sum: bv8, text: string) { forall i | 0 <= i < 8 :: BitOf(sum, i) == Odd(text, i) }

  /** The checksum of a text is that. */
  lemma {:induction false} ChecksumIs(text: string, sum: bv8)
    ensures sum == XorAll(0, text) <==> HasBits(sum, text)
  {
    hide BitOf, Xor, Odd, XorAll;
    forall i: nat | i < 8 ensures BitOf(XorAll(0, text), i) == Odd(text, i) {
      ChecksumBit(text, i);
    }
    if HasBits(sum, text) {
      SameBits(sum, XorAll(0, text));
    }
  }

  lemma {:induction false} ChecksumBit(text: string, i: nat)
    requires i < 8
    ensures BitOf(XorAll(0, text), i) == Odd(text, i)
  {
    hide BitOf, Xor;
    if text == [] {
      NoBit(i);
    } else {
      var most, c := text[..|text| - 1], text[|text| - 1];
      ChecksumBit(most, i);
      XorBit(XorAll(0, most), c, i);
    }
  }

  lemma {:induction false} NoBit(i: nat)
    requires i < 8
    ensures !BitOf(0, i)
  {
  }

  lemma {:induction false} XorBit(sum: bv8, c: char, i: nat)
    requires i < 8
    ensures BitOf(Xor(sum, c), i) == (BitOf(sum, i) != BitOf((c as int % 256) as bv8, i))
  {
    var b := (c as int % 256) as bv8;
    XorBits(sum, b, i);
  }

  lemma {:induction false} XorBits(a: bv8, b: bv8, i: nat)
    requires i < 8
    ensures BitOf(a ^ b, i) == (BitOf(a, i) != BitOf(b, i))
  {
    assert (a ^ b) >> i == (a >> i) ^ (b >> i);
  }

  lemma {:induction false} SameBits(a: bv8, b: bv8)
    requires forall i | 0 <= i < 8 :: BitOf(a, i) == BitOf(b, i)
    ensures a == b
  {
    assert BitOf(a, 0) == BitOf(b, 0) && BitOf(a, 1) == BitOf(b, 1) && BitOf(a, 2) == BitOf(b, 2);
    assert BitOf(a, 3) == BitOf(b, 3) && BitOf(a, 4) == BitOf(b, 4) && BitOf(a, 5) == BitOf(b, 5);
    assert BitOf(a, 6) == BitOf(b, 6) && BitOf(a, 7) == BitOf(b, 7);
  }

  // ---------------------------------------------------------------- what is written

  /** Code, a string in double quotes, or a comment in brackets. */
  datatype Part = Words(text: string) | Quotation(text: string) | Remark(text: string)

  /** How a line may end: there, in a comment that goes on to its end, or in a checksum. */
  datatype Ending = Nothing | Note(text: string) | Sum(value: nat)

  predicate Plain(c: char) { c != '*' && c != ';' && c != '(' && c != '"' && c != DEL }

  predicate WellFormed(p: Part) {
    match p
    case Words(text) => forall i | 0 <= i < |text| :: Plain(text[i])
    case Quotation(text) => forall i | 0 <= i < |text| :: text[i] != '"' && text[i] != DEL
    case Remark(text) => forall i | 0 <= i < |text| :: text[i] != ')' && text[i] != DEL
  }

  predicate AllWellFormed(parts: seq<Part>) { forall i | 0 <= i < |parts| :: WellFormed(parts[i]) }

  function Written(p: Part): string {
    match p
    case Words(text) => text
    case Quotation(text) => ['"'] + text + ['"']
    case Remark(text) => ['('] + text + [')']
  }

  /** Comments are not kept. */
  function Kept(p: Part): string { if p.Remark? then [] else Written(p) }

  function AllWritten(parts: seq<Part>): string {
    if parts == [] then [] else AllWritten(parts[..|parts| - 1]) + Written(parts[|parts| - 1])
  }

  function AllKept(parts: seq<Part>): string {
    if parts == [] then [] else AllKept(parts[..|parts| - 1]) + Kept(parts[|parts| - 1])
  }

  function EndText(e: Ending): string {
    match e
    case Nothing => []
    case Note(text) => [';'] + text
    case Sum(value) => ['*'] + Decimal(value)
  }

  function NumberText(number: Option<nat>): string {
    if number.None? then [] else ['N'] + Decimal(number.value) + [' ']
  }

  // ---------------------------------------------------------------- what is kept

  /** A line with more text, in some state, after more has been read. */
  function Longer(a: Line, kept: string, read: string, state: State): Line {
    a.(text := a.text + kept, computedChecksum := XorAll(a.computedChecksum, read), state := state)
  }

  lemma {:induction false} LongerTwice(a: Line, k: string, r: string, s: State, k': string, r': string, s': State)
    ensures Longer(Longer(a, k, r, s), k', r', s') == Longer(a, k + k', r + r', s')
  {
    hide XorAll;
    XorJoins(a.computedChecksum, r, r');
    assert a.text + k + k' == a.text + (k + k');
  }

  lemma {:induction false} LongerOne(a: Line, kept: string, c: char, state: State)
    ensures Longer(a, kept, [c], state) == Checked(a, c).(text := a.text + kept, state := state)
    ensures Longer(a, [], [], a.state) == a
  {
    hide Xor;
    assert [c][..0] == [] && XorAll(a.computedChecksum, [c]) == Xor(a.computedChecksum, c);
    assert a.text + [] == a.text;
  }

  lemma {:induction false} WordsKept(a: Line, size: nat, text: string)
    requires a.state == Code && |a.text| + |text| <= size && forall i | 0 <= i < |text| :: Plain(text[i])
    ensures FeedAll(a, size, text) == Longer(a, text, text, Code)
  {
    hide Xor, XorAll, Longer;
    if text == [] {
      LongerOne(a, [], ' ', Code);
    } else {
      var most, c := text[..|text| - 1], text[|text| - 1];
      assert text == most + [c];
      WordsKept(a, size, most);
      var b := FeedAll(a, size, most);
      LongerIs(a, most, most, Code);
      LongerOne(b, [c], c, Code);
      LongerTwice(a, most, most, Code, [c], [c], Code);
    }
  }

  lemma {:induction false} LongerIs(a: Line, kept: string, read: string, state: State)
    ensures Longer(a, kept, read, state).text == a.text + kept && Longer(a, kept, read, state).state == state
  {
  }

  lemma {:induction false} InsideKept(a: Line, size: nat, text: string)
    requires a.state == QuotedString && |a.text| + |text| <= size
    requires forall i | 0 <= i < |text| :: text[i] != '"' && text[i] != DEL
    ensures FeedAll(a, size, text) == Longer(a, text, text, QuotedString)
  {
    hide Xor, XorAll, Longer;
    if text == [] {
      LongerOne(a, [], ' ', QuotedString);
    } else {
      var most, c := text[..|text| - 1], text[|text| - 1];
      assert text == most + [c];
      InsideKept(a, size, most);
      LongerIs(a, most, most, QuotedString);
      LongerOne(FeedAll(a, size, most), [c], c, QuotedString);
      LongerTwice(a, most, most, QuotedString, [c], [c], QuotedString);
    }
  }

  lemma {:induction false} InsideLeftOut(a: Line, size: nat, text: string)
    requires a.state == BracketedComment && forall i | 0 <= i < |text| :: text[i] != ')' && text[i] != DEL
    ensures FeedAll(a, size, text) == Longer(a, [], text, BracketedComment)
  {
    hide Xor, XorAll, Longer;
    if text == [] {
      LongerOne(a, [], ' ', BracketedComment);
    } else {
      var most, c := text[..|text| - 1], text[|text| - 1];
      assert text == most + [c];
      InsideLeftOut(a, size, most);
      LongerIs(a, [], most, BracketedComment);
      var b := FeedAll(a, size, most);
      LongerOne(b, [], c, BracketedComment);
      assert b.text + [] == b.text;
      LongerTwice(a, [], most, BracketedComment, [], [c], BracketedComment);
      assert "" + "" == "";
    }
  }

  /** Three pieces of text, one after the other. */
  lemma {:induction false} FeedThree(a: Line, size: nat, x: char, text: string, y: char)
    ensures FeedAll(a, size, [x] + text + [y]) == Feed(FeedAll(Feed(a, size, x), size, text), size, y)
  {
    hide Feed;
    FeedJoins(a, size, [x], text);
    FeedOne(a, size, x);
    FeedJoins(a, size, [x] + text, [y]);
    FeedOne(FeedAll(a, size, [x] + text), size, y);
  }

  lemma {:induction false} QuotationKept(a: Line, size: nat, text: string)
    requires a.state == Code && |a.text| + |text| + 2 <= size
    requires forall i | 0 <= i < |text| :: text[i] != '"' && text[i] != DEL
    ensures var all := ['"'] + text + ['"']; FeedAll(a, size, all) == Longer(a, all, all, Code)
  {
    hide Xor, XorAll, Longer, FeedAll;
    FeedThree(a, size, '"', text, '"');
    var b := Feed(a, size, '"');
    LongerOne(a, ['"'], '"', QuotedString);
    assert b == Longer(a, ['"'], ['"'], QuotedString);
    InsideKept(b, size, text);
    var c := FeedAll(b, size, text);
    LongerIs(b, text, text, QuotedString);
    LongerTwice(a, ['"'], ['"'], QuotedString, text, text, QuotedString);
    LongerOne(c, ['"'], '"', Code);
    assert Feed(c, size, '"') == Longer(c, ['"'], ['"'], Code);
    LongerTwice(a, ['"'] + text, ['"'] + text, QuotedString, ['"'], ['"'], Code);
  }

  lemma {:induction false} RemarkLeftOut(a: Line, size: nat, text: string)
    requires a.state == Code && forall i | 0 <= i < |text| :: text[i] != ')' && text[i] != DEL
    ensures var all := ['('] + text + [')']; FeedAll(a, size, all) == Longer(a, [], all, Code)
  {
    hide Xor, XorAll, Longer, FeedAll;
    FeedThree(a, size, '(', text, ')');
    var b := Feed(a, size, '(');
    assert a.text + [] == a.text;
    LongerOne(a, [], '(', BracketedComment);
    assert b == Longer(a, [], ['('], BracketedComment);
    InsideLeftOut(b, size, text);
    var c := FeedAll(b, size, text);
    LongerIs(b, [], text, BracketedComment);
    assert c.text + [] == c.text;
    LongerTwice(a, [], ['('], BracketedComment, [], text, BracketedComment);
    LongerOne(c, [], ')', Code);
    assert Feed(c, size, ')') == Longer(c, [], [')'], Code);
    assert "" + "" == "";
    LongerTwice(a, [], ['('] + text, BracketedComment, [], [')'], Code);
  }

  /** Code and strings are kept as they are, comments are left out, and all of it counts for the checksum. */
  lemma {:induction false} PartsKept(a: Line, size: nat, parts: seq<Part>)
    requires a.state == Code && AllWellFormed(parts) && |a.text| + |AllKept(parts)| <= size
    ensures FeedAll(a, size, AllWritten(parts)) == Longer(a, AllKept(parts), AllWritten(parts), Code)
  {
    hide Feed, XorAll, Longer, FeedAll;
    if parts == [] {
      LongerOne(a, [], ' ', Code);
      FeedNone(a, size);
    } else {
      var most, p := parts[..|parts| - 1], parts[|parts| - 1];
      PartsKept(a, size, most);
      var b := FeedAll(a, size, AllWritten(most));
      LongerIs(a, AllKept(most), AllWritten(most), Code);
      match p {
        case Words(text) => WordsKept(b, size, text);
        case Quotation(text) => QuotationKept(b, size, text);
        case Remark(text) => RemarkLeftOut(b, size, text);
      }
      FeedJoins(a, size, AllWritten(most), Written(p));
      LongerTwice(a, AllKept(most), AllWritten(most), Code, Kept(p), Written(p), Code);
    }
  }

  lemma {:induction false} FeedNone(a: Line, size: nat)
    ensures FeedAll(a, size, []) == a
  {
  }

  // ---------------------------------------------------------------- the number and the ending

  /** The value of digits as a 32-bit count. */
  function Clipped(s: string): nat
    requires Digits(s)
  {
    ValueOf(s) % WORD
  }

  lemma {:induction false} ClippedStep(s: string)
    requires Digits(s)
    ensures if s == [] then Clipped(s) == 0 else Clipped(s) == Shifted(Clipped(s[..|s| - 1]), s[|s| - 1])
  {
    hide Shifted;
    if s != [] {
      ShiftedIs(ValueOf(s[..|s| - 1]), s[|s| - 1]);
    }
  }

  lemma {:induction false} DigitsOfNumber(a: Line, size: nat, s: string)
    requires a.state == LineNumber && a.lineNumber == 0 && Digits(s)
    ensures FeedAll(a, size, s) == Longer(a, [], s, LineNumber).(lineNumber := Clipped(s))
  {
    hide Xor, XorAll, Longer, Shifted, Clipped;
    ClippedStep(s);
    if s == [] {
      LongerOne(a, [], ' ', LineNumber);
    } else {
      var most, c := s[..|s| - 1], s[|s| - 1];
      assert s == most + [c];
      DigitsOfNumber(a, size, most);
      var b := Longer(a, [], most, LineNumber);
      LongerIs(a, [], most, LineNumber);
      LongerOne(b, [], c, LineNumber);
      assert b.text + "" == b.text && "" + "" == "";
      LongerTwice(a, [], most, LineNumber, [], [c], LineNumber);
      assert Checked(b, c) == Longer(b, [], [c], LineNumber);
    }
  }

  lemma {:induction false} NumberRead(a: Line, size: nat, n: nat)
    requires Starting(a)
    ensures FeedAll(a, size, NumberText(Some(n)))
         == Longer(a, [], NumberText(Some(n)), Whitespace).(lineNumber := n % WORD, hadLineNumber := true)
  {
    hide Xor, XorAll, FeedAll;
    var s := Decimal(n);
    FeedThree(a, size, 'N', s, ' ');
    var b := Feed(a, size, 'N');
    DigitsOfNumber(b, size, s);
    DecimalReads(n);
    XorThree(a.computedChecksum, 'N', s, ' ');
    assert a.text + [] == a.text;
  }

  lemma {:induction false} XorThree(sum: bv8, x: char, text: string, y: char)
    ensures XorAll(sum, [x] + text + [y]) == Xor(XorAll(Xor(sum, x), text), y)
  {
    hide Xor;
    XorJoins(sum, [x], text);
    XorJoins(sum, [x] + text, [y]);
    XorSingle(sum, x);
    XorSingle(XorAll(sum, [x] + text), y);
  }

  lemma {:induction false} XorSingle(sum: bv8, x: char)
    ensures XorAll(sum, [x]) == Xor(sum, x)
  {
    assert [x][..0] == [];
  }

  lemma {:induction false} DigitsOfSum(a: Line, size: nat, s: string)
    requires a.state == Checksum && a.declaredChecksum == 0 && Digits(s)
    ensures FeedAll(a, size, s) == a.(declaredChecksum := Clipped(s))
  {
    hide Shifted, Clipped;
    ClippedStep(s);
    if s != [] {
      DigitsOfSum(a, size, s[..|s| - 1]);
    }
  }

  lemma {:induction false} NoteDropped(a: Line, size: nat, text: string)
    requires a.state == Discarding
    ensures FeedAll(a, size, text) == a
  {
    if text != [] {
      NoteDropped(a, size, text[..|text| - 1]);
    }
  }

  /** What a line is after its ending. */
  function Ended(a: Line, e: Ending): Line {
    match e
    case Nothing => a
    case Note(text) => a.(state := Discarding)
    case Sum(value) => a.(state := Checksum, hadChecksum := true, declaredChecksum := value % WORD)
  }

  lemma {:induction false} EndingRead(a: Line, size: nat, e: Ending)
    requires a.state == Code
    ensures FeedAll(a, size, EndText(e)) == Ended(a, e)
  {
    hide FeedAll, Decimal;
    match e {
      case Nothing =>
        FeedNone(a, size);
      case Note(text) =>
        FeedJoins(a, size, [';'], text);
        FeedOne(a, size, ';');
        NoteDropped(Feed(a, size, ';'), size, text);
      case Sum(value) =>
        var s := Decimal(value);
        FeedJoins(a, size, ['*'], s);
        FeedOne(a, size, '*');
        DigitsOfSum(Feed(a, size, '*'), size, s);
        DecimalReads(value);
    }
  }

  // ---------------------------------------------------------------- whole lines

  function LineText(number: Option<nat>, parts: seq<Part>, e: Ending): string {
    NumberText(number) + (AllWritten(parts) + EndText(e))
  }

  /** A line does not begin, after its number, with a blank; and without a number it does not begin with N. */
  predicate Begins(number: Option<nat>, body: string) {
    body != [] && !Blank(body[0]) && body[0] != DEL && (number.None? ==> body[0] != 'N' && body[0] != 'n')
  }

  /** The first character of the code decides that it is code. */
  lemma {:induction false} CodeBegins(a: Line, size: nat, number: Option<nat>, body: string)
    requires Begins(number, body) && a.state == if number.None? then NotStarted else Whitespace
    ensures FeedAll(a, size, body) == FeedAll(a.(state := Code), size, body)
  {
    hide FeedAll, Xor;
    var c, rest := body[0], body[1..];
    assert body == [c] + rest;
    FeedJoins(a, size, [c], rest);
    FeedJoins(a.(state := Code), size, [c], rest);
    FeedOne(a, size, c);
    FeedOne(a.(state := Code), size, c);
  }

  /**
   * What the buffer makes of any line that is written as a number, code, strings and comments in any order, and a final
   * comment or checksum: the code and the strings are stored and nothing else is; the number and the checksum are those
   * written; and the checksum computed is that of all that comes before the one written, or before the final comment.
   */
  lemma {:induction false} LineRead(a: Line, size: nat, number: Option<nat>, parts: seq<Part>, e: Ending)
    requires Starting(a) && AllWellFormed(parts) && |AllKept(parts)| <= size
    requires Begins(number, AllWritten(parts) + EndText(e))
    ensures var b := FeedAll(a, size, LineText(number, parts, e));
      && b.text == AllKept(parts) && b.computedChecksum == XorAll(0, NumberText(number) + AllWritten(parts))
      && b.hadLineNumber == number.Some? && (number.Some? ==> b.lineNumber == number.value % WORD)
      && b.hadChecksum == e.Sum? && (e.Sum? ==> b.declaredChecksum == e.value % WORD)
  {
    hide Feed, FeedAll, XorAll, NumberText, AllWritten, AllKept, EndText;
    var intro, words, end := NumberText(number), AllWritten(parts), EndText(e);
    FeedJoins(a, size, intro, words + end);
    Introduced(a, size, number);
    var b := FeedAll(a, size, intro);
    CodeBegins(b, size, number, words + end);
    var c := b.(state := Code);
    FeedJoins(c, size, words, end);
    PartsKept(c, size, parts);
    EndingRead(FeedAll(c, size, words), size, e);
    XorJoins(a.computedChecksum, intro, words);
    assert "" + AllKept(parts) == AllKept(parts);
  }

  lemma {:induction false} Introduced(a: Line, size: nat, number: Option<nat>)
    requires Starting(a)
    ensures var b := FeedAll(a, size, NumberText(number));
      && b.state == (if number.None? then NotStarted else Whitespace) && b.text == [] && !b.hadChecksum
      && b.computedChecksum == XorAll(a.computedChecksum, NumberText(number))
      && b.hadLineNumber == number.Some? && (number.Some? ==> b.lineNumber == number.value % WORD)
  {
    hide Feed;
    if number.Some? {
      NumberRead(a, size, number.value);
    }
  }

  /** A character that stands for an error of the receiver spoils the line, unless it is in what is thrown away
      anyway. */
  lemma {:induction false} SpoiltLine(a: Line, size: nat, before: string, after: string, needed: bool)
    requires FeedAll(a, size, before).state != Discarding
    ensures var b := FeedAll(a, size, before + ([DEL] + after));
      b.text == [] && !Accepted(b, size, needed) && !Refused(b, size)
  {
    hide FeedAll;
    FeedJoins(a, size, before, [DEL] + after);
    var b := FeedAll(a, size, before);
    FeedJoins(b, size, [DEL], after);
    FeedOne(b, size, DEL);
    NoteDropped(Feed(b, size, DEL), size, after);
  }

  /** Such a line is accepted exactly if something of it is kept, it fits, and the checksum written is the exclusive
      or of the characters before it, or none is needed. */
  lemma {:induction false} LineAccepted(a: Line, size: nat, number: Option<nat>, parts: seq<Part>, e: Ending,
                                        needed: bool)
    requires Starting(a) && AllWellFormed(parts) && |AllKept(parts)| <= size
    requires Begins(number, AllWritten(parts) + EndText(e))
    ensures Accepted(FeedAll(a, size, LineText(number, parts, e)), size, needed) <==>
      && 0 < |AllKept(parts)| < size
      && if e.Sum?
         then
           var text := NumberText(number) + AllWritten(parts);
           exists sum: bv8 :: e.value % WORD == sum as int && HasBits(sum, text)
         else !needed
  {
    hide FeedAll, XorAll, NumberText, AllWritten, AllKept, EndText, HasBits;
    LineRead(a, size, number, parts, e);
    var text := NumberText(number) + AllWritten(parts);
    ChecksumIs(text, XorAll(0, text));
    forall sum: bv8 ensures HasBits(sum, text) <==> sum == XorAll(0, text) {
      ChecksumIs(text, sum);
    }
  }

  // ---------------------------------------------------------------- the word of a command

  /** A letter, a number that may be negative, and perhaps one digit of a fraction. */
  function CommandWord(letter: char, negative: bool, n: nat, fraction: Option<nat>): string {
    [letter] + (if negative then ['-'] else []) + Decimal(n)
    + if fraction.Some? then ['.', ('0' as int + fraction.value % 10) as char] else []
  }

  /** G, M or T in either case with a number is decoded to that number, whatever comes next, unless it would make the
      number longer. */
  lemma {:induction false} WordDecoded(letter: char, negative: bool, n: nat, fraction: Option<nat>, rest: string)
    requires letter in "GMTgmt" && (fraction.Some? ==> fraction.value < 10)
    requires rest != [] && fraction.None? ==> !Digit(rest[0]) && rest[0] != '.'
    ensures var line := CommandWord(letter, negative, n, fraction) + rest;
      && HasNumber(line, 0) && CommandNumber(line, 0) == (if negative then 0 - n as int else n as int)
      && CommandFraction(line, 0) == (if fraction.Some? then fraction.value as int else -1)
      && ParameterStart(line, 0) == |CommandWord(letter, negative, n, fraction)|
      && Upper(line[0]) in "GMT"
  {
    hide *;
    var line := CommandWord(letter, negative, n, fraction) + rest;
    WordShape(letter, negative, n, fraction, rest);
    var p := if negative then 2 else 1;
    var q := p + |Decimal(n)|;
    DigitsEnd(line, p, q);
    NumberIs(line, p, q);
    DecimalReads(n);
    ShapeDecoded(line, negative, p, q, fraction);
  }

  lemma {:induction false} WordShape(letter: char, negative: bool, n: nat, fraction: Option<nat>, rest: string)
    requires fraction.Some? ==> fraction.value < 10
    requires rest != [] && fraction.None? ==> !Digit(rest[0]) && rest[0] != '.'
    ensures var word := CommandWord(letter, negative, n, fraction);
      var line, p := word + rest, if negative then 2 else 1;
      var q := p + |Decimal(n)|;
      && p < q <= |line| && line[0] == letter && (negative <==> line[1] == '-') && line[p..q] == Decimal(n)
      && (forall i | p <= i < q :: Digit(line[i])) && (q < |line| ==> !Digit(line[q]))
      && (fraction.Some? ==> q + 1 < |line| && line[q] == '.' && Digit(line[q + 1])
                             && (line[q + 1] - '0') as int == fraction.value)
      && (fraction.None? && q < |line| ==> line[q] != '.') && |word| == if fraction.Some? then q + 2 else q
  {
    hide Decimal;
    var line, p := CommandWord(letter, negative, n, fraction) + rest, if negative then 2 else 1;
    var q := p + |Decimal(n)|;
    assert line[p..q] == Decimal(n);
    forall i | p <= i < q ensures Digit(line[i]) {
      assert line[i] == line[p..q][i - p];
    }
    assert fraction.None? && q < |line| ==> line[q] == rest[0];
  }

  lemma {:induction false} ShapeDecoded(line: string, negative: bool, p: nat, q: nat, fraction: Option<nat>)
    requires p < q <= |line| && line[0] in "GMTgmt" && p == (if negative then 2 else 1)
    requires (negative <==> line[1] == '-')
    requires (forall i | p <= i < q :: Digit(line[i])) && SkipDigits(line, p) == q
    requires fraction.Some? ==> q + 1 < |line| && line[q] == '.' && Digit(line[q + 1])
                                && (line[q + 1] - '0') as int == fraction.value
    requires fraction.None? && q < |line| ==> line[q] != '.'
    ensures HasNumber(line, 0)
    ensures CommandNumber(line, 0) == if negative then 0 - Number(line, p, q) as int else Number(line, p, q) as int
    ensures CommandFraction(line, 0) == if fraction.Some? then fraction.value as int else -1
    ensures ParameterStart(line, 0) == if fraction.Some? then q + 2 else q
    ensures Upper(line[0]) in "GMT"
  {
    hide SkipDigits, Number;
    assert CommandLetter(line[0]) && NumberStart(line, 0) == p;
  }

  lemma {:induction false} DigitsEnd(line: string, p: nat, q: nat)
    requires p <= q <= |line| && (forall i | p <= i < q :: Digit(line[i])) && (q < |line| ==> !Digit(line[q]))
    ensures SkipDigits(line, p) == q
    decreases q - p
  {
    if p < q {
      DigitsEnd(line, p + 1, q);
    }
  }

  lemma {:induction false} NumberIs(line: string, p: nat, q: nat)
    requires p <= q <= |line| && forall i | p <= i < q :: Digit(line[i])
    ensures Number(line, p, q) == ValueOf(line[p..q])
    decreases q
  {
    if p < q {
      NumberIs(line, p, q - 1);
      assert line[p..q][..q - p - 1] == line[p..q - 1] && line[p..q][q - p - 1] == line[q - 1];
    }
  }

  // ---------------------------------------------------------------- strings in capitals

  /** A string in which capitals stand for themselves and small letters are capitals after a single quote. */
  function Shouted(s: string): string {
    if s == [] then []
    else
      (if Quote(s[0]) then [s[0], s[0]] else if 'a' <= s[0] <= 'z' then ['\'', s[0] - 'a' + 'A'] else [s[0]])
      + Shouted(s[1..])
  }

  /** It reads as the string. */
  lemma {:induction false} ShoutedReads(line: string, i: nat, s: string)
    requires i <= |line| && line[i..] == Shouted(s) + ['"'] && Printable(s)
    ensures Unquote(line, i) == Some(s)
    decreases |s|
  {
    var rest := line[i..];
    if s == [] {
      assert rest == ['"'] && line[i] == rest[0];
    } else {
      var small := 'a' <= s[0] <= 'z';
      var d := if Quote(s[0]) || small then 2 else 1;
      assert rest[0] == line[i] && line[i + d..] == rest[d..] == Shouted(s[1..]) + ['"'];
      if d == 2 {
        assert rest[1] == line[i + 1];
      }
      ShoutedReads(line, i + d, s[1..]);
      assert s == [s[0]] + s[1..];
    }
  }

  /** A string that is not ended cannot be read. */
  lemma {:induction false} UnendedString(line: string, i: nat)
    requires forall j | i <= j < |line| :: line[j] != '"'
    ensures Unquote(line, i) == None
    decreases |line| - i
  {
    if i < |line| {
      UnendedString(line, i + 1);
      UnendedString(line, i + 2);
    }
  }

  // ---------------------------------------------------------------- several commands on a line

  function Quotes(text: string): nat {
    if text == [] then 0 else Quotes(text[..|text| - 1]) + if text[|text| - 1] == '"' then 1 else 0
  }

  /** No G or M follows a blank, except inside quotes, and quotes are closed. */
  predicate Unbroken(text: string) {
    && Quotes(text) % 2 == 0
    && forall i | 0 < i < |text| && text[i] in "GMgm" && text[i - 1] in " \t" :: Quotes(text[..i]) % 2 == 1
  }

  /** Commands to be written on one line: each is unbroken and all but the last end in a blank; the first starts with G,
      M or T and the others with G or M. */
  predicate OnOneLine(texts: seq<string>, first: bool) {
    texts != [] ==>
      && texts[0] != [] && Unbroken(texts[0]) && texts[0][0] in (if first then "GMTgmt" else "GMgm")
      && (|texts| > 1 ==> texts[0][|texts[0]| - 1] in " \t")
      && OnOneLine(texts[1..], false)
  }

  lemma {:induction false} QuotesParity(line: string, i: nat)
    requires i <= |line|
    ensures Quoted(line, i) <==> Quotes(line[..i]) % 2 == 1
  {
    if i > 0 {
      QuotesParity(line, i - 1);
      assert line[..i][..i - 1] == line[..i - 1];
    }
  }

  lemma {:induction false} QuotesJoin(a: string, b: string)
    ensures Quotes(a + b) == Quotes(a) + Quotes(b)
  {
    if b == [] {
      assert a + b == a;
    } else {
      QuotesJoin(a, b[..|b| - 1]);
      assert (a + b)[..|a + b| - 1] == a + b[..|b| - 1];
    }
  }

  lemma {:induction false} Letters(c: char)
    ensures c in "GMgm" <==> Upper(c) == 'G' || Upper(c) == 'M'
    ensures c in "GMTgmt" <==> CommandLetter(c)
    ensures c in " \t" <==> Blank(c)
  {
  }

  /** Where a command that stands between others ends. */
  lemma {:induction false} EndsThere(before: string, text: string, after: string)
    requires text != [] && Unbroken(text) && CommandLetter(text[0]) && Quotes(before) % 2 == 0
    requires after != [] ==> Blank(text[|text| - 1]) && after[0] in "GMgm"
    ensures CommandEnd(before + text + after, |before|) == |before| + |text|
  {
    hide Quoted, Upper, Blank, CommandLetter;
    var line, start, end := before + text + after, |before|, |before| + |text|;
    assert line[start] == text[0];
    forall j | start < j < end ensures !Splits(line, j) {
      InsideText(before, text, after, j - start);
    }
    if after != [] {
      assert line[..end] == before + text;
      QuotesJoin(before, text);
      QuotesParity(line, end);
      Letters(line[end]);
      assert line[end - 1] == text[|text| - 1] && Splits(line, end);
    }
    SplitIs(line, start + 1, end);
  }

  lemma {:induction false} InsideText(before: string, text: string, after: string, i: nat)
    requires 0 < i < |text| && Unbroken(text) && Quotes(before) % 2 == 0
    ensures !Splits(before + text + after, |before| + i)
  {
    hide Quoted, Upper, Blank, Quotes;
    var line, j := before + text + after, |before| + i;
    assert line[j] == text[i] && line[j - 1] == text[i - 1] && line[..j] == before + text[..i];
    Letters(text[i]);
    Letters(text[i - 1]);
    QuotesJoin(before, text[..i]);
    QuotesParity(line, j);
  }

  lemma {:induction false} SplitIs(line: string, from: nat, end: nat)
    requires from <= end <= |line| && (forall j | from <= j < end :: !Splits(line, j))
    requires end < |line| ==> Splits(line, end)
    ensures NextSplit(line, from) == end
    decreases end - from
  {
    hide Splits;
    if from < end {
      SplitIs(line, from + 1, end);
    }
  }

  /** Such a line is split into exactly those commands. */
  lemma {:induction false} SplitsAsWritten(before: string, texts: seq<string>, first: bool)
    requires OnOneLine(texts, first) && Quotes(before) % 2 == 0
    ensures Commands(before + Join(texts), |before|) == texts
    decreases |texts|
  {
    hide Unbroken, Quotes, CommandEnd;
    var line := before + Join(texts);
    if texts == [] {
      assert line == before;
    } else {
      var text, rest := texts[0], Join(texts[1..]);
      var end := |before| + |text|;
      assert line == before + text + rest;
      Letters(text[0]);
      Letters(text[|text| - 1]);
      FirstOf(texts[1..]);
      EndsThere(before, text, rest);
      ClosedQuotes(before, text);
      SplitsAsWritten(before + text, texts[1..], false);
      assert line[|before|..end] == text;
      assert texts == [text] + texts[1..];
    }
  }

  lemma {:induction false} ClosedQuotes(before: string, text: string)
    requires Unbroken(text) && Quotes(before) % 2 == 0
    ensures Quotes(before + text) % 2 == 0
  {
    QuotesJoin(before, text);
  }

  lemma {:induction false} FirstOf(texts: seq<string>)
    requires OnOneLine(texts, false)
    ensures Join(texts) != [] ==> texts != [] && Join(texts)[0] in "GMgm"
  {
  }
}
