/** The JSON string encoding used for replies, as functions on text, and a reference reader for it. */
module JsonText {
  import opened Options

  /** The letter that escapes a character, if it needs escaping. A slash is sent as it is. */
  function EscapeLetter(c: char): Option<char> {
    match c
    case '\r' => Some('r')
    case '\n' => Some('n')
    case '\t' => Some('t')
    case '"' => Some('"')
    case '\\' => Some('\\')
    case _ => None
  }

  function Escape(c: char): string {
    match EscapeLetter(c)
    case Some(letter) => ['\\', letter]
    case None => [c]
  }

  function EscapeAll(text: string): string {
    if text == [] then [] else Escape(text[0]) + EscapeAll(text[1..])
  }

  /** The part of the text that is encoded: it ends at a NUL, and at a control character unless those are allowed. */
  function Encodable(text: string, allowControlChars: bool): (prefix: string)
    ensures prefix <= text
    ensures forall c | c in prefix :: c != '\0' && (c >= ' ' || allowControlChars)
    ensures |prefix| < |text| ==> text[|prefix|] == '\0' || (text[|prefix|] < ' ' && !allowControlChars)
  {
    if text == [] || text[0] == '\0' || !(text[0] >= ' ' || allowControlChars) then []
    else
      var rest := Encodable(text[1..], allowControlChars);
      assert text == [text[0]] + text[1..];
      [text[0]] + rest
  }

  function Encoding(text: string, allowControlChars: bool, encapsulate: bool, asterisk: bool): string {
    (if encapsulate then "\"" else "") + (if asterisk then "*" else "")
    + EscapeAll(Encodable(text, allowControlChars)) + (if encapsulate then "\"" else "")
  }

  // ---------------------------------------------------------------- reading it back

  /** The two-character escapes of section 7 of RFC 8259. */
  function Unescape(letter: char): Option<char> {
    match letter
    case '"' => Some('"')
    case '\\' => Some('\\')
    case '/' => Some('/')
    case 'b' => Some(8 as char)
    case 'f' => Some(12 as char)
    case 'n' => Some('\n')
    case 'r' => Some('\r')
    case 't' => Some('\t')
    case _ => None
  }

  /**
   * The characters of a JSON string, without the quotes around them: a bare quote is refused, an escape stands for its
   * character. A strict reader, as that section has it, also refuses a bare control character.
   */
  function Chars(s: string, strict: bool): Option<string> {
    if s == [] then Some("")
    else if s[0] == '"' || (strict && s[0] < ' ') then None
    else if s[0] != '\\' then Joined(s[0], Chars(s[1..], strict))
    else if |s| == 1 || Unescape(s[1]) == None then None
    else Joined(Unescape(s[1]).value, Chars(s[2..], strict))
  }

  function Joined(c: char, rest: Option<string>): Option<string> {
    if rest == None then None else Some([c] + rest.value)
  }

  /** Reads one JSON string with its quotes. */
  function ReadString(s: string, strict: bool): Option<string> {
    if |s| < 2 || s[0] != '"' || s[|s| - 1] != '"' then None else Chars(s[1..|s| - 1], strict)
  }

  /** The only control characters are those the encoder escapes. */
  predicate Printable(text: string) {
    forall c | c in text :: c >= ' ' || c in "\r\n\t"
  }

  /** What a reader makes of text that has been escaped. */
  function Recovered(text: string, strict: bool): Option<string> {
    if strict && !Printable(text) then None else Some(text)
  }

  lemma {:induction false} EscapeLetters(c: char)
    ensures EscapeLetter(c).Some? ==> Unescape(EscapeLetter(c).value) == Some(c)
    ensures EscapeLetter(c).None? ==> c != '"' && c != '\\'
    ensures c < ' ' ==> (EscapeLetter(c).Some? <==> c in "\r\n\t")
  {
  }

  /** The characters that need escaping; a slash is not one of them. */
  predicate Special(c: char) { c in "\r\n\t\"\\" }

  function Specials(text: string): nat {
    if text == [] then 0 else (if Special(text[0]) then 1 else 0) + Specials(text[1..])
  }

  /** Exactly the special characters cost one character more, and text without them is left as it is. */
  lemma {:induction false} EscapingAdds(text: string)
    ensures |EscapeAll(text)| == |text| + Specials(text)
    ensures EscapeAll(text) == text <==> forall c | c in text :: !Special(c)
  {
    if text != [] {
      EscapingAdds(text[1..]);
      assert text == [text[0]] + text[1..];
      if EscapeAll(text) == text {
        NoneSpecial(text);
      }
    }
  }

  lemma {:induction false} NoneSpecial(text: string)
    ensures Specials(text) == 0 <==> forall c | c in text :: !Special(c)
  {
    if text != [] {
      NoneSpecial(text[1..]);
      assert text == [text[0]] + text[1..];
    }
  }

  /** One escaped character in front of other text. */
  lemma {:induction false} ReadsEscaped(c: char, rest: string, strict: bool)
    ensures strict && !Printable([c]) ==> Chars(Escape(c) + rest, strict) == None
    ensures !strict || Printable([c]) ==> Chars(Escape(c) + rest, strict) == Joined(c, Chars(rest, strict))
  {
    hide EscapeLetter, Unescape;
    EscapeLetters(c);
    var s := Escape(c) + rest;
    assert c in [c];
    match EscapeLetter(c) {
      case Some(letter) => assert s[0] == '\\' && s[1] == letter && s[2..] == rest;
      case None => assert s[0] == c && s[1..] == rest;
    }
  }

  /**
   * Reading undoes escaping, for every text. So there is no quote in escaped text that is not itself escaped. A strict
   * reader accepts the escaped text if and only if the text is printable.
   */
  lemma {:induction false} ReadsBack(text: string, strict: bool)
    ensures Chars(EscapeAll(text), strict) == Recovered(text, strict)
  {
    hide Escape, Chars;
    if text == [] {
      ReadsNothing(strict);
    } else {
      var rest := text[1..];
      ReadsBack(rest, strict);
      ReadsEscaped(text[0], EscapeAll(rest), strict);
      PrintableJoins(text[0], rest);
      assert text == [text[0]] + rest;
    }
  }

  lemma {:induction false} ReadsNothing(strict: bool)
    ensures Chars("", strict) == Some("") && EscapeAll("") == "" && Printable("")
  {
  }

  lemma {:induction false} PrintableJoins(c: char, rest: string)
    ensures Printable([c] + rest) <==> Printable([c]) && Printable(rest)
  {
    var text := [c] + rest;
    assert text[0] == c && c in text && text[1..] == rest;
    assert forall d | d in rest :: d in text;
  }

  /** The text between the quotes, if there are any, and behind the asterisk, if there is one. */
  function Inside(s: string, encapsulate: bool, asterisk: bool): Option<string> {
    var quote := if encapsulate then 1 else 0;
    var from := quote + if asterisk then 1 else 0;
    if |s| < from + quote then None
    else if encapsulate && (s[0] != '"' || s[|s| - 1] != '"') then None
    else if asterisk && s[quote] != '*' then None
    else Some(s[from..|s| - quote])
  }

  /** However the encoder's arguments are set, un-escaping its output gives exactly the encodable prefix. */
  lemma {:induction false} EncodingReadsBack(text: string, allowControlChars: bool, encapsulate: bool, asterisk: bool)
    ensures var inside := Inside(Encoding(text, allowControlChars, encapsulate, asterisk), encapsulate, asterisk);
      inside.Some? && Chars(inside.value, false) == Some(Encodable(text, allowControlChars))
  {
    hide EscapeAll, Encodable, Chars;
    var prefix := Encodable(text, allowControlChars);
    ReadsBack(prefix, false);
    var s := Encoding(text, allowControlChars, encapsulate, asterisk);
    var quote := if encapsulate then 1 else 0;
    var from := quote + if asterisk then 1 else 0;
    assert s[from..|s| - quote] == EscapeAll(prefix);
  }

  /** Between quotes the output is a valid JSON string, as section 7 of RFC 8259 has it, exactly if it is printable. */
  lemma {:induction false} ValidIfPrintable(text: string, allowControlChars: bool, asterisk: bool)
    ensures var prefix := Encodable(text, allowControlChars);
      ReadString(Encoding(text, allowControlChars, true, asterisk), true)
        == Recovered((if asterisk then "*" else "") + prefix, true)
    ensures !allowControlChars ==> Printable(Encodable(text, false))
  {
    hide Escape, Chars;
    var prefix := Encodable(text, allowControlChars);
    var star := if asterisk then "*" else "";
    StarredIs(prefix, asterisk);
    ReadsBack(star + prefix, true);
    var s := Encoding(text, allowControlChars, true, asterisk);
    assert s[1..|s| - 1] == star + EscapeAll(prefix);
  }

  lemma {:induction false} StarredIs(prefix: string, asterisk: bool)
    ensures var star := if asterisk then "*" else ""; EscapeAll(star + prefix) == star + EscapeAll(prefix)
  {
    var star := if asterisk then "*" else "";
    assert asterisk ==> (star + prefix)[0] == '*' && (star + prefix)[1..] == prefix;
    assert !asterisk ==> star + prefix == prefix;
  }

  lemma {:induction false} EscapeJoins(a: string, b: string)
    ensures EscapeAll(a + b) == EscapeAll(a) + EscapeAll(b)
  {
    hide Escape;
    if a == [] {
      assert a + b == b;
    } else {
      EscapeJoins(a[1..], b);
      assert (a + b)[0] == a[0] && (a + b)[1..] == a[1..] + b;
      Regroup(Escape(a[0]), EscapeAll(a[1..]), EscapeAll(b));
    }
  }

  lemma {:induction false} Regroup(a: string, b: string, c: string)
    ensures a + (b + c) == a + b + c
  {
  }

  predicate Accepted(c: char, allowControlChars: bool) { c != '\0' && (c >= ' ' || allowControlChars) }

  lemma {:induction false} EncodableStops(text: string, allowControlChars: bool, n: nat)
    requires n <= |text| && forall i | 0 <= i < n :: Accepted(text[i], allowControlChars)
    requires n < |text| ==> !Accepted(text[n], allowControlChars)
    ensures Encodable(text, allowControlChars) == text[..n]
  {
    if n > 0 {
      EncodableStops(text[1..], allowControlChars, n - 1);
      assert text[..n] == [text[0]] + text[1..][..n - 1];
    }
  }

  lemma {:induction false} EscapeGrows(text: string, n: nat)
    requires n < |text|
    ensures EscapeAll(text[..n + 1]) == EscapeAll(text[..n]) + Escape(text[n])
  {
    EscapeJoins(text[..n], [text[n]]);
    assert text[..n + 1] == text[..n] + [text[n]];
    assert EscapeAll([text[n]]) == Escape(text[n]) + EscapeAll([]) == Escape(text[n]);
  }
}
