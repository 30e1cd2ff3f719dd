/** The buffer that assembles lines of G-code and hands out their commands. */
module GCodeBuffers {
  import opened Basics
  import opened Options
  import opened GCodeLines
  import opened GCodeTexts

  class GCodeBuffer {
    const gcodeBuffer: array<char>
    var state: State
    var gcodeLineEnd: nat       // number of characters stored of the line
    var commandStart: nat
    var parameterStart: nat
    var commandEnd: nat
    var commandLength: nat      // number of characters read for the line
    var readPointer: int
    var lineNumber: nat
    var declaredChecksum: nat
    var computedChecksum: bv8
    var hadLineNumber: bool
    var hadChecksum: bool
    var hasCommandNumber: bool
    var commandLetter: char
    var commandNumber: int
    var commandFraction: int
    var checksumRequired: bool
    var nested: bool            // the machine state has a predecessor

    ghost predicate Valid()
      reads this
    {
      0 < gcodeBuffer.Length && gcodeLineEnd <= gcodeBuffer.Length
    }

    ghost function View(): Line
      requires Valid()
      reads this, gcodeBuffer
    {
      Line(state, gcodeBuffer[..gcodeLineEnd], computedChecksum, declaredChecksum, hadChecksum, lineNumber,
           hadLineNumber)
    }

    constructor (size: nat, checksum: bool)
      requires 0 < size
      ensures Valid() && Starting(View()) && fresh(gcodeBuffer) && gcodeBuffer.Length == size
      ensures checksumRequired == checksum
    {
      gcodeBuffer := new char[size];
      state, gcodeLineEnd, commandLength, readPointer := NotStarted, 0, 0, -1;
      commandStart, parameterStart, commandEnd, lineNumber, declaredChecksum := 0, 0, 0, 0, 0;
      hadLineNumber, hadChecksum, computedChecksum := false, false, 0;
      hasCommandNumber, commandLetter, commandNumber, commandFraction := false, NUL, -1, -1;
      checksumRequired, nested := checksum, false;
    }

    method Init()
      requires Valid()
      modifies this
      ensures Valid() && Starting(View()) && checksumRequired == old(checksumRequired) && nested == old(nested)
      ensures readPointer == -1
    {
      gcodeLineEnd, commandLength, readPointer := 0, 0, -1;
      hadLineNumber, hadChecksum, computedChecksum := false, false, 0;
      state := NotStarted;
    }

    method AddToChecksum(c: char)
      requires Valid()
      modifies this`computedChecksum
      ensures View() == Checked(old(View()), c)
    {
      hide Xor;
      computedChecksum := Xor(computedChecksum, c);
    }

    method StoreAndAddToChecksum(c: char)
      requires Valid()
      modifies this`computedChecksum, this`gcodeLineEnd, gcodeBuffer
      ensures Valid() && View() == Stored(old(View()), gcodeBuffer.Length, c)
    {
      hide Xor;
      computedChecksum := Xor(computedChecksum, c);
      if gcodeLineEnd < gcodeBuffer.Length {
        gcodeBuffer[gcodeLineEnd] := c;
        gcodeLineEnd := gcodeLineEnd + 1;
        assert gcodeBuffer[..gcodeLineEnd] == old(gcodeBuffer[..gcodeLineEnd]) + [c];
      }
    }

    /** Adds a character to the words of a line. */
    method FeedWords(c: char)
      requires Valid() && state == Code
      modifies this`state, this`gcodeLineEnd, this`computedChecksum, this`declaredChecksum, this`hadChecksum
      modifies gcodeBuffer
      ensures Valid() && View() == FeedCode(old(View()), gcodeBuffer.Length, c)
    {
      hide Xor;
      if c == '*' {
        declaredChecksum := 0;
        hadChecksum := true;
        state := Checksum;
      } else if c == ';' {
        state := Discarding;
      } else if c == '(' {
        AddToChecksum(c);
        state := BracketedComment;
      } else if c == '"' {
        StoreAndAddToChecksum(c);
        state := QuotedString;
      } else {
        StoreAndAddToChecksum(c);
      }
    }

    /** Looks at a character before the words of a line, and says whether it must be looked at again in the next
        state. */
    method FeedOpening(c: char) returns (again: bool)
      requires Valid() && c != DEL && (state == NotStarted || state == LineNumber || state == Whitespace)
      modifies this`state, this`computedChecksum, this`lineNumber, this`hadLineNumber, this`commandStart
      ensures Valid() && (again ==> Rank(state) < old(Rank(state)))
      ensures again ==> Feed(View(), gcodeBuffer.Length, c) == Feed(old(View()), gcodeBuffer.Length, c)
      ensures !again ==> View() == Feed(old(View()), gcodeBuffer.Length, c)
    {
      hide Xor, FeedCode, Shifted;
      again := false;
      ghost var size, goal := gcodeBuffer.Length, Feed(View(), gcodeBuffer.Length, c);
      CodeFromAnywhere(View(), gcodeBuffer.Length, c);
      if state == NotStarted && (c == 'N' || c == 'n') {
        hadLineNumber := true;
        AddToChecksum(c);
        state := LineNumber;
        lineNumber := 0;
        assert View() == goal;
      } else if state == LineNumber {
        if Digit(c) {
          AddToChecksum(c);
          lineNumber := Shifted(lineNumber, c);
          assert View() == goal;
        } else {
          state, again := Whitespace, true;
        }
      } else if c == ' ' || c == '\t' {
        AddToChecksum(c);
        assert View() == goal;
      } else {
        state, commandStart, again := Code, 0, true;
      }
    }

    /** Looks at a character in the current state, and says whether it must be looked at again in the next state. */
    method FeedOnce(c: char) returns (again: bool)
      requires Valid() && (c == DEL ==> state == Discarding)
      modifies this`state, this`gcodeLineEnd, this`computedChecksum, this`declaredChecksum, this`hadChecksum
      modifies this`lineNumber, this`hadLineNumber, this`commandStart, gcodeBuffer
      ensures Valid() && (again ==> Rank(state) < old(Rank(state)) && old(state) != Discarding)
      ensures again ==> Feed(View(), gcodeBuffer.Length, c) == Feed(old(View()), gcodeBuffer.Length, c)
      ensures !again ==> View() == Feed(old(View()), gcodeBuffer.Length, c)
    {
      hide Xor, FeedCode, FeedBlanks, Shifted;
      again := false;
      ghost var size, goal := gcodeBuffer.Length, Feed(View(), gcodeBuffer.Length, c);
      match state {
        case NotStarted => again := FeedOpening(c);
        case LineNumber => again := FeedOpening(c);
        case Whitespace => again := FeedOpening(c);
        case Code =>
          FeedWords(c);
          assert View() == goal;
        case BracketedComment =>
          AddToChecksum(c);
          if c == ')' { state := Code; }
          assert View() == goal;
        case QuotedString =>
          StoreAndAddToChecksum(c);
          if c == '"' { state := Code; }
          assert View() == goal;
        case Checksum =>
          if Digit(c) {
            declaredChecksum := Shifted(declaredChecksum, c);
            assert View() == goal;
          } else {
            state, again := Discarding, true;
          }
        case _ =>
      }
    }

    /** Adds a character that does not end the line. */
    method Feed1(c: char)
      requires Valid()
      modifies this`state, this`gcodeLineEnd, this`computedChecksum, this`declaredChecksum, this`hadChecksum
      modifies this`lineNumber, this`hadLineNumber, this`commandStart, gcodeBuffer
      ensures Valid() && View() == Feed(old(View()), gcodeBuffer.Length, c)
    {
      hide Feed, Rank;
      ghost var size, goal := gcodeBuffer.Length, Feed(View(), gcodeBuffer.Length, c);
      FeedDel(View(), size, c);
      if c == DEL && state != Discarding {
        gcodeLineEnd := 0;
        state := Discarding;
      }
      var again := true;
      while again
        invariant Valid() && (if again then Feed(View(), size, c) == goal else View() == goal)
        invariant (again && c == DEL ==> state == Discarding)
        decreases again, Rank(state)
      {
        again := FeedOnce(c);
      }
    }

    /** A complete line is in the buffer, followed by a terminator. */
    ghost predicate Holds(line: string)
      reads this, gcodeBuffer
    {
      && Valid() && gcodeLineEnd == |line| < gcodeBuffer.Length
      && gcodeBuffer[..gcodeLineEnd] == line && gcodeBuffer[gcodeLineEnd] == NUL
    }

    /** The current command of the line has been found. */
    ghost predicate Decoded(line: string)
      reads this, gcodeBuffer
    {
      && Holds(line) && commandStart < |line| && (commandStart == 0 || Splits(line, commandStart))
      && parameterStart == ParameterStart(line, commandStart) && commandEnd == CommandEnd(line, commandStart)
      && commandLetter == Upper(line[commandStart]) && commandNumber == CommandNumber(line, commandStart)
      && hasCommandNumber == HasNumber(line, commandStart) && commandFraction == CommandFraction(line, commandStart)
    }

    /** Reads the number of the command at the given position. The buffer is terminated at position z. */
    method DecodeNumber(ghost z: nat)
      requires commandStart < z < gcodeBuffer.Length && gcodeBuffer[z] == NUL
      requires CommandLetter(gcodeBuffer[commandStart])
      modifies this`parameterStart, this`commandNumber, this`hasCommandNumber, this`commandFraction
      ensures parameterStart == ParameterStart(gcodeBuffer[..z], commandStart)
      ensures commandNumber == CommandNumber(gcodeBuffer[..z], commandStart)
      ensures hasCommandNumber == HasNumber(gcodeBuffer[..z], commandStart)
      ensures commandFraction == CommandFraction(gcodeBuffer[..z], commandStart)
    {
      hide SkipDigits, Number, ParameterStart, CommandNumber, NumberStart, Counted, HasNumber, CommandFraction;
      ghost var line := gcodeBuffer[..z];
      hasCommandNumber, commandNumber, commandFraction := false, -1, -1;
      parameterStart := commandStart + 1;
      var negative := gcodeBuffer[parameterStart] == '-';
      if negative {
        parameterStart := parameterStart + 1;
      }
      ghost var p := parameterStart;
      CountStarts(line, commandStart, p);
      if Digit(gcodeBuffer[parameterStart]) {
        hasCommandNumber := true;
        commandNumber := 0;
        while Digit(gcodeBuffer[parameterStart])
          invariant p <= parameterStart <= z && Counted(line, p, parameterStart, commandNumber)
          invariant hasCommandNumber && commandFraction == -1
          decreases z - parameterStart
        {
          CountStep(line, p, parameterStart, commandNumber);
          commandNumber := 10 * commandNumber + (gcodeBuffer[parameterStart] - '0') as int;
          parameterStart := parameterStart + 1;
        }
        CountEnds(line, commandStart, p, parameterStart, commandNumber);
        if negative {
          commandNumber := -commandNumber;
        }
        DecodeFraction();
      }
      assert gcodeBuffer[..z] == line;
    }

    /** Reads one digit after a point. */
    method DecodeFraction()
      requires parameterStart < gcodeBuffer.Length
      requires gcodeBuffer[parameterStart] == '.' ==> parameterStart + 1 < gcodeBuffer.Length
      modifies this`parameterStart, this`commandFraction
      ensures var q := old(parameterStart);
        if gcodeBuffer[q] == '.' && Digit(gcodeBuffer[q + 1])
        then parameterStart == q + 2 && commandFraction == (gcodeBuffer[q + 1] - '0') as int
        else parameterStart == (if gcodeBuffer[q] == '.' then q + 1 else q) && commandFraction == old(commandFraction)
    {
      if gcodeBuffer[parameterStart] == '.' {
        parameterStart := parameterStart + 1;
        if Digit(gcodeBuffer[parameterStart]) {
          commandFraction := (gcodeBuffer[parameterStart] - '0') as int;
          parameterStart := parameterStart + 1;
        }
      }
    }

    /** Finds the command that starts at the given position. The buffer is terminated at position z, which is the end
        of the line if the line is whole, that is, unless it was replaced. */
    method DecodeCommand(ghost z: nat, ghost whole: bool)
      requires Valid() && commandStart <= z < gcodeBuffer.Length && gcodeBuffer[z] == NUL
      requires whole ==>
        z == gcodeLineEnd && commandStart < z && (commandStart == 0 || Splits(gcodeBuffer[..z], commandStart))
      modifies this`state, this`commandLetter, this`parameterStart, this`commandNumber, this`hasCommandNumber
      modifies this`commandFraction, this`commandEnd
      ensures Valid() && state == Ready && (whole ==> Decoded(gcodeBuffer[..z]))
      ensures commandStart < z ==>
        && commandLetter == Upper(gcodeBuffer[commandStart])
        && commandNumber == CommandNumber(gcodeBuffer[..z], commandStart)
        && hasCommandNumber == HasNumber(gcodeBuffer[..z], commandStart)
    {
      hide Splits, ParameterStart, CommandNumber, NextSplit, HasNumber, CommandFraction;
      ghost var line := gcodeBuffer[..z];
      commandLetter := Upper(gcodeBuffer[commandStart]);
      if commandLetter == 'G' || commandLetter == 'M' || commandLetter == 'T' {
        DecodeNumber(z);
        FindEnd(whole);
      } else {
        hasCommandNumber, commandNumber, commandFraction := false, -1, -1;
        parameterStart := commandStart;
        commandEnd := gcodeLineEnd;
        if commandStart < z {
          NoNumber(line, commandStart);
        }
      }
      state := Ready;
    }

    /** Finds where the command ends. A G or M preceded by a space and not inside quotes is taken for the start of a new
        command. */
    method FindEnd(ghost whole: bool)
      requires Valid()
      requires whole ==> var line := gcodeBuffer[..gcodeLineEnd];
               && commandStart < |line| && (commandStart == 0 || Splits(line, commandStart))
               && CommandLetter(line[commandStart]) && parameterStart == ParameterStart(line, commandStart)
      modifies this`commandEnd
      ensures whole ==> commandEnd == CommandEnd(gcodeBuffer[..gcodeLineEnd], commandStart)
    {
      hide Splits, CommandEnd, NextSplit, ParameterStart, Scanned, Upper;
      ghost var line := gcodeBuffer[..gcodeLineEnd];
      var inQuotes, primed := false, false;
      commandEnd := parameterStart;
      if whole {
        ScanStarts(line, commandStart);
      }
      while commandEnd < gcodeLineEnd
        invariant whole ==> commandEnd <= gcodeLineEnd && Scanned(line, commandStart, commandEnd, inQuotes, primed)
        decreases gcodeLineEnd - commandEnd
      {
        var c := gcodeBuffer[commandEnd];
        if whole {
          ScanStep(line, commandStart, commandEnd, inQuotes, primed);
        }
        if c == '"' {
          inQuotes := !inQuotes;
          primed := false;
        } else if !inQuotes {
          if primed && (Upper(c) == 'G' || Upper(c) == 'M') {
            return;
          }
          primed := c == ' ' || c == '\t';
        }
        commandEnd := commandEnd + 1;
      }
      if whole {
        ScanEnds(line, commandStart, commandEnd, inQuotes, primed);
      }
    }

    ghost predicate Usable(a: Line)
      reads this
    {
      Accepted(a, gcodeBuffer.Length, checksumRequired && !nested)
    }

    /** A numbered line that has arrived with a wrong checksum. */
    ghost predicate Garbled(a: Line)
      reads this
    {
      Refused(a, gcodeBuffer.Length)
    }

    /** The buffer holds, as far as it fits, the command that asks for a line to be sent again. */
    ghost predicate Resending(n: nat)
      reads this, gcodeBuffer
    {
      Valid() &&
        var text := "M998 P" + Decimal(n);
        var z := Min(|text|, gcodeBuffer.Length - 1);
        && gcodeBuffer[..z] == text[..z] && gcodeBuffer[z] == NUL && commandStart == 0
        && (z >= 4 ==> commandLetter == 'M' && hasCommandNumber && commandNumber == 998)
    }

    /** Called at the end of a line. The result says whether there is a command to be executed. */
    method LineFinished() returns (ready: bool)
      requires Valid()
      modifies this, gcodeBuffer
      ensures Valid() && checksumRequired == old(checksumRequired) && nested == old(nested)
      ensures ready <==> old(Usable(View())) || old(Garbled(View()))
      ensures ready ==> state == Ready
      ensures !ready ==> Starting(View())
      ensures old(Usable(View())) ==> commandStart == 0 && Decoded(old(View()).text)
      ensures old(Garbled(View())) ==> Resending(old(lineNumber))
    {
      hide Decoded, Resending;
      if gcodeLineEnd == 0 || gcodeLineEnd == gcodeBuffer.Length {
        Init();
        return false;
      }
      ghost var line := gcodeBuffer[..gcodeLineEnd];
      gcodeBuffer[gcodeLineEnd] := NUL;
      var badChecksum := hadChecksum && computedChecksum as int != declaredChecksum;
      var missingChecksum := checksumRequired && !hadChecksum && !nested;
      assert gcodeBuffer[..gcodeLineEnd] == line;
      if badChecksum {
        if hadLineNumber {
          ghost var n := lineNumber;
          var z := RequestResend();
          commandStart := 0;
          DecodeCommand(z, false);
          ResendDecoded(this, n, z);
          return true;
        }
        Init();
        return false;
      }
      if missingChecksum {
        Init();
        return false;
      }
      commandStart := 0;
      DecodeCommand(gcodeLineEnd, true);
      return true;
    }

    /** Replaces the line by a request to send it again. */
    method RequestResend() returns (z: nat)
      requires Valid()
      modifies gcodeBuffer
      ensures z == Min(|"M998 P" + Decimal(lineNumber)|, gcodeBuffer.Length - 1) && gcodeBuffer[z] == NUL
      ensures gcodeBuffer[..z] == ("M998 P" + Decimal(lineNumber))[..z]
    {
      hide Decimal;
      var text := "M998 P" + Decimal(lineNumber);
      z := 0;
      while z < |text| && z + 1 < gcodeBuffer.Length
        invariant z <= |text| && z < gcodeBuffer.Length && gcodeBuffer[..z] == text[..z]
      {
        gcodeBuffer[z] := text[z];
        z := z + 1;
        assert text[..z] == text[..z - 1] + [text[z - 1]];
      }
      gcodeBuffer[z] := NUL;
      assert gcodeBuffer[..z] == text[..z];
    }

    /** Adds a character. The result says whether a line has been completed with a command to be executed. */
    method Put(c: char) returns (ready: bool)
      requires Valid()
      modifies this, gcodeBuffer
      ensures Valid() && checksumRequired == old(checksumRequired) && nested == old(nested)
      ensures c != NUL && c != '\n' && c != '\r' ==> !ready && View() == Feed(old(View()), gcodeBuffer.Length, c)
      ensures c == NUL || c == '\n' || c == '\r' ==>
                && (ready <==> old(Usable(View())) || old(Garbled(View()))) && (!ready ==> Starting(View()))
                && (old(Usable(View())) ==> commandStart == 0 && Decoded(old(View()).text))
                && (old(Garbled(View())) ==> Resending(old(lineNumber)))
      ensures ready ==> state == Ready
    {
      hide Decoded, Feed, Starting, Resending;
      if c != NUL {
        commandLength := commandLength + 1;
      }
      if c == NUL || c == '\n' || c == '\r' {
        ready := LineFinished();
      } else {
        Feed1(c);
        ready := false;
      }
    }

    /** Goes on to the next command of the line, or to the next line; or marks the command as being executed. */
    method SetFinished(f: bool, ghost line: string)
      requires Decoded(line)
      modifies this
      ensures Valid() && checksumRequired == old(checksumRequired) && nested == old(nested)
      ensures !f ==>
        Decoded(line) && commandStart == old(commandStart) && commandEnd == old(commandEnd) && state == Executing
      ensures f && old(commandEnd) < |line| ==> Decoded(line) && commandStart == old(commandEnd) && state == Ready
      ensures f && old(commandEnd) == |line| ==> Starting(View())
    {
      hide Splits, ParameterStart, CommandNumber, NextSplit, HasNumber, CommandFraction;
      if f {
        if commandEnd < gcodeLineEnd {
          NextIsSplit(line, commandStart);
          commandStart := commandEnd;
          DecodeCommand(gcodeLineEnd, true);
        } else {
          Init();
        }
      } else {
        state := Executing;
      }
    }

    /** Looks for a parameter letter in the current command. */
    method Seen(c: char, ghost line: string) returns (found: bool)
      requires Decoded(line)
      modifies this`readPointer
      ensures readPointer == match SeenAt(line, parameterStart, commandEnd, c) { case Some(k) => k case None => -1 }
      ensures found <==> SeenAt(line, parameterStart, commandEnd, c).Some?
      ensures Decoded(line)
    {
      hide ParameterStart, CommandEnd, Splits, CommandNumber, HasNumber, CommandFraction;
      var inQuotes := false;
      readPointer := parameterStart;
      SeenStarts(line, commandStart);
      while readPointer < commandEnd
        invariant parameterStart <= readPointer <= commandEnd && inQuotes == Quoted(line, readPointer)
        invariant SeenAt(line, parameterStart, commandEnd, c) == SeenAt(line, readPointer, commandEnd, c)
        decreases commandEnd - readPointer
      {
        var b := gcodeBuffer[readPointer];
        assert b == line[readPointer];
        if b == '"' {
          inQuotes := !inQuotes;
        } else if !inQuotes && Upper(b) == c {
          return true;
        }
        readPointer := readPointer + 1;
      }
      readPointer := -1;
      found := false;
    }

    /** Reads the quoted string after the parameter letter that was seen. */
    method GetQuotedString(ghost line: string) returns (ok: bool, str: string)
      requires Holds(line) && readPointer < |line|
      modifies this`readPointer
      ensures var k := old(readPointer);
              if k >= 0 && k + 1 < |line| && line[k + 1] == '"'
              then Unquote(line, k + 2) == (if ok then Some(str) else None)
              else !ok
      ensures old(Decoded(line)) ==> Decoded(line)
    {
      str := [];
      if readPointer < 0 {
        return false, [];
      }
      readPointer := readPointer + 1;
      assert gcodeBuffer[readPointer] == CharAt(line, readPointer);
      if gcodeBuffer[readPointer] != '"' {
        return false, [];
      }
      ok, str := InternalGetQuotedString(line);
    }

    method InternalGetQuotedString(ghost line: string) returns (ok: bool, str: string)
      requires Holds(line) && 0 <= readPointer < |line| && line[readPointer] == '"'
      modifies this`readPointer
      ensures Unquote(line, old(readPointer) + 1) == if ok then Some(str) else None
    {
      hide Unquote;
      readPointer := readPointer + 1;
      str := [];
      ghost var first := readPointer;
      assert forall i | 0 <= i <= |line| :: gcodeBuffer[i] == CharAt(line, i);
      UnquoteStarts(line, first);
      while true
        invariant 0 <= readPointer <= |line| && Unquote(line, first) == After(str, Unquote(line, readPointer))
        decreases |line| - readPointer
      {
        ghost var was := readPointer;
        UnquoteStep(line, was, str);
        var c := gcodeBuffer[readPointer];
        readPointer := readPointer + 1;
        if c < ' ' {
          return false, str;
        }
        if c == '"' {
          var following := gcodeBuffer[readPointer];
          readPointer := readPointer + 1;
          if following != '"' {
            return true, str;
          }
        } else if c == '\'' {
          if Alpha(gcodeBuffer[readPointer]) {
            c := Lower(gcodeBuffer[readPointer]);
            readPointer := readPointer + 1;
          } else if gcodeBuffer[readPointer] == c {
            readPointer := readPointer + 1;
          }
        }
        str := str + [c];
      }
    }
  }

  lemma {:induction false} ResendDecoded(gb: GCodeBuffer, n: nat, z: nat)
    requires gb.Valid() && gb.commandStart == 0
    requires var text := "M998 P" + Decimal(n);
      z == Min(|text|, gb.gcodeBuffer.Length - 1) && gb.gcodeBuffer[..z] == text[..z] && gb.gcodeBuffer[z] == NUL
    requires 0 < z ==>
      && gb.commandLetter == Upper(gb.gcodeBuffer[0]) && gb.commandNumber == CommandNumber(gb.gcodeBuffer[..z], 0)
      && gb.hasCommandNumber == HasNumber(gb.gcodeBuffer[..z], 0)
    ensures gb.Resending(n)
  {
    hide Decimal, CommandNumber, HasNumber, ParameterStart, CommandFraction;
    var text := "M998 P" + Decimal(n);
    if z >= 4 {
      assert text[..4] == "M998" && text[..z] == "M998" + text[4..z] && (z > 4 ==> text[4..z][0] == ' ');
      WordDecoded('M', false, 998, None, text[4..z]);
      Numeral998();
      assert ['M'] + [] + "998" + [] == "M998";
      assert gb.gcodeBuffer[0] == gb.gcodeBuffer[..z][0];
    }
  }

  lemma {:induction false} Numeral998()
    ensures Decimal(998) == "998"
  {
    assert Decimal(9) == "9" && Decimal(99) == "99";
  }

  lemma {:induction false} FeedDel(a: Line, size: nat, c: char)
    ensures c == DEL && a.state != Discarding ==> Feed(a.(text := [], state := Discarding), size, c) == Feed(a, size, c)
  {
  }

  lemma {:induction false} CodeFromAnywhere(a: Line, size: nat, c: char)
    ensures FeedCode(a.(state := Code), size, c) == FeedCode(a, size, c)
  {
    hide Xor;
  }

  function CharAt(line: string, i: nat): char { if i < |line| then line[i] else NUL }

  /** Some text, and then what follows it if that is complete. */
  function After(text: string, r: Option<string>): Option<string> { if r.Some? then Some(text + r.value) else None }

  lemma {:induction false} UnquoteStarts(line: string, i: nat)
    ensures Unquote(line, i) == After([], Unquote(line, i))
  {
    var r := Unquote(line, i);
    assert r.Some? ==> [] + r.value == r.value;
  }

  /** One step of reading a quoted string, for each kind of character. */
  lemma {:induction false} UnquoteStep(line: string, i: nat, str: string)
    requires i <= |line|
    ensures var c, d, r := CharAt(line, i), CharAt(line, i + 1), Unquote(line, i);
            if c < ' ' then After(str, r) == None
            else if c == '"'
            then After(str, r) == (if d == '"' then After(str + [c], Unquote(line, i + 2)) else Some(str))
            else if c == '\'' && Alpha(d) then After(str, r) == After(str + [Lower(d)], Unquote(line, i + 2))
            else if c == '\'' && d == c then After(str, r) == After(str + [c], Unquote(line, i + 2))
            else After(str, r) == After(str + [c], Unquote(line, i + 1))
  {
    assert str + [] == str;
    forall x: char, y: string ensures str + ([x] + y) == str + [x] + y {
    }
  }

  lemma {:induction false} NextIsSplit(line: string, start: nat)
    requires start < |line| && CommandEnd(line, start) < |line|
    ensures Splits(line, CommandEnd(line, start))
  {
  }

  lemma {:induction false} SeenStarts(line: string, start: nat)
    requires start < |line| && (start == 0 || Splits(line, start))
    ensures !Quoted(line, ParameterStart(line, start)) && ParameterStart(line, start) <= CommandEnd(line, start)
  {
    if CommandLetter(line[start]) {
      ScanStarts(line, start);
      assert forall j | start < j < ParameterStart(line, start) :: !Splits(line, j);
    }
  }

  /** How far the digits of a number have been read. */
  ghost predicate Counted(line: string, p: nat, q: nat, n: int) {
    && p <= q <= |line| && SkipDigits(line, p) == SkipDigits(line, q)
    && (forall k | p <= k < q :: Digit(line[k])) && n == Number(line, p, q)
  }

  lemma {:induction false} CountStarts(line: string, start: nat, p: nat)
    requires start < |line| && CommandLetter(line[start])
    requires p == if start + 1 < |line| && line[start + 1] == '-' then start + 2 else start + 1
    ensures p <= |line| && Counted(line, p, p, 0)
    ensures p == |line| || !Digit(line[p]) ==> ParameterStart(line, start) == p && CommandNumber(line, start) == -1
    ensures p == |line| || !Digit(line[p]) ==> !HasNumber(line, start) && CommandFraction(line, start) == -1
  {
  }

  lemma {:induction false} CountStep(line: string, p: nat, q: nat, n: int)
    requires Counted(line, p, q, n) && q < |line| && Digit(line[q])
    ensures Counted(line, p, q + 1, 10 * n + (line[q] - '0') as int)
  {
  }

  lemma {:induction false} CountEnds(line: string, start: nat, p: nat, q: nat, n: int)
    requires start < |line| && CommandLetter(line[start])
    requires p == if start + 1 < |line| && line[start + 1] == '-' then start + 2 else start + 1
    requires Counted(line, p, q, n) && p < q && (q == |line| || !Digit(line[q]))
    ensures CommandNumber(line, start) == if p == start + 2 then -n else n
    ensures HasNumber(line, start)
    ensures q + 1 < |line| && line[q] == '.' && Digit(line[q + 1]) ==>
      ParameterStart(line, start) == q + 2 && CommandFraction(line, start) == (line[q + 1] - '0') as int
    ensures q == |line| || line[q] != '.' ==> ParameterStart(line, start) == q && CommandFraction(line, start) == -1
    ensures q < |line| && line[q] == '.' && !(q + 1 < |line| && Digit(line[q + 1])) ==>
      ParameterStart(line, start) == q + 1 && CommandFraction(line, start) == -1
  {
    assert SkipDigits(line, q) == q;
  }

  lemma {:induction false} NoNumber(line: string, start: nat)
    requires start < |line| && !CommandLetter(line[start])
    ensures ParameterStart(line, start) == start && CommandNumber(line, start) == -1
    ensures !HasNumber(line, start) && CommandFraction(line, start) == -1
  {
  }

  /** How far the search for the end of a command has got. */
  ghost predicate Scanned(line: string, start: nat, e: nat, inQuotes: bool, primed: bool) {
    && start < e <= |line| && CommandLetter(line[start]) && inQuotes == Quoted(line, e)
    && (primed <==> Blank(line[e - 1]) && !inQuotes)
    && forall j | start < j < e :: !Splits(line, j)
  }

  lemma {:induction false} ScanStep(line: string, start: nat, e: nat, inQuotes: bool, primed: bool)
    requires Scanned(line, start, e, inQuotes, primed) && e < |line|
    ensures var c := line[e];
            if c == '"' then Scanned(line, start, e + 1, !inQuotes, false)
            else if inQuotes then Scanned(line, start, e + 1, inQuotes, primed)
            else if primed && (Upper(c) == 'G' || Upper(c) == 'M') then CommandEnd(line, start) == e
            else Scanned(line, start, e + 1, inQuotes, Blank(c))
  {
    assert Quoted(line, e + 1) == (Quoted(line, e) != (line[e] == '"'));
    assert Splits(line, e) <==> primed && (Upper(line[e]) == 'G' || Upper(line[e]) == 'M');
  }

  lemma {:induction false} ScanEnds(line: string, start: nat, e: nat, inQuotes: bool, primed: bool)
    requires Scanned(line, start, e, inQuotes, primed) && e >= |line|
    ensures CommandEnd(line, start) == e
  {
  }

  /** Nothing before the parameters is quoted, blank, or the start of another command. */
  lemma {:induction false} ScanStarts(line: string, start: nat)
    requires start < |line| && (start == 0 || Splits(line, start)) && CommandLetter(line[start])
    ensures Scanned(line, start, ParameterStart(line, start), false, false)
  {
    var p := ParameterStart(line, start);
    NumberUnquoted(line, start, p);
  }

  lemma {:induction false} NumberUnquoted(line: string, start: nat, p: nat)
    requires start < p <= |line| && !Quoted(line, start) && line[start] != '"'
    requires forall j | start < j < p :: Digit(line[j]) || line[j] == '-' || line[j] == '.'
    ensures !Quoted(line, p)
  {
    if p > start + 1 {
      NumberUnquoted(line, start, p - 1);
    }
  }

  function Rank(s: State): nat {
    match s
    case NotStarted => 3
    case LineNumber => 3
    case Whitespace => 2
    case Checksum => 2
    case Code => 1
    case _ => 0
  }

  // ---------------------------------------------------------------- whole lines

  /** Executes the commands of a line one by one. They are the commands of the line, in order. */
  method RunLine(gb: GCodeBuffer, ghost line: string) returns (commands: seq<string>)
    requires gb.Decoded(line) && gb.commandStart == 0 && gb.state == Ready
    modifies gb
    ensures commands == Commands(line, 0) && gb.Valid() && Starting(gb.View())
  {
    hide GCodeBuffer.Decoded, CommandEnd, Starting, Commands;
    commands := [];
    ghost var start := 0;
    LineGoes(gb, line);
    while gb.state == Ready
      invariant gb.Valid() && start <= |line| && commands + Commands(line, start) == Commands(line, 0)
      invariant start < |line| ==> gb.Decoded(line) && gb.commandStart == start && gb.state == Ready
      invariant start >= |line| ==> Starting(gb.View()) && gb.state == NotStarted
      decreases |line| - start
    {
      LineGoes(gb, line);
      var command := gb.gcodeBuffer[gb.commandStart..gb.commandEnd];
      ghost var end := gb.commandEnd;
      NextCommand(commands, line, start);
      gb.SetFinished(false, line);
      gb.SetFinished(true, line);
      commands := commands + [command];
      start := end;
      StartingState(gb);
    }
    NoMore(commands, line, start);
  }

  lemma {:induction false} LineGoes(gb: GCodeBuffer, line: string)
    requires gb.Decoded(line)
    ensures gb.Valid() && gb.commandStart < |line| && gb.commandEnd == CommandEnd(line, gb.commandStart)
    ensures gb.commandStart < gb.commandEnd <= |line| <= gb.gcodeBuffer.Length
    ensures gb.gcodeBuffer[gb.commandStart..gb.commandEnd] == line[gb.commandStart..gb.commandEnd]
  {
    assert gb.gcodeBuffer[..gb.gcodeLineEnd][gb.commandStart..gb.commandEnd]
        == gb.gcodeBuffer[gb.commandStart..gb.commandEnd];
  }

  lemma {:induction false} StartingState(gb: GCodeBuffer)
    requires gb.Valid()
    ensures Starting(gb.View()) ==> gb.state == NotStarted
  {
  }

  lemma {:induction false} NextCommand(commands: seq<string>, line: string, start: nat)
    requires start < |line| && commands + Commands(line, start) == Commands(line, 0)
    ensures var end := CommandEnd(line, start); commands + [line[start..end]] + Commands(line, end) == Commands(line, 0)
  {
    var end := CommandEnd(line, start);
    assert commands + ([line[start..end]] + Commands(line, end)) == commands + [line[start..end]] + Commands(line, end);
  }

  lemma {:induction false} NoMore(commands: seq<string>, line: string, start: nat)
    requires start == |line| && commands + Commands(line, start) == Commands(line, 0)
    ensures commands == Commands(line, 0)
  {
    assert commands + [] == commands;
  }

  /** Nothing in a text ends a line. */
  predicate Unended(text: string) {
    forall i | 0 <= i < |text| :: text[i] != NUL && text[i] != '\n' && text[i] != '\r'
  }

  /**
   * Reads a text into the buffer from the start, and ends the line if the text does not. If nothing in the text ends a
   * line, what is ready then is its first command, if the line is accepted, or a request to send the line again, if it
   * has a number and a wrong checksum; in all other cases it has been thrown away.
   */
  method PutText(gb: GCodeBuffer, text: string) returns (ready: bool, ghost a: Line)
    requires gb.Valid()
    modifies gb, gb.gcodeBuffer
    ensures gb.Valid() && Starting(a) && gb.checksumRequired == old(gb.checksumRequired) && gb.nested == old(gb.nested)
    ensures Unended(text) ==>
      var b := FeedAll(a, gb.gcodeBuffer.Length, text);
      && (ready <==> gb.Usable(b) || gb.Garbled(b)) && (!ready ==> Starting(gb.View()))
      && (gb.Usable(b) ==> gb.commandStart == 0 && gb.Decoded(b.text) && gb.state == Ready)
      && (gb.Garbled(b) ==> gb.Resending(b.lineNumber))
  {
    hide *;
    gb.Init();
    a := gb.View();
    ghost var size := gb.gcodeBuffer.Length;
    var i := 0;
    FedNone(a, size, text);
    while i < |text|
      invariant 0 <= i <= |text| && gb.Valid() && (Unended(text) ==> gb.View() == FeedAll(a, size, text[..i]))
      invariant gb.checksumRequired == old(gb.checksumRequired) && gb.nested == old(gb.nested)
    {
      GoesOn(text, i);
      FedOne(a, size, text, i);
      ready := gb.Put(text[i]);
      if ready {
        return;
      }
      i := i + 1;
    }
    assert text[..i] == text;
    ghost var b := gb.View();
    JudgedBy(gb, b);
    NumberOf(gb);
    ready := gb.Put('\n');
    JudgedBy(gb, b);
  }

  lemma {:induction false} GoesOn(text: string, i: nat)
    requires i < |text|
    ensures Unended(text) ==> text[i] != NUL && text[i] != '\n' && text[i] != '\r'
  {
  }

  /** Whether a line is accepted depends on little else. */
  lemma {:induction false} JudgedBy(gb: GCodeBuffer, b: Line)
    ensures gb.Usable(b) <==> Accepted(b, gb.gcodeBuffer.Length, gb.checksumRequired && !gb.nested)
    ensures gb.Garbled(b) <==> Refused(b, gb.gcodeBuffer.Length)
  {
  }

  lemma {:induction false} NumberOf(gb: GCodeBuffer)
    requires gb.Valid()
    ensures gb.View().lineNumber == gb.lineNumber
  {
  }

  /** Feeds a line to the buffer, and reads a parameter back. If the line is a command with a quoted string, it is
      decoded as that command, and what is read back is the string. */
  method ReadBack(gb: GCodeBuffer, line: string, letter: char, ghost w: string, ghost s: string)
    returns (ok: bool, str: string)
    requires line == QuotedLine(w, letter, s) && gb.Valid() && (!gb.checksumRequired || gb.nested)
    requires Word(w) && Alpha(letter) && Upper(letter) != 'G' && Upper(letter) != 'M' && Printable(s)
    requires |line| < gb.gcodeBuffer.Length
    modifies gb, gb.gcodeBuffer
    ensures ok && str == s && gb.Decoded(line) && gb.commandStart == 0 && gb.commandEnd == |line|
  {
    hide *;
    ghost var a;
    var ready;
    ready, a := PutText(gb, line);
    QuotedText(w, letter, s);
    FeedLine(a, gb.gcodeBuffer.Length, w, letter, s);
    QuotedUsable(gb, a, line);
    DecodedLine(gb, w, letter, s);
    var found := gb.Seen(Upper(letter), line);
    ok, str := gb.GetQuotedString(line);
  }

  lemma {:induction false} FedNone(a: Line, size: nat, line: string)
    ensures a == FeedAll(a, size, line[..0])
  {
  }

  lemma {:induction false} FedOne(a: Line, size: nat, line: string, i: nat)
    requires i < |line|
    ensures FeedAll(a, size, line[..i + 1]) == Feed(FeedAll(a, size, line[..i]), size, line[i])
  {
    assert line[..i + 1][..i] == line[..i];
  }

  lemma {:induction false} QuotedText(w: string, letter: char, s: string)
    requires Word(w) && Alpha(letter) && Printable(s)
    ensures Unended(QuotedLine(w, letter, s)) && |QuotedLine(w, letter, s)| > 3
  {
    DoubledPrintable(s);
  }

  lemma {:induction false} DoubledPrintable(s: string)
    requires Printable(s)
    ensures Printable(Doubled(s))
  {
    if s != [] {
      DoubledPrintable(s[1..]);
    }
  }

  lemma {:induction false} QuotedUsable(gb: GCodeBuffer, a: Line, line: string)
    requires Starting(a) && (!gb.checksumRequired || gb.nested) && 0 < |line| < gb.gcodeBuffer.Length
    requires Grown(a, FeedAll(a, gb.gcodeBuffer.Length, line), line, Code)
    ensures var b := FeedAll(a, gb.gcodeBuffer.Length, line); gb.Usable(b) && b.text == line
  {
    hide FeedAll;
  }

  lemma {:induction false} DecodedLine(gb: GCodeBuffer, w: string, letter: char, s: string)
    requires gb.Decoded(QuotedLine(w, letter, s)) && gb.commandStart == 0
    requires Word(w) && Alpha(letter) && Upper(letter) != 'G' && Upper(letter) != 'M' && Printable(s)
    ensures var line := QuotedLine(w, letter, s);
            && gb.parameterStart <= gb.commandEnd == |line|
            && SeenAt(line, gb.parameterStart, gb.commandEnd, Upper(letter)) == Some(|w| + 1) && |w| + 3 <= |line|
            && gb.Holds(line) && line[|w| + 2] == '"' && Unquote(line, |w| + 3) == Some(s)
  {
    var line := QuotedLine(w, letter, s);
    assert line[0] == w[0] && line[|w|] == ' ';
    LineIsOneCommand(w, letter, s, gb.parameterStart);
  }
}
