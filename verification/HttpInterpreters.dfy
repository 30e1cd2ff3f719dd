/** The parser of HTTP requests in its buffers. */
module HttpInterpreters {
  import opened Basics
  import opened Options
  import opened HttpQueries

  const WEB_MESSAGE_LENGTH := 1460

  class HttpInterpreter {
    const clientMessage: array<char>
    const commandWords: array<nat>
    const qualifierKeys: array<nat>    // one more than the number of pairs, so that values can contain nulls
    const qualifierValues: array<nat>
    var clientPointer: nat
    var state: State
    var decodeChar: nat
    var numCommandWords: nat
    var numQualKeys: nat
    ghost var keyCount: nat            // how many key pointers are in use

    ghost predicate Valid()
      reads this
    {
      && clientPointer <= clientMessage.Length && commandWords.Length == MAX_COMMAND_WORDS
      && qualifierKeys.Length == MAX_QUAL_KEYS + 1 && qualifierValues.Length == MAX_QUAL_KEYS + 1
      && commandWords != qualifierKeys && commandWords != qualifierValues && qualifierKeys != qualifierValues
      && numQualKeys <= MAX_QUAL_KEYS && keyCount <= MAX_QUAL_KEYS + 1
      && (state == QualifierKey ==> numQualKeys < MAX_QUAL_KEYS && keyCount == numQualKeys + 1)
      && (state == QualifierValue || state == QualifierValueEsc1 || state == QualifierValueEsc2 ==>
            keyCount == numQualKeys)
    }

    ghost function View(): Request
      requires Valid()
      reads this, clientMessage, commandWords, qualifierKeys, qualifierValues
    {
      Request(state, clientMessage[..clientPointer], numCommandWords, commandWords[..], qualifierKeys[..keyCount],
              qualifierValues[..numQualKeys], decodeChar)
    }

    constructor ()
      ensures Valid() && HttpQueries.Fresh(View()) && clientPointer == 0
      ensures clientMessage.Length == WEB_MESSAGE_LENGTH + 3
      ensures fresh(clientMessage) && fresh(commandWords) && fresh(qualifierKeys) && fresh(qualifierValues)
    {
      clientMessage := new char[WEB_MESSAGE_LENGTH + 3];
      commandWords := new nat[MAX_COMMAND_WORDS];
      qualifierKeys := new nat[MAX_QUAL_KEYS + 1];
      qualifierValues := new nat[MAX_QUAL_KEYS + 1];
      decodeChar := 0;
      new;
      ResetState();
    }

    method ResetState()
      modifies this, commandWords
      requires clientMessage.Length > 0 && commandWords.Length == MAX_COMMAND_WORDS
      requires qualifierKeys.Length == MAX_QUAL_KEYS + 1 && qualifierValues.Length == MAX_QUAL_KEYS + 1
      requires commandWords != qualifierKeys && commandWords != qualifierValues && qualifierKeys != qualifierValues
      ensures Valid() && HttpQueries.Fresh(View()) && clientPointer == 0
    {
      clientPointer := 0;
      state := CommandWord;
      numCommandWords := 0;
      numQualKeys := 0;
      keyCount := 0;
      commandWords[0] := 0;
    }

    /** Stores a character. */
    method Keep(c: char)
      requires Valid() && clientPointer < clientMessage.Length
      modifies this`clientPointer, clientMessage
      ensures Valid() && View() == Store(old(View()), c)
    {
      clientMessage[clientPointer] := c;
      clientPointer := clientPointer + 1;
      assert clientMessage[..clientPointer] == old(clientMessage[..clientPointer]) + [c];
    }

    /** The fields that a step depends on. */
    lemma {:induction false} ViewIs()
      requires Valid()
      ensures View().state == state && View().words == numCommandWords && View().high == decodeChar
      ensures |View().values| == numQualKeys && |View().message| == clientPointer
      ensures |View().starts| == MAX_COMMAND_WORDS
    {
    }

    /** Goes on in another state that is about the same part of the request. */
    method GoTo(next: State)
      requires Valid() && next != QualifierKey
      requires next == QualifierValue || next == QualifierValueEsc1 || next == QualifierValueEsc2 ==>
        keyCount == numQualKeys
      modifies this`state
      ensures Valid() && View() == old(View()).(state := next)
    {
      state := next;
    }

    /** Ends the first line in a word or in the filename, in which case there is no query. */
    method FinishLine()
      requires Valid() && clientPointer < clientMessage.Length && (state == CommandWord || state == Filename)
      modifies this`clientPointer, this`state, this`numCommandWords, this`numQualKeys, this`keyCount, clientMessage
      ensures Valid()
      ensures old(state) == CommandWord ==> View() == EndLine(old(View())).(words := old(View()).words + 1)
      ensures old(state) == Filename ==>
        View() == EndLine(old(View())).(words := old(View()).words + 1, keys := [], values := [])
    {
      Keep(NUL);
      numCommandWords := numCommandWords + 1;
      if state == Filename {
        numQualKeys, keyCount := 0, 0;
      }
      state := HeaderKey;
    }

    /** Ends the query, and notes where the next word starts. */
    method FinishQuery()
      requires Valid() && clientPointer < clientMessage.Length && state == QualifierValue
      requires numCommandWords < MAX_COMMAND_WORDS
      modifies this`clientPointer, this`keyCount, this`state, clientMessage, qualifierKeys, commandWords
      ensures Valid()
      ensures View() ==
        EndValue(old(View())).(starts := old(View()).starts[old(View()).words := |old(View()).message| + 1],
                                               state := CommandWord)
    {
      FinishValue(CommandWord);
      ghost var v := View();
      commandWords[numCommandWords] := clientPointer;
      assert commandWords[..] == v.starts[numCommandWords := clientPointer];
      assert clientMessage[..clientPointer] == v.message;
      assert qualifierKeys[..keyCount] == v.keys && qualifierValues[..numQualKeys] == v.values;
    }

    /** Ends a value and notes where the next key would start. */
    method FinishValue(next: State)
      requires Valid() && clientPointer < clientMessage.Length && state == QualifierValue
      requires next == HeaderKey || next == CommandWord || (next == QualifierKey && numQualKeys < MAX_QUAL_KEYS)
      modifies this`clientPointer, this`keyCount, this`state, clientMessage, qualifierKeys
      ensures Valid() && View() == EndValue(old(View())).(state := next)
    {
      Keep(NUL);
      qualifierKeys[numQualKeys] := clientPointer;
      keyCount := numQualKeys + 1;
      state := next;
      assert qualifierKeys[..keyCount] == old(qualifierKeys[..keyCount]) + [clientPointer];
      assert clientMessage[..clientPointer] == old(clientMessage[..clientPointer]) + [NUL];
      assert qualifierValues[..numQualKeys] == old(qualifierValues[..numQualKeys]);
      assert commandWords[..] == old(commandWords[..]);
    }

    /** Ends a command word and notes where the next one starts. */
    method StartWord(next: State)
      requires Valid() && clientPointer < clientMessage.Length && numCommandWords + 1 < MAX_COMMAND_WORDS
      requires (state == CommandWord || state == Filename)
      requires next == CommandWord || next == Filename
      modifies this`clientPointer, this`state, this`numCommandWords, clientMessage, commandWords
      ensures Valid() && View() == NextWord(old(View()), next)
    {
      Keep(NUL);
      numCommandWords := numCommandWords + 1;
      commandWords[numCommandWords] := clientPointer;
      assert commandWords[..] == old(commandWords[..])[numCommandWords := clientPointer];
      state := next;
      assert clientMessage[..clientPointer] == old(clientMessage[..clientPointer]) + [NUL];
      assert qualifierKeys[..keyCount] == old(qualifierKeys[..keyCount]);
      assert qualifierValues[..numQualKeys] == old(qualifierValues[..numQualKeys]);
    }

    /** Ends the filename; a key comes next. */
    method StartQuery()
      requires Valid() && clientPointer < clientMessage.Length && state == Filename
      modifies this`clientPointer, this`state, this`numCommandWords, this`numQualKeys, this`keyCount, clientMessage
      modifies qualifierKeys
      ensures Valid()
      ensures View() == Store(old(View()), NUL).(words := old(View()).words + 1, keys := [clientPointer], values := [],
                                                 state := QualifierKey)
      ensures clientPointer == old(clientPointer) + 1
    {
      Keep(NUL);
      numCommandWords := numCommandWords + 1;
      numQualKeys := 0;
      qualifierKeys[0] := clientPointer;
      keyCount := 1;
      assert qualifierKeys[..keyCount] == [clientPointer];
      assert clientMessage[..clientPointer] == old(clientMessage[..clientPointer]) + [NUL];
      assert commandWords[..] == old(commandWords[..]);
      state := QualifierKey;
    }

    method DoCommandWord(c: char) returns (ok: bool)
      requires Valid() && clientPointer < clientMessage.Length && state == CommandWord && Bounded(View(), c)
      modifies this`clientPointer, this`state, this`numCommandWords, this`numQualKeys, this`keyCount
      modifies clientMessage, commandWords
      ensures Valid() && StepWord(old(View()), c) == if ok then Some(View()) else None
    {
      hide View;
      ViewIs();
      ok := true;
      if c == '\n' {
        FinishLine();
      } else if c == '\r' {
      } else if c == ' ' || c == '\t' {
        if numCommandWords < MAX_COMMAND_WORDS {
          StartWord(if numCommandWords == 0 then Filename else CommandWord);
        } else {
          ok := false;
        }
      } else {
        Keep(c);
      }
    }

    method DoFilename(c: char) returns (ok: bool)
      requires Valid() && clientPointer < clientMessage.Length && state == Filename && Bounded(View(), c)
      modifies this`clientPointer, this`state, this`numCommandWords, this`numQualKeys, this`keyCount, clientMessage
      modifies commandWords, qualifierKeys
      ensures Valid() && StepFile(old(View()), c) == if ok then Some(View()) else None
    {
      hide View;
      ViewIs();
      ok := true;
      if c == '\n' {
        FinishLine();
      } else if c == '?' {
        StartQuery();
      } else if c == '%' {
        GoTo(FilenameEsc1);
      } else if c == '\r' {
      } else if c == ' ' || c == '\t' {
        if numCommandWords < MAX_COMMAND_WORDS {
          StartWord(CommandWord);
        } else {
          ok := false;
        }
      } else {
        Keep(c);
      }
    }

    method DoQualifierKey(c: char) returns (ok: bool)
      requires Valid() && clientPointer < clientMessage.Length && state == QualifierKey
      modifies this`clientPointer, this`state, this`numQualKeys, clientMessage, qualifierValues
      ensures Valid() && StepKey(old(View()), c) == if ok then Some(View()) else None
    {
      ok := true;
      if c == '=' {
        Keep(NUL);
        qualifierValues[numQualKeys] := clientPointer;
        numQualKeys := numQualKeys + 1;
        assert qualifierValues[..numQualKeys] == old(qualifierValues[..numQualKeys]) + [clientPointer];
        assert clientMessage[..clientPointer] == old(clientMessage[..clientPointer]) + [NUL];
        assert qualifierKeys[..keyCount] == old(qualifierKeys[..keyCount]) && commandWords[..] == old(commandWords[..]);
        state := QualifierValue;
      } else if c == '\n' || c == ' ' || c == '\t' || c == '\r' || c == '%' || c == '&' {
        ok := false;
      } else {
        Keep(c);
      }
    }

    method DoQualifierValue(c: char) returns (ok: bool)
      requires Valid() && clientPointer < clientMessage.Length && state == QualifierValue && Bounded(View(), c)
      modifies this`clientPointer, this`state, this`keyCount, clientMessage, commandWords, qualifierKeys
      ensures Valid() && StepValue(old(View()), c) == if ok then Some(View()) else None
    {
      hide View;
      ViewIs();
      ok := true;
      if c == '\n' {
        FinishValue(HeaderKey);
      } else if c == ' ' || c == '\t' {
        FinishQuery();
      } else if c == '\r' {
      } else if c == '%' {
        GoTo(QualifierValueEsc1);
      } else if c == '&' {
        if numQualKeys < MAX_QUAL_KEYS {
          FinishValue(QualifierKey);
        } else {
          ok := false;
        }
      } else if c == '+' {
        Keep(' ');
      } else {
        Keep(c);
      }
    }

    method DoEscape1(c: char) returns (ok: bool)
      requires Valid() && (state == FilenameEsc1 || state == QualifierValueEsc1)
      modifies this`state, this`decodeChar
      ensures Valid() && (if ok then Some(View()) else None) ==
        StepEsc1(old(View()), c, if old(state) == FilenameEsc1 then FilenameEsc2 else QualifierValueEsc2)
    {
      ok := true;
      if '0' <= c <= '9' {
        decodeChar := 16 * (c - '0') as int;
      } else if 'A' <= c <= 'F' {
        decodeChar := 16 * ((c - 'A') as int + 10);
      } else {
        return false;
      }
      state := if state == FilenameEsc1 then FilenameEsc2 else QualifierValueEsc2;
    }

    method DoEscape2(c: char) returns (ok: bool)
      requires Valid() && clientPointer < clientMessage.Length && (state == FilenameEsc2 || state == QualifierValueEsc2)
      modifies this`clientPointer, this`state, clientMessage
      ensures Valid() && (if ok then Some(View()) else None) ==
        StepEsc2(old(View()), c, if old(state) == FilenameEsc2 then Filename else QualifierValue)
    {
      hide View, Store;
      ViewIs();
      ok := true;
      if '0' <= c <= '9' {
        Keep(((decodeChar + (c - '0') as int) % 256) as char);
      } else if 'A' <= c <= 'F' {
        Keep(((decodeChar + ((c - 'A') as int + 10)) % 256) as char);
      } else {
        return false;
      }
      GoTo(if state == FilenameEsc2 then Filename else QualifierValue);
    }

    /** Takes one character of the first line of a request. The result says whether the request was rejected. */
    method CharFromClient(c: char) returns (rejected: bool)
      requires Valid() && clientPointer < clientMessage.Length && Bounded(View(), c)
      modifies this, clientMessage, commandWords, qualifierKeys, qualifierValues
      ensures Valid() && clientPointer < clientMessage.Length
      ensures Step(old(View()), clientMessage.Length, c) == None ==> rejected && HttpQueries.Fresh(View())
      ensures Step(old(View()), clientMessage.Length, c).Some? ==>
        !rejected && Step(old(View()), clientMessage.Length, c) == Some(View())
    {
      hide StepWord, StepFile, StepKey, StepValue, StepEsc1, StepEsc2, HttpQueries.Fresh;
      var ok;
      match state {
        case CommandWord => ok := DoCommandWord(c);
        case Filename => ok := DoFilename(c);
        case QualifierKey => ok := DoQualifierKey(c);
        case QualifierValue => ok := DoQualifierValue(c);
        case FilenameEsc1 => ok := DoEscape1(c);
        case QualifierValueEsc1 => ok := DoEscape1(c);
        case FilenameEsc2 => ok := DoEscape2(c);
        case QualifierValueEsc2 => ok := DoEscape2(c);
      }
      if !ok || clientPointer == clientMessage.Length {
        ResetState();
        return true;
      }
      rejected := false;
    }

    /** Whether a terminated string in the message is a given text. */
    method StringEquals(start: nat, key: string) returns (same: bool)
      requires Valid() && start <= clientPointer
      ensures same <==> CString(clientMessage[..clientPointer], start) == key
    {
      ghost var message := clientMessage[..clientPointer];
      var i := 0;
      assert key[0..] == key;
      while start + i < clientPointer && clientMessage[start + i] != NUL
        invariant i <= |key| && start + i <= clientPointer
        invariant (CString(message, start) == key <==> CString(message, start + i) == key[i..])
        decreases clientPointer - i
      {
        if i == |key| || clientMessage[start + i] != key[i] {
          return false;
        }
        assert key[i..] == [key[i]] + key[i + 1..];
        i := i + 1;
      }
      same := i == |key|;
    }

    /** Where the value of a key starts, if the query has that key. */
    method GetKeyValue(key: string) returns (value: Option<nat>)
      requires Valid() && numQualKeys <= keyCount
      requires forall i | 0 <= i < numQualKeys :: qualifierKeys[i] <= clientPointer
      ensures value == Lookup(View(), key, 0)
    {
      var i := 0;
      while i < numQualKeys
        invariant i <= numQualKeys && Lookup(View(), key, 0) == Lookup(View(), key, i)
      {
        var same := StringEquals(qualifierKeys[i], key);
        if same {
          return Some(qualifierValues[i]);
        }
        i := i + 1;
      }
      value := None;
    }
  }

  /** Feeds a request line with a query to the parser. It is accepted, and the parser has found exactly its pairs. */
  method ReadRequest(http: HttpInterpreter, verb: string, file: seq<Unit>, pairs: seq<Pair>, version: string)
    requires http.Valid() && http.clientPointer == 0 && HttpQueries.Fresh(http.View())
    requires PlainWord(verb) && FileName(file) && GoodPairs(pairs) && |pairs| <= MAX_QUAL_KEYS && PlainWord(version)
    requires LineSize(verb, file, pairs, version) < http.clientMessage.Length
    modifies http, http.clientMessage, http.commandWords, http.qualifierKeys, http.qualifierValues
    ensures http.Valid() && Understood(http.View(), verb, file, pairs)
  {
    hide *;
    ghost var r, size := http.View(), http.clientMessage.Length;
    var line := RequestLine(verb, file, pairs, version);
    QueryRoundTrip(r, size, verb, file, pairs, version);
    var i := 0;
    ParsedNone(http, r, size, line);
    while i < |line|
      invariant i <= |line| && http.Valid() && Parsed(http.View(), r, size, line, i) && http.clientPointer < size
    {
      ParsedNext(http.View(), r, size, line, i);
      var rejected := http.CharFromClient(line[i]);
      i := i + 1;
    }
    ParsedAll(http.View(), r, size, line);
  }

  /** So much of a line that will be accepted has been read. */
  ghost predicate Parsed(m: Request, r: Request, size: nat, line: string, i: nat) {
    i <= |line| && Parse(r, size, line).Some? && Parse(m, size, line[i..]) == Parse(r, size, line)
  }

  lemma {:induction false} ParsedNone(http: HttpInterpreter, r: Request, size: nat, line: string)
    requires http.Valid() && http.clientPointer == 0 && http.View() == r && Parse(r, size, line).Some?
    requires size == http.clientMessage.Length
    ensures Parsed(r, r, size, line, 0)
  {
    assert line[0..] == line;
  }

  lemma {:induction false} ParsedNext(m: Request, r: Request, size: nat, line: string, i: nat)
    requires i < |line| && Parsed(m, r, size, line, i)
    ensures Bounded(m, line[i]) && Step(m, size, line[i]).Some?
    ensures Parsed(Step(m, size, line[i]).value, r, size, line, i + 1)
  {
    hide Step, Bounded;
    assert line[i..][0] == line[i] && line[i..][1..] == line[i + 1..];
  }

  lemma {:induction false} ParsedAll(m: Request, r: Request, size: nat, line: string)
    requires Parsed(m, r, size, line, |line|)
    ensures Parse(r, size, line) == Some(m)
  {
    assert line[|line|..] == [];
  }
}
