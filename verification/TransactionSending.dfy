/** Sending: one window at a time, taking turns between the connections. */
module TransactionSending {
  import opened Basics
  import opened Options
  import opened Transactions
  import opened TransactionFlow
  import opened NetworkQueues
  import opened TransactionSteps

  // ---------------------------------------------------------------- filling the window

  function Count(stack: seq<seq<seq<char>>>): nat { if stack == [] then 0 else |stack[0]| + Count(stack[1..]) }

  /** A transaction with stacked chains has one to send. */
  ghost predicate Popped(t: T)
    reads t`sendBuffer, t`sendStack
  {
    (t.sendBuffer == [] ==> t.sendStack == []) && forall i | 0 <= i < |t.sendStack| :: t.sendStack[i] != []
  }

  ghost function Remaining(t: T): seq<char>
    reads t`sendBuffer, t`sendStack, t`fileBeingSent
  {
    OutputOf(t.sendBuffer, t.sendStack, t.fileBeingSent)
  }

  /** Takes up to a window full of output. */
  method FillWindow(t: NetworkTransaction) returns (window: seq<char>)
    requires Popped(t)
    modifies t`sendBuffer, t`sendStack, t`fileBeingSent
    ensures window + Remaining(t) == old(Remaining(t)) && |window| <= TCP_WND && Popped(t)
    ensures window == [] ==> t.sendBuffer == [] && t.sendStack == [] && Remaining(t) == []
    ensures Remaining(t) == [] || |window| + 4 > TCP_WND
  {
    hide OutputOf;
    window := [];
    while t.sendBuffer != [] && |window| < TCP_WND
      invariant window + Remaining(t) == old(Remaining(t)) && |window| <= TCP_WND && Popped(t)
      decreases |t.sendBuffer| + Count(t.sendStack), TCP_WND - |window|
    {
      var first, rest, left := t.sendBuffer[0], t.sendBuffer[1..], TCP_WND - |window|;
      var copyLength := if |first| < left then |first| else left;
      BufferTakes(first, rest, copyLength, t.sendStack, t.fileBeingSent);
      assert t.sendBuffer == [first] + rest;
      JoinAssoc(window, first[..copyLength], OutputOf([first[copyLength..]] + rest, t.sendStack, t.fileBeingSent));
      window := window + first[..copyLength];
      if copyLength == |first| {
        t.sendBuffer := rest;
        if rest == [] && t.sendStack != [] {
          PopKeeps(t.sendStack, t.fileBeingSent);
          t.sendBuffer, t.sendStack := t.sendStack[0], t.sendStack[1..];
        }
      } else {
        t.sendBuffer := [first[copyLength..]] + rest;
      }
    }
    if t.sendBuffer == [] && |window| < TCP_WND && t.fileBeingSent.Some? {
      var file, left := t.fileBeingSent.value, TCP_WND - |window|;
      var bytesToRead := left - left % 4;
      if bytesToRead != 0 {
        var bytesRead := if |file| < bytesToRead then |file| else bytesToRead;
        FileTakes(file, bytesRead);
        JoinAssoc(window, file[..bytesRead], file[bytesRead..]);
        window := window + file[..bytesRead];
        t.fileBeingSent := if bytesRead != bytesToRead then None else Some(file[bytesRead..]);
      }
    }
    OnlyFile(t.fileBeingSent);
  }

  lemma {:induction false} JoinAssoc(a: seq<char>, b: seq<char>, c: seq<char>)
    ensures a + (b + c) == a + b + c
  {
  }

  lemma {:induction false} BufferTakes(first: seq<char>, rest: seq<seq<char>>, k: nat, stack: seq<seq<seq<char>>>,
                                       file: Option<seq<char>>)
    requires k <= |first|
    ensures OutputOf([first] + rest, stack, file) == first[..k] + OutputOf([first[k..]] + rest, stack, file)
    ensures k == |first| ==> OutputOf([first[k..]] + rest, stack, file) == OutputOf(rest, stack, file)
  {
    ChainTakes(first, rest);
    ChainTakes(first[k..], rest);
    assert first == first[..k] + first[k..];
    var s, f := StackBytes(stack), FileBytes(file);
    assert first + ChainBytes(rest) + s + f == first[..k] + (first[k..] + ChainBytes(rest) + s + f);
    assert k == |first| ==> first[k..] + ChainBytes(rest) == ChainBytes(rest);
  }

  lemma {:induction false} ChainTakes(first: seq<char>, rest: seq<seq<char>>)
    ensures ChainBytes([first] + rest) == first + ChainBytes(rest)
  {
    assert ([first] + rest)[1..] == rest;
  }

  lemma {:induction false} FileTakes(file: seq<char>, k: nat)
    requires k <= |file|
    ensures OutputOf([], [], Some(file)) == file[..k] + file[k..]
    ensures OutputOf([], [], Some(file[k..])) == file[k..]
    ensures k == |file| ==> OutputOf([], [], None) == file[k..]
  {
  }

  lemma {:induction false} OnlyFile(file: Option<seq<char>>)
    ensures OutputOf([], [], file) == FileBytes(file)
  {
  }

  // ---------------------------------------------------------------- one turn of the sender

  ghost predicate MaySend(n: Net) { n.window == None && n.writing != [] }

  /** A sender about to close a connection finds the announcement of its end already dealt with. */
  ghost predicate Unannounced(n: Net) {
    MaySend(n) ==>
      var m := Rotate(n);
      m.writing != [] && m.writing[0] in m.owner && (m.writing[0] in m.closing ==> NoGoodbye(m, m.owner[m.writing[0]]))
  }

  /** The output of the transaction whose turn is next. */
  ghost function HeadOutput(n: Net): seq<char> {
    var m := Rotate(n);
    if m.writing != [] && m.writing[0] in m.pending then m.pending[m.writing[0]] else []
  }

  /** It has been asked to close its connection. */
  ghost predicate HeadCloses(n: Net) {
    var m := Rotate(n); m.writing != [] && m.writing[0] in m.closing
  }

  /** If the last window has been acknowledged, the next transaction in turn gets one. */
  method Spin(w: Network) returns (written: seq<char>)
    requires w.Repr() && Good(w.net) && Unannounced(w.net)
    modifies w`freeTransactions, w`readyTransactions, w`writingTransactions, w`sendingConnection, w`sentDataOutstanding
    modifies w`net, w.net.place.Keys, w.net.queue.Keys
    ensures w.Repr() && Good(w.net) && Gone(old(w.net.queue.Keys), w.net)
    ensures !MaySend(old(w.net)) ==> w.net == old(w.net) && written == []
    ensures MaySend(old(w.net)) ==>
      Enabled(old(w.net), SendOne(|written|)) && w.net == Next(old(w.net), SendOne(|written|))
    ensures MaySend(old(w.net)) ==> written <= HeadOutput(old(w.net))
    ensures MaySend(old(w.net)) && !HeadCloses(old(w.net)) ==>
      written == HeadOutput(old(w.net)) || |written| + 4 > TCP_WND
  {
    hide *;
    ghost var n := w.net;
    written := [];
    ReprParts(w);
    Idle(n, w.freeTransactions, w.readyTransactions, w.writingTransactions, w.sendingConnection, w.sentDataOutstanding);
    if w.writingTransactions == null || w.sendingConnection != null {
      NoneGone(n.queue.Keys, n);
      return;
    }
    RotateWriting(w);
    RotatedFacts(n);
    written := Send(w);
    SentIs(n, |written|);
  }

  lemma {:induction false} Idle(n: Net, free: NetworkTransaction?, ready: NetworkTransaction?,
                                writing: NetworkTransaction?, sending: ConnectionState?, outstanding: nat)
    requires Lists(free, ready, writing, n) && WindowMatches(sending, outstanding, n)
    ensures MaySend(n) <==> writing != null && sending == null
    ensures MaySend(n) ==> n.writing != []
  {
  }

  /** The first of several writing transactions goes to the end. */
  method RotateWriting(w: Network)
    requires w.Repr() && w.net.writing != []
    modifies w`writingTransactions, w`net, w.net.place.Keys`next
    ensures w.Repr() && w.net == Rotate(old(w.net))
  {
    hide *;
    ghost var n := w.net;
    ReprParts(w);
    RotateList(w);
    w.net := Rotate(n);
    RotateParts(n);
    WindowSame(w.sendingConnection, w.sentDataOutstanding, n, w.net);
    ReprFrom(w);
  }

  method RotateList(w: Network)
    requires Lists(w.freeTransactions, w.readyTransactions, w.writingTransactions, w.net) && Inside(w.net)
    requires w.net.writing != []
    modifies w`writingTransactions, w.net.place.Keys`next
    ensures Lists(w.freeTransactions, w.readyTransactions, w.writingTransactions, Rotate(w.net))
  {
    hide List;
    InsideWriting(w.net);
    ListPops(w.writingTransactions, w.net.writing);
    ListTidy(w.writingTransactions, w.net.writing);
    var transaction := w.writingTransactions;
    NextIs(transaction, w.net.writing);
    if transaction.next != null {
      ghost var rest := w.net.writing[1..];
      assert forall i | 0 <= i < |rest| :: rest[i] == w.net.writing[i + 1];
      w.writingTransactions := transaction.next;
      w.writingTransactions := AppendTransaction(w.writingTransactions, transaction, rest);
    }
  }

  lemma {:induction false} NextIs(head: NetworkTransaction, items: seq<T>)
    requires List(head, items)
    ensures head.next == null <==> |items| < 2
  {
  }

  lemma {:induction false} RotateParts(n: Net)
    requires AllMatch(n) && AllServe(n) && Inside(n)
    ensures var m := Rotate(n);
      AllMatch(m) && AllServe(m) && Inside(m) && m.window == n.window && m.outstanding == n.outstanding
  {
    hide Matches, Serves;
    var m := Rotate(n);
    if |n.writing| >= 2 {
      assert n.writing[0] in n.writing;
      forall x | x in m.place ensures Matches(m, x) {
        MatchesAgree(n, m, x);
      }
      AllServeSame(n, m);
    }
  }

  lemma {:induction false} RotatedFacts(n: Net)
    requires Good(n) && MaySend(n) && Unannounced(n)
    ensures var m := Rotate(n);
            && Good(m) && m.writing != [] && HeadReady(m) && m.window == None && m.place == n.place
            && m.queue == n.queue
            && (m.writing[0] in m.closing ==> NoGoodbye(m, m.owner[m.writing[0]]))
  {
    hide Good;
    RotateGood(n);
    HeadIsReady(Rotate(n));
  }

  /** When sending for the head of the writing list may put k bytes into the window. */
  ghost predicate Sends(n: Net, k: nat)
    requires HeadReady(n)
  {
    var t := n.writing[0];
    if t in n.closing then k == 0 && NoGoodbye(n, n.owner[t])
    else k <= TCP_WND && k <= |n.pending[t]| && (k == 0 ==> n.pending[t] == [])
  }

  lemma {:induction false} SentIs(n: Net, k: nat)
    requires Good(n) && MaySend(n) && HeadReady(Rotate(n)) && Sends(Rotate(n), k)
    requires k <= |Rotate(n).pending[Rotate(n).writing[0]]|
    requires Good(SendHead(Rotate(n), k))
    ensures Enabled(n, SendOne(k)) && Next(n, SendOne(k)) == SendHead(Rotate(n), k) && Good(Next(n, SendOne(k)))
    ensures Rotate(n).pending[Rotate(n).writing[0]][..k] <= HeadOutput(n)
    ensures HeadOutput(n) == Rotate(n).pending[Rotate(n).writing[0]]
    ensures HeadCloses(n) <==> Rotate(n).writing[0] in Rotate(n).closing
  {
    hide Good, SendHead, Rotate, HeadReady, NoGoodbye, HeadOutput;
    SendableIs(n, k);
    HeadReadyIs(Rotate(n));
    EachStepIs(n, SendOne(k));
  }

  lemma {:induction false} SendableIs(n: Net, k: nat)
    requires MaySend(n) && HeadReady(Rotate(n)) && Sends(Rotate(n), k)
    requires k <= |Rotate(n).pending[Rotate(n).writing[0]]|
    ensures Enabled(n, SendOne(k)) && Rotate(n).pending[Rotate(n).writing[0]][..k] <= HeadOutput(n)
    ensures HeadOutput(n) == Rotate(n).pending[Rotate(n).writing[0]]
  {
  }

  /** Fills the window for the head of the writing list. Closes its connection if that was requested, requests it if
      all has been sent and nothing follows, and otherwise passes the turn to the next transaction of the connection. */
  method Send(w: Network) returns (written: seq<char>)
    requires w.Repr() && Good(w.net) && w.net.window == None && HeadReady(w.net)
    requires w.net.writing[0] in w.net.closing ==> NoGoodbye(w.net, w.net.owner[w.net.writing[0]])
    modifies w`freeTransactions, w`readyTransactions, w`writingTransactions, w`sendingConnection, w`sentDataOutstanding
    modifies w`net, w.net.place.Keys, w.net.queue.Keys
    ensures w.Repr() && Sends(old(w.net), |written|) && |written| <= |old(w.net).pending[old(w.net).writing[0]]|
    ensures w.net == SendHead(old(w.net), |written|) && Good(w.net) && Gone(old(w.net.queue.Keys), w.net)
    ensures written == old(w.net).pending[old(w.net).writing[0]][..|written|]
    ensures old(w.net).writing[0] !in old(w.net).closing ==>
      |written| == |old(w.net).pending[old(w.net).writing[0]]| || |written| + 4 > TCP_WND
  {
    hide *;
    ghost var n := w.net;
    ReprParts(w);
    HeadFacts(n, w.freeTransactions, w.readyTransactions, w.writingTransactions);
    var transaction := w.writingTransactions;
    var c := transaction.cs;
    if transaction.closeRequested {
      ClosingFacts(n);
      ClosedKeys(n, c);
      w.ConnectionClosed(c);
      OneGone(n.queue.Keys, w.net, c);
      return [];
    }
    written := SendWindow(w, transaction, c);
    SentKeys(n, |written|);
    NoneGone(n.queue.Keys, w.net);
  }

  /** The same for a transaction that has not been asked to close its connection. */
  method SendWindow(w: Network, t: NetworkTransaction, c: ConnectionState) returns (written: seq<char>)
    requires w.Repr() && Good(w.net) && w.net.window == None && HeadReady(w.net) && t == w.net.writing[0]
    requires c == w.net.owner[t] && t !in w.net.closing && c in w.net.queue && t in w.net.place
    modifies w`freeTransactions, w`writingTransactions, w`sendingConnection, w`sentDataOutstanding, w`net
    modifies w.net.place.Keys, c`sendingTransaction
    ensures w.Repr() && Sends(old(w.net), |written|) && |written| <= |old(w.net).pending[t]|
    ensures w.net == SendHead(old(w.net), |written|) && Good(w.net)
    ensures written == old(w.net).pending[t][..|written|]
    ensures |written| == |old(w.net).pending[t]| || |written| + 4 > TCP_WND
  {
    hide *;
    ghost var n := w.net;
    ReprParts(w);
    HeadFacts(n, w.freeTransactions, w.readyTransactions, w.writingTransactions);
    written := TakeWindow(w, t);
    TakenWindow(n, |written|);
    if written == [] {
      if !c.persistConnection && t.nextWrite == null {
        RequestClose(w, t);
      } else {
        NextInQueue(w, t, c);
      }
    } else {
      AwaitAcknowledgement(w, c, |written|, n);
    }
  }

  lemma {:induction false} SentKeys(n: Net, k: nat)
    requires HeadReady(n) && k <= |n.pending[n.writing[0]]| && n.writing[0] !in n.closing
    ensures n.queue.Keys == SendHead(n, k).queue.Keys
  {
    hide Close, Written, Finish;
    WrittenKeys(n, k);
    FinishKeys(n);
  }

  lemma {:induction false} WrittenKeys(n: Net, k: nat)
    requires HeadReady(n) && k <= |n.pending[n.writing[0]]|
    ensures Written(n, k).queue == n.queue
  {
  }

  lemma {:induction false} FinishKeys(n: Net)
    requires HeadQueued(n)
    ensures Finish(n).queue.Keys == n.queue.Keys
  {
    var c := n.owner[n.writing[0]];
    assert Finish(n).queue == n.queue[c := n.queue[c][1..]];
  }

  lemma {:induction false} HeadParts(n: Net)
    requires HeadReady(n)
    ensures n.writing != [] && n.writing[0] in n.owner && n.writing[0] in n.pending && n.owner[n.writing[0]] in n.sent
  {
  }

  method AwaitAcknowledgement(w: Network, c: ConnectionState, k: nat, ghost n: Net)
    requires HeadReady(n) && 0 < k <= |n.pending[n.writing[0]]| && c == n.owner[n.writing[0]] && Inside(n) && w.Repr()
    requires w.net == Taking(n, k)
    modifies w`sendingConnection, w`sentDataOutstanding, w`net
    ensures w.Repr() && w.net == Written(n, k)
  {
    hide *;
    HeadParts(n);
    ReprParts(w);
    WrittenParts(n, k);
    ListsSame(Taking(n, k), Written(n, k), w.freeTransactions, w.readyTransactions, w.writingTransactions);
    w.sendingConnection, w.sentDataOutstanding := c, k;
    w.net := Written(n, k);
    ReprFrom(w);
  }

  lemma {:induction false} HeadFacts(n: Net, free: NetworkTransaction?, ready: NetworkTransaction?,
                                     writing: NetworkTransaction?)
    requires Good(n) && HeadReady(n) && Lists(free, ready, writing, n) && AllMatch(n) && AllServe(n)
    ensures HeadQueued(n) && var t := n.writing[0]; var c := n.owner[t];
            && writing == t && t in n.place && n.place[t] == Writing && t in n.pending && c in n.queue && t.cs == c
            && (t.closeRequested <==> t in n.closing)
            && First(n.queue[c], t) && t.nextWrite == At(n.queue[c], 1) && (t.nextWrite == null <==> |n.queue[c]| == 1)
            && (c.persistConnection <==> c in n.persist)
  {
    hide Streams, Windowed, Goodbyes, Queued, NoRepeats, MatchesData;
    var t := n.writing[0];
    assert t in n.writing && t in n.place && Placed(n, t) && Matches(n, t);
    MatchesOwner(n, t);
    var c := n.owner[t];
    assert Serves(n, c);
    assert n.queue[c][0] == t;
  }

  lemma {:induction false} ClosingFacts(n: Net)
    requires Good(n) && HeadReady(n) && n.writing[0] in n.closing && NoGoodbye(n, n.owner[n.writing[0]])
    ensures Sends(n, 0) && SendHead(n, 0) == Close(n, n.owner[n.writing[0]]) && n.pending[n.writing[0]][..0] == []
  {
    hide Good, Close;
  }

  /** The output of the head of the writing list, less k bytes. */
  ghost function Taking(n: Net, k: nat): (m: Net)
    requires HeadReady(n) && k <= |n.pending[n.writing[0]]|
    ensures m.place == n.place && m.queue == n.queue && HeadReady(m)
  {
    n.(pending := n.pending[n.writing[0] := n.pending[n.writing[0]][k..]])
  }

  method TakeWindow(w: Network, t: NetworkTransaction) returns (written: seq<char>)
    requires w.Repr() && HeadReady(w.net) && t == w.net.writing[0] && t in w.net.place && w.net.place[t] == Writing
    modifies w`net, t`sendBuffer, t`sendStack, t`fileBeingSent
    ensures |written| <= TCP_WND && |written| <= |old(w.net).pending[t]|
    ensures |written| == |old(w.net).pending[t]| || |written| + 4 > TCP_WND
    ensures written == old(w.net).pending[t][..|written|]
    ensures w.Repr() && w.net == Taking(old(w.net), |written|)
    ensures written == [] ==> old(w.net).pending[t] == [] && t.sendStack == []
  {
    hide *;
    ghost var n := w.net;
    ReprParts(w);
    WritingMatches(n, t);
    written := FillWindow(t);
    TookPrefix(written, Remaining(t), n.pending[t]);
    w.net := Taking(n, |written|);
    TakingParts(n, |written|);
    TakingLists(n, |written|, w.freeTransactions, w.readyTransactions, w.writingTransactions);
    WindowSame(w.sendingConnection, w.sentDataOutstanding, n, w.net);
    TakingServes(n, |written|);
    ReprFrom(w);
  }

  /** All of a match but the output. */
  ghost predicate MatchesRest(n: Net, t: T)
    reads t`cs, t`status, t`closeRequested
  {
    && t in n.place && (t in n.owner ==> t.cs == n.owner[t]) && (t in n.status ==> t.status == n.status[t])
    && (t.closeRequested <==> t in n.closing)
  }

  lemma {:induction false} WritingMatches(n: Net, t: T)
    requires AllMatch(n) && t in n.place && n.place[t] == Writing
    ensures Popped(t) && t in n.pending && Remaining(t) == n.pending[t] && AllRest(n) && AllButOne(n, t)
  {
    assert Matches(n, t);
    forall x | x in n.place ensures MatchesRest(n, x) && (x != t ==> Matches(n, x)) {
      assert Matches(n, x);
    }
  }

  ghost predicate AllRest(n: Net)
    reads n.place.Keys`cs, n.place.Keys`status, n.place.Keys`closeRequested
  {
    forall x | x in n.place :: MatchesRest(n, x)
  }

  ghost predicate AllButOne(n: Net, t: T)
    reads n.place.Keys - {t}
  {
    forall x | x in n.place && x != t :: Matches(n, x)
  }

  lemma {:induction false} TookPrefix(a: seq<char>, b: seq<char>, all: seq<char>)
    requires a + b == all
    ensures |a| <= |all| && a == all[..|a|] && b == all[|a|..]
  {
  }

  lemma {:induction false} TakingParts(n: Net, k: nat)
    requires HeadReady(n) && k <= |n.pending[n.writing[0]]| && Inside(n) && AllRest(n) && AllButOne(n, n.writing[0])
    requires var t := n.writing[0];
      t in n.place && n.place[t] == Writing && Popped(t) && Remaining(t) == n.pending[t][k..]
    ensures AllMatch(Taking(n, k)) && Inside(Taking(n, k)) && Taking(n, k).window == n.window
    ensures Taking(n, k).outstanding == n.outstanding
  {
    hide OutputOf;
    var m, t := Taking(n, k), n.writing[0];
    forall x | x in m.place ensures Matches(m, x) {
      assert MatchesRest(n, x);
      if x != t {
        assert Matches(n, x);
        MatchesAgree(n, m, x);
      }
    }
  }

  lemma {:induction false} TakingLists(n: Net, k: nat, free: NetworkTransaction?, ready: NetworkTransaction?,
                                       writing: NetworkTransaction?)
    requires HeadReady(n) && k <= |n.pending[n.writing[0]]| && Lists(free, ready, writing, n)
    ensures Lists(free, ready, writing, Taking(n, k))
  {
    ListsSame(n, Taking(n, k), free, ready, writing);
  }

  lemma {:induction false} TakingServes(n: Net, k: nat)
    requires HeadReady(n) && k <= |n.pending[n.writing[0]]| && AllServe(n)
    ensures AllServe(Taking(n, k))
  {
    AllServeSame(n, Taking(n, k));
  }

  lemma {:induction false} TakenWindow(n: Net, k: nat)
    requires Good(n) && HeadReady(n) && n.writing[0] !in n.closing && k <= TCP_WND && k <= |n.pending[n.writing[0]]|
    requires (k == 0 ==> n.pending[n.writing[0]] == []) && n.window == None
    ensures Sends(n, k) && Good(SendHead(n, k)) && HeadQueued(n) && n.writing != [] && n.writing[0] in n.owner
    ensures n.writing[0] in n.pending && n.owner[n.writing[0]] in n.sent
    ensures var t, c := n.writing[0], n.owner[n.writing[0]];
            && (k == 0 ==> Taking(n, k) == n)
            && SendHead(n, k) == (if k > 0 then Written(n, k)
                                  else if c !in n.persist && |n.queue[c]| == 1 then n.(closing := n.closing + {t})
                                  else Finish(n))
  {
    hide Good, Written, Finish, Close;
    SendGood(n, k);
    if k == 0 {
      assert n.pending[n.writing[0]][0..] == n.pending[n.writing[0]];
      assert n.pending[n.writing[0] := n.pending[n.writing[0]]] == n.pending;
    }
  }

  lemma {:induction false} WrittenParts(n: Net, k: nat)
    requires HeadReady(n) && 0 < k <= |n.pending[n.writing[0]]| && AllMatch(Taking(n, k)) && AllServe(Taking(n, k))
    requires Inside(n)
    ensures var m := Written(n, k);
            && AllMatch(m) && AllServe(m) && Inside(m) && m.place == n.place && m.queue == n.queue
            && m.free == Taking(n, k).free && m.ready == Taking(n, k).ready && m.writing == Taking(n, k).writing
            && WindowMatches(n.owner[n.writing[0]], k, m)
  {
    hide Matches, Serves;
    var o, m := Taking(n, k), Written(n, k);
    forall x | x in m.place ensures Matches(m, x) {
      MatchesAgree(o, m, x);
    }
    AllServeSame(o, m);
  }

  method RequestClose(w: Network, t: NetworkTransaction)
    requires w.Repr() && t in w.net.place
    modifies w`net, t`closeRequested
    ensures w.Repr() && w.net == old(w.net).(closing := old(w.net).closing + {t})
  {
    hide *;
    ghost var n := w.net;
    ReprParts(w);
    MatchesButClosing(n);
    SetClosing(t, n);
    w.net := n.(closing := n.closing + {t});
    ClosingParts(n, t);
    ListsSame(n, w.net, w.freeTransactions, w.readyTransactions, w.writingTransactions);
    WindowSame(w.sendingConnection, w.sentDataOutstanding, n, w.net);
    ReprFrom(w);
  }

  ghost predicate AllData(n: Net)
    reads n.place.Keys`cs, n.place.Keys`status, n.place.Keys`sendBuffer, n.place.Keys`sendStack
    reads n.place.Keys`fileBeingSent
  {
    forall x | x in n.place :: MatchesData(n, x)
  }

  ghost predicate AllClosing(n: Net)
    reads n.place.Keys`closeRequested
  {
    forall x | x in n.place :: x.closeRequested <==> x in n.closing
  }

  lemma {:induction false} MatchesButClosing(n: Net)
    requires AllMatch(n)
    ensures AllData(n) && AllClosing(n)
  {
    forall x | x in n.place ensures MatchesData(n, x) && (x.closeRequested <==> x in n.closing) {
      assert Matches(n, x);
    }
  }

  method SetClosing(t: NetworkTransaction, ghost n: Net)
    requires AllClosing(n) && t in n.place
    modifies t`closeRequested
    ensures AllClosing(n.(closing := n.closing + {t}))
  {
    t.closeRequested := true;
  }

  lemma {:induction false} ClosingParts(n: Net, t: T)
    requires AllData(n) && AllClosing(n.(closing := n.closing + {t})) && AllServe(n) && Inside(n)
    ensures var m := n.(closing := n.closing + {t}); AllMatch(m) && AllServe(m) && Inside(m)
  {
    hide Serves;
    var m := n.(closing := n.closing + {t});
    forall x | x in m.place ensures Matches(m, x) {
      assert MatchesData(n, x);
      assert x.closeRequested <==> x in m.closing;
    }
    AllServeSame(n, m);
  }

  /** The next transaction of the connection, if any, takes the place of the one that has been sent. */
  method NextInQueue(w: Network, t: NetworkTransaction, c: ConnectionState)
    requires w.Repr() && Good(w.net) && HeadReady(w.net) && t == w.net.writing[0] && c == w.net.owner[t]
    requires t.sendStack == []
    requires First(w.net.queue[c], t) && t.nextWrite == At(w.net.queue[c], 1)
    modifies w`freeTransactions, w`writingTransactions, w`net, w.net.place.Keys`next, c`sendingTransaction
    ensures w.Repr() && w.net == Finish(old(w.net))
  {
    hide *;
    ghost var n := w.net;
    ReprParts(w);
    FinishFacts(n);
    PassTurn(c, t, n);
    FinishLists(w, t);
    FinishHolds(w, n);
    w.Become(Finish(n));
  }

  lemma {:induction false} FinishFacts(n: Net)
    requires Good(n) && HeadReady(n) && First(n.queue[n.owner[n.writing[0]]], n.writing[0])
    ensures HeadQueued(n) && Finish(n).place.Keys == n.place.Keys && Finish(n).queue.Keys == n.queue.Keys && Fresh(n)
  {
    hide Streams, Windowed, Goodbyes, Inside, NoRepeats;
    FinishPending(n);
    var t := n.writing[0];
    var q := n.queue[n.owner[t]];
    assert t in n.writing && t in n.place && Placed(n, t);
    assert NoDup(q) by { QueueNoDup(n, n.owner[t]); }
    if |q| > 1 {
      assert q[1] in q && Queued(n, n.owner[t], q[1]) && Placed(n, q[1]);
    }
  }

  lemma {:induction false} QueueNoDup(n: Net, c: C)
    requires Good(n) && c in n.queue
    ensures NoDup(n.queue[c])
  {
  }

  /** The head of the writing list is nowhere else, and what follows it in its queue is on no list. */
  ghost predicate Fresh(n: Net)
    requires HeadQueued(n)
  {
    var t := n.writing[0];
    var q := n.queue[n.owner[t]];
    && t in n.place && t !in n.free && t !in n.ready
    && (|q| > 1 ==> q[1] in n.place && q[1] != t && q[1] !in n.free && q[1] !in n.ready && q[1] !in n.writing)
    && (|q| > 1 ==> n.place[q[1]].Waiting?) && n.place[t] == Writing
  }

  method PassTurn(c: ConnectionState, t: NetworkTransaction, ghost n: Net)
    requires HeadQueued(n) && AllServe(n) && t == n.writing[0] && c == n.owner[t] && Fresh(n)
    requires t.nextWrite == At(n.queue[c], 1)
    modifies c`sendingTransaction
    ensures AllServe(Finish(n))
  {
    hide Serves, Finish;
    forall d | d in n.queue ensures Serves(n, d) {
    }
    TurnLinked(n, c);
    c.sendingTransaction := t.nextWrite;
    TurnPassed(n);
  }

  lemma {:induction false} TurnLinked(n: Net, c: C)
    requires c in n.queue && n.queue[c] != [] && Serves(n, c)
    ensures QueueLinked(n.queue[c][1..]) && (c.isConnected <==> c in n.connected)
    ensures (c.persistConnection <==> c in n.persist)
  {
    var q := n.queue[c];
    assert forall i | 0 <= i < |q[1..]| :: q[1..][i] == q[i + 1];
  }

  lemma {:induction false} TurnPassed(n: Net)
    requires HeadQueued(n) && Fresh(n)
    requires forall c, x | c in n.queue && x in n.queue[c] :: x in n.place
    requires forall x | x in n.place && n.place[x] == Ready :: x.nextWrite == null
    requires forall d | d in n.queue && d != n.owner[n.writing[0]] :: Serves(n, d)
    requires var c := n.owner[n.writing[0]];
             && c.sendingTransaction == At(n.queue[c], 1) && QueueLinked(n.queue[c][1..])
             && (c.isConnected <==> c in n.connected) && (c.persistConnection <==> c in n.persist)
    ensures AllServe(Finish(n))
  {
    hide QueueLinked;
    var m, c := Finish(n), n.owner[n.writing[0]];
    forall d | d in m.queue ensures Serves(m, d) {
      if d != c {
        assert Serves(n, d);
      }
    }
  }

  method FinishLists(w: Network, t: NetworkTransaction)
    requires Lists(w.freeTransactions, w.readyTransactions, w.writingTransactions, w.net) && Inside(w.net)
    requires HeadQueued(w.net) && Fresh(w.net)
    requires t == w.net.writing[0] && t.nextWrite == At(w.net.queue[w.net.owner[t]], 1)
    modifies w`freeTransactions, w`writingTransactions, w.net.place.Keys`next
    ensures Lists(w.freeTransactions, w.readyTransactions, w.writingTransactions, Finish(w.net))
  {
    hide *;
    FinishListFacts(w.net, w.freeTransactions, w.readyTransactions, w.writingTransactions);
    ghost var rest := w.net.writing[1..];
    w.writingTransactions := t.next;
    w.freeTransactions := PrependTransaction(w.freeTransactions, t, w.net.free);
    var nextWrite := t.nextWrite;
    if nextWrite != null {
      w.writingTransactions := PrependTransaction(w.writingTransactions, nextWrite, rest);
    }
    FinishedLists(w.net, w.freeTransactions, w.readyTransactions, w.writingTransactions);
  }

  lemma {:induction false} FinishListFacts(n: Net, free: NetworkTransaction?, ready: NetworkTransaction?,
                                           writing: NetworkTransaction?)
    requires Lists(free, ready, writing, n) && HeadQueued(n) && Fresh(n)
    ensures n.writing != [] && n.writing[0] in n.owner && n.owner[n.writing[0]] in n.queue
    ensures n.writing[0] in n.place && NoDup(n.writing)
    ensures Apart(n.free, n.ready) && Apart(n.free, n.writing) && Apart(n.ready, n.writing)
    ensures List(free, n.free) && List(ready, n.ready) && List(n.writing[0].next, n.writing[1..])
    ensures n.writing[0] !in n.free && n.writing[0] !in n.ready && n.writing[0] !in n.writing[1..]
    ensures var q := n.queue[n.owner[n.writing[0]]];
      && At(q, 1) == (if |q| > 1 then q[1] else null)
      && (|q| > 1 ==>
          && q[1] in n.place && q[1] != n.writing[0] && q[1] !in n.free && q[1] !in n.ready
          && q[1] !in n.writing[1..])
  {
    hide List;
    ListPops(writing, n.writing);
    ListTidy(writing, n.writing);
    var rest := n.writing[1..];
    assert forall i | 0 <= i < |rest| :: rest[i] == n.writing[i + 1];
  }

  lemma {:induction false} FinishedLists(n: Net, free: NetworkTransaction?, ready: NetworkTransaction?,
                                         writing: NetworkTransaction?)
    requires HeadQueued(n) && Fresh(n) && NoDup(n.writing) && Apart(n.free, n.ready) && Apart(n.free, n.writing)
    requires Apart(n.ready, n.writing)
    requires List(free, [n.writing[0]] + n.free) && List(ready, n.ready)
    requires var q := n.queue[n.owner[n.writing[0]]];
      List(writing, if |q| > 1 then [q[1]] + n.writing[1..] else n.writing[1..])
    ensures Lists(free, ready, writing, Finish(n))
  {
    hide List;
    var m := Finish(n);
    var rest := n.writing[1..];
    assert forall i | 0 <= i < |rest| :: rest[i] == n.writing[i + 1];
    var q := n.queue[n.owner[n.writing[0]]];
    assert m.writing == if |q| > 1 then [q[1]] + rest else rest;
  }

  lemma {:induction false} FinishHolds(w: Network, n: Net)
    requires HeadQueued(n) && Fresh(n) && AllMatch(n) && Inside(n) && n.writing[0].sendStack == []
    requires AllServe(Finish(n)) && Lists(w.freeTransactions, w.readyTransactions, w.writingTransactions, Finish(n))
    requires WindowMatches(w.sendingConnection, w.sentDataOutstanding, n)
    ensures w.Holds(Finish(n))
  {
    hide AllMatch, AllServe, Inside, Lists, Finish, Fresh;
    FinishParts(n);
  }

  lemma {:induction false} FinishParts(n: Net)
    requires HeadQueued(n) && Fresh(n) && AllMatch(n) && Inside(n) && n.writing[0].sendStack == []
    ensures AllMatch(Finish(n)) && Inside(Finish(n)) && Finish(n).window == n.window
    ensures Finish(n).outstanding == n.outstanding
  {
    hide OutputOf;
    var m, t := Finish(n), n.writing[0];
    var q := n.queue[n.owner[t]];
    forall x | x in m.place ensures Matches(m, x) {
      assert x in n.place && Matches(n, x);
    }
    FinishInside(n);
  }

  lemma {:induction false} FinishInside(n: Net)
    requires HeadQueued(n) && Fresh(n) && Inside(n)
    ensures Inside(Finish(n))
  {
  }

  // ---------------------------------------------------------------- acknowledgements and lost connections

  /** Called when the client has acknowledged some of what was sent. */
  method ConnSent(w: Network, c: ConnectionState, len: nat)
    requires w.Repr() && Good(w.net) && Enabled(w.net, Acknowledged(c, len))
    modifies w`sendingConnection, w`sentDataOutstanding, w`net
    ensures w.Repr() && Good(w.net) && w.net == Next(old(w.net), Acknowledged(c, len))
  {
    hide *;
    ghost var n := w.net;
    ReprParts(w);
    StepKeeps(n, Acknowledged(c, len));
    EachStepIs(n, Acknowledged(c, len));
    WindowFacts(n, w.sendingConnection, w.sentDataOutstanding, c);
    if c == w.sendingConnection {
      if w.sentDataOutstanding > len {
        w.sentDataOutstanding := w.sentDataOutstanding - len;
      } else {
        w.sendingConnection := null;
      }
    }
    AcknowledgedHolds(w, n, c, len);
    w.Become(Acknowledge(n, c, len));
  }

  lemma {:induction false} WindowFacts(n: Net, sending: ConnectionState?, outstanding: nat, c: C)
    requires WindowMatches(sending, outstanding, n)
    ensures c == sending <==> InWindow(n, c)
    ensures c == sending ==> outstanding == n.outstanding
  {
  }

  lemma {:induction false} AcknowledgedHolds(w: Network, n: Net, c: C, len: nat)
    requires Lists(w.freeTransactions, w.readyTransactions, w.writingTransactions, n)
    requires AllMatch(n) && AllServe(n) && Inside(n) && c in n.acked
    requires if InWindow(n, c) && n.outstanding <= len then w.sendingConnection == null
             else WindowMatches(w.sendingConnection,
                                if InWindow(n, c) then w.sentDataOutstanding + len else w.sentDataOutstanding, n)
    ensures w.Holds(Acknowledge(n, c, len))
  {
    hide AllMatch, AllServe, Inside, Lists;
    AcknowledgedParts(n, c, len);
    ListsSame(n, Acknowledge(n, c, len), w.freeTransactions, w.readyTransactions, w.writingTransactions);
  }

  lemma {:induction false} AcknowledgedParts(n: Net, c: C, len: nat)
    requires AllMatch(n) && AllServe(n) && Inside(n) && c in n.acked
    ensures var m := Acknowledge(n, c, len); AllMatch(m) && AllServe(m) && Inside(m)
  {
    hide Matches, Serves;
    var m := Acknowledge(n, c, len);
    forall x | x in m.place ensures Matches(m, x) {
      MatchesAgree(n, m, x);
    }
    AllServeSame(n, m);
  }

  /** Called when a connection has gone down unexpectedly. */
  method ConnectionLost(w: Network, c: ConnectionState)
    requires w.Repr() && Good(w.net) && Enabled(w.net, Lost(c))
    modifies w`freeTransactions, w`readyTransactions, w`writingTransactions, w`sendingConnection, w`net
    modifies w.net.place.Keys, c
    ensures w.Repr() && Good(w.net) && w.net == Next(old(w.net), Lost(c)) && !c.isConnected
  {
    hide *;
    LostIs(w.net, c);
    w.ConnectionClosed(c);
  }

  lemma {:induction false} LostIs(n: Net, c: C)
    requires Good(n) && Enabled(n, Lost(c))
    ensures c in n.queue && NoGoodbye(n, c) && Next(n, Lost(c)) == Close(n, c)
  {
    hide Placed, Queued, Streams, Windowed, NoRepeats, Inside, Close;
  }

  // ---------------------------------------------------------------- giving a transaction output

  method SetOutput(w: Network, t: NetworkTransaction, chain: seq<seq<char>>, stack: seq<seq<seq<char>>>,
                   file: Option<seq<char>>)
    requires w.Repr() && Good(w.net) && t in w.net.ready && forall i | 0 <= i < |stack| :: stack[i] != []
    modifies w`net, t`sendBuffer, t`sendStack, t`fileBeingSent
    ensures w.Repr() && Good(w.net) && w.net == Output(old(w.net), t, OutputOf(chain, stack, file))
    ensures t.sendBuffer == chain && t.sendStack == stack && t.fileBeingSent == file
  {
    hide *;
    ghost var n, bytes := w.net, OutputOf(chain, stack, file);
    ReprParts(w);
    ReadyOwned(n, t);
    OutputGood(n, t, bytes);
    ChangeOutput(t, chain, stack, file, n);
    OutputHolds(w, n, t, bytes);
    w.Become(Output(n, t, bytes));
  }

  method ChangeOutput(t: NetworkTransaction, chain: seq<seq<char>>, stack: seq<seq<seq<char>>>,
                      file: Option<seq<char>>, ghost n: Net)
    requires AllMatch(n) && t in n.place && n.place[t] == Ready && forall i | 0 <= i < |stack| :: stack[i] != []
    modifies t`sendBuffer, t`sendStack, t`fileBeingSent
    ensures AllMatch(Output(n, t, OutputOf(chain, stack, file)))
    ensures t.sendBuffer == chain && t.sendStack == stack && t.fileBeingSent == file
  {
    hide OutputOf;
    ghost var m := Output(n, t, OutputOf(chain, stack, file));
    assert Matches(n, t);
    t.sendBuffer, t.sendStack, t.fileBeingSent := chain, stack, file;
    forall x | x in m.place ensures Matches(m, x) {
      if x != t {
        assert Matches(n, x);
        MatchesAgree(n, m, x);
      }
    }
  }

  lemma {:induction false} OutputHolds(w: Network, n: Net, t: T, bytes: seq<char>)
    requires AllMatch(Output(n, t, bytes)) && AllServe(n) && Inside(n)
    requires Lists(w.freeTransactions, w.readyTransactions, w.writingTransactions, n)
    requires WindowMatches(w.sendingConnection, w.sentDataOutstanding, n)
    ensures w.Holds(Output(n, t, bytes))
  {
    hide AllMatch, AllServe, Inside, Lists;
    OutputParts(n, t, bytes);
    ListsSame(n, Output(n, t, bytes), w.freeTransactions, w.readyTransactions, w.writingTransactions);
  }

  lemma {:induction false} OutputParts(n: Net, t: T, bytes: seq<char>)
    requires AllServe(n) && Inside(n)
    ensures AllServe(Output(n, t, bytes)) && Inside(Output(n, t, bytes))
  {
    AllServeSame(n, Output(n, t, bytes));
  }

  /** Appends text to the chain of a ready transaction whose connection is still there. */
  method WriteText(w: Network, t: NetworkTransaction, text: seq<char>)
    requires w.Repr() && Good(w.net) && t in w.net.ready && t.cs != null
    modifies w`net, t`sendBuffer, t`sendStack, t`fileBeingSent
    ensures w.Repr() && Good(w.net)
    ensures var output := OutputOf(old(t.sendBuffer) + [text], old(t.sendStack), old(t.fileBeingSent));
      w.net == if t.cs.isConnected then Output(old(w.net), t, output) else old(w.net)
  {
    hide *;
    if t.cs.isConnected {
      StackIsGood(w, t);
      SetOutput(w, t, t.sendBuffer + [text], t.sendStack, t.fileBeingSent);
    }
  }

  /** Pushes a chain onto the stack of a ready transaction, if it is not full. */
  method WriteChain(w: Network, t: NetworkTransaction, chain: seq<seq<char>>)
    requires w.Repr() && Good(w.net) && t in w.net.ready && t.cs != null
    modifies w`net, t`sendBuffer, t`sendStack, t`fileBeingSent
    ensures w.Repr() && Good(w.net)
    ensures var output := OutputOf(old(t.sendBuffer), old(t.sendStack) + [chain], old(t.fileBeingSent));
      w.net == if t.cs.isConnected && chain != [] && |old(t.sendStack)| < OUTPUT_STACK_DEPTH
               then Output(old(w.net), t, output) else old(w.net)
  {
    hide *;
    if t.cs.isConnected && chain != [] && |t.sendStack| < OUTPUT_STACK_DEPTH {
      StackIsGood(w, t);
      SetOutput(w, t, t.sendBuffer, t.sendStack + [chain], t.fileBeingSent);
    }
  }

  /** Gives a ready transaction a file to send after everything else. */
  method SetFileToWrite(w: Network, t: NetworkTransaction, file: seq<char>)
    requires w.Repr() && Good(w.net) && t in w.net.ready && t.cs != null
    modifies w`net, t`sendBuffer, t`sendStack, t`fileBeingSent
    ensures w.Repr() && Good(w.net)
    ensures var output := OutputOf(old(t.sendBuffer), old(t.sendStack), Some(file));
      w.net == if t.cs.isConnected then Output(old(w.net), t, output) else old(w.net)
  {
    hide *;
    if t.cs.isConnected {
      StackIsGood(w, t);
      SetOutput(w, t, t.sendBuffer, t.sendStack, Some(file));
    }
  }

  lemma {:induction false} StackIsGood(w: Network, t: T)
    requires w.Repr() && Good(w.net) && t in w.net.ready
    ensures forall i | 0 <= i < |t.sendStack| :: t.sendStack[i] != []
  {
    hide Good;
    ReadyOwned(w.net, t);
    assert Matches(w.net, t);
  }
}
