/** What the web server and the sender do with transactions. */
module TransactionSteps {
  import opened Basics
  import opened Options
  import opened Transactions
  import opened TransactionFlow
  import opened NetworkQueues

  // ---------------------------------------------------------------- discarding

  /** A ready transaction is given up. One that announced the end of its connection closes it. */
  method DiscardTransaction(w: Network, t: NetworkTransaction)
    requires w.Repr() && Good(w.net) && Enabled(w.net, DiscardOf(t))
    modifies w`freeTransactions, w`readyTransactions, w`writingTransactions, w`sendingConnection, w`net
    modifies w.net.place.Keys, w.net.queue.Keys
    ensures w.Repr() && Good(w.net) && w.net == Next(old(w.net), DiscardOf(t))
    ensures Gone(old(w.net.queue.Keys), w.net)
  {
    hide *;
    ghost var n := w.net;
    ReprParts(w);
    StepKeeps(n, DiscardOf(t));
    IsReady(n, t);
    DiscardFacts(n, t);
    assert t.status != Status.Released;
    var callDisconnectHandler := t.cs != null && t.status == Disconnected;
    var c := t.cs;
    w.Release(t);
    DiscardIs(n, t);
    NoneGone(n.queue.Keys, w.net);
    if callDisconnectHandler {
      ClosedKeys(w.net, c);
      w.ConnectionClosed(c);
      OneGone(n.queue.Keys, w.net, c);
    }
  }

  lemma {:induction false} IsReady(n: Net, t: T)
    ensures Enabled(n, DiscardOf(t)) || Enabled(n, DeferOf(t)) || (exists keep :: Enabled(n, CommitOf(t, keep))) ==>
      t in n.ready
  {
  }

  lemma {:induction false} DiscardFacts(n: Net, t: T)
    requires Good(n) && AllMatch(n) && t in n.ready
    ensures t in n.place && t !in n.free && t !in n.writing && t in n.owner && n.owner[t] in n.queue
    ensures t.cs == n.owner[t]
    ensures t.status != Status.Released && (t.status == Disconnected <==> Is(n, t, Disconnected))
  {
    hide Streams, Windowed, Goodbyes, Queued, NoRepeats, MatchesData;
    assert Placed(n, t) && Matches(n, t);
    MatchesOwner(n, t);
  }

  lemma {:induction false} DiscardIs(n: Net, t: T)
    requires Good(n) && Enabled(n, DiscardOf(t)) && t in n.owner && n.owner[t] in n.queue
    ensures var m := LetGo(n, t);
            && Good(m) && n.owner[t] in m.queue && m.place.Keys == n.place.Keys && m.queue == n.queue
            && Next(n, DiscardOf(t)) == (if Is(n, t, Disconnected) then Close(m, n.owner[t]) else m)
            && (Is(n, t, Disconnected) ==> NoGoodbye(m, n.owner[t]))
  {
    hide Good, Close, Freed, Only, Minus;
    LetGoIs(n, t);
    GiveUpGood(n, {t});
    GiveUpRest(n, {t});
    if Is(n, t, Disconnected) {
      OneGoodbye(n, t);
    }
  }

  lemma {:induction false} LetGoIs(n: Net, t: T)
    requires Good(n) && t in n.ready
    ensures LetGo(n, t) == GiveUp(n, {t})
  {
    hide Good, Freed, Minus, Only;
    ListsTidy(n);
    OnlyOne(n.ready, t);
  }

  lemma {:induction false} OneGoodbye(n: Net, t: T)
    requires Good(n) && t in n.ready && Is(n, t, Disconnected) && t in n.owner
    ensures NoGoodbye(LetGo(n, t), n.owner[t])
  {
    hide Valid, Streams, Windowed, Minus;
    HasMinus(n.ready, {t});
    LetGoRest(n, t);
    FreedGoodbyes(n, [t]);
    var m := LetGo(n, t);
    forall x | x in m.ready && Owns(m, x, n.owner[t]) ensures !Is(m, x, Disconnected) {
      assert x in n.ready && x != t && Owns(n, x, n.owner[t]);
      assert Is(m, x, Disconnected) ==> Is(Freed(n, [t]), x, Disconnected);
    }
  }

  // ---------------------------------------------------------------- deferring

  /** A ready transaction goes to the end of the ready list, followed by the others of its connection. */
  method DeferTransaction(w: Network, t: NetworkTransaction)
    requires w.Repr() && Good(w.net) && Enabled(w.net, DeferOf(t))
    modifies w`readyTransactions, w`net, w.net.place.Keys`next, t`status
    ensures w.Repr() && Good(w.net) && w.net == Next(old(w.net), DeferOf(t))
  {
    hide *;
    ghost var n := w.net;
    ReprParts(w);
    StepKeeps(n, DeferOf(t));
    IsReady(n, t);
    DiscardFacts(n, t);
    DeferSame(n, t);
    DeferIs(n, t);
    DeferMemory(w, t);
    w.Become(Defer(n, t));
  }

  /** Relinks the ready list, and marks the transaction. */
  method DeferMemory(w: Network, t: NetworkTransaction)
    requires w.Repr() && t in w.net.ready && t in w.net.place && t in w.net.owner
    requires SameConnection(w.net.ready, t, Of(w.net, w.net.owner[t])) && t in Of(w.net, w.net.owner[t])
    modifies w`readyTransactions, w.net.place.Keys`next, t`status
    ensures w.Holds(Defer(w.net, t))
  {
    hide *;
    ReprParts(w);
    MarkDeferred(t, w.net);
    DeferReady(w, t, Of(w.net, w.net.owner[t]));
    DeferHolds(w, t);
  }

  lemma {:induction false} DeferHolds(w: Network, t: T)
    requires t in w.net.ready && t in w.net.owner && NoDup(w.net.ready)
    requires AllMatch(MarkedDeferred(w.net, t)) && AllServe(w.net) && Inside(w.net)
    requires WindowMatches(w.sendingConnection, w.sentDataOutstanding, w.net)
    requires Lists(w.freeTransactions, w.readyTransactions, w.writingTransactions,
                   w.net.(ready := DeferOrder(w.net.ready, t, Of(w.net, w.net.owner[t]))))
    ensures w.Holds(Defer(w.net, t))
  {
    hide AllMatch, AllServe, Inside, Lists, Defer, DeferOrder, MarkedDeferred, NoDup;
    var n, m := w.net, Defer(w.net, t);
    DeferParts(n, t);
    ListsSame(n.(ready := m.ready), m, w.freeTransactions, w.readyTransactions, w.writingTransactions);
  }

  lemma {:induction false} ReprFrom(w: Network)
    requires Inside(w.net) && Lists(w.freeTransactions, w.readyTransactions, w.writingTransactions, w.net)
    requires AllMatch(w.net) && AllServe(w.net) && WindowMatches(w.sendingConnection, w.sentDataOutstanding, w.net)
    ensures w.Repr()
  {
  }

  lemma {:induction false} WindowSame(sending: ConnectionState?, outstanding: nat, n: Net, m: Net)
    requires WindowMatches(sending, outstanding, n) && m.window == n.window && m.outstanding == n.outstanding
    ensures WindowMatches(sending, outstanding, m)
  {
  }

  ghost function MarkedDeferred(n: Net, t: T): (m: Net)
    ensures m.place == n.place && m.queue == n.queue
  {
    n.(status := n.status[t := Deferred])
  }

  method MarkDeferred(t: NetworkTransaction, ghost n: Net)
    requires AllMatch(n) && t in n.place
    modifies t`status
    ensures AllMatch(MarkedDeferred(n, t))
  {
    hide Matches, MarkedDeferred;
    DeferredMatches0(n, t);
    t.status := Deferred;
    DeferredMatches(n, t);
    forall x | x in n.place ensures Matches(MarkedDeferred(n, t), x) {
      if x != t {
        DeferredAgree(n, t, x);
        MatchesAgree(n, MarkedDeferred(n, t), x);
      }
    }
  }

  /** All of a match but the status. */
  ghost predicate MatchesOutput(n: Net, t: T)
    reads t`cs, t`closeRequested, t`sendBuffer, t`sendStack, t`fileBeingSent
  {
    && t in n.place && (t.closeRequested <==> t in n.closing)
    && (t in n.owner ==> t.cs == n.owner[t])
    && (n.place[t] == Free ==> t.sendStack == [])
    && (n.place[t] != Free ==> t in n.pending && OutputOf(t.sendBuffer, t.sendStack, t.fileBeingSent) == n.pending[t])
    && (n.place[t] == Writing || n.place[t].Waiting? ==> t.sendBuffer == [] ==> t.sendStack == [])
    && forall i | 0 <= i < |t.sendStack| :: t.sendStack[i] != []
  }

  lemma {:induction false} DeferredMatches0(n: Net, t: T)
    requires AllMatch(n) && t in n.place
    ensures MatchesOutput(n, t)
  {
    assert Matches(n, t);
  }

  lemma {:induction false} DeferredMatches(n: Net, t: T)
    requires MatchesOutput(n, t) && t.status == Deferred
    ensures Matches(MarkedDeferred(n, t), t)
  {
  }

  lemma {:induction false} DeferredAgree(n: Net, t: T, x: T)
    requires x in n.place && x != t
    ensures Agree(n, MarkedDeferred(n, t), x)
  {
  }

  lemma {:induction false} DeferSame(n: Net, t: T)
    requires Good(n) && AllMatch(n) && t in n.ready && t in n.owner
    ensures SameConnection(n.ready, t, Of(n, n.owner[t])) && t in Of(n, n.owner[t]) && NoDup(n.ready) && Inside(n)
  {
    hide AllMatch, Streams, Windowed, Goodbyes, Placed, Queued;
    ReadyOwners(n);
  }

  method DeferReady(w: Network, t: NetworkTransaction, ghost same: set<T>)
    requires Lists(w.freeTransactions, w.readyTransactions, w.writingTransactions, w.net) && Inside(w.net)
    requires SameConnection(w.net.ready, t, same) && t in same && t in w.net.ready && NoDup(w.net.ready)
    modifies w`readyTransactions, w.net.place.Keys`next
    ensures Lists(w.freeTransactions, w.readyTransactions, w.writingTransactions,
                  w.net.(ready := DeferOrder(w.net.ready, t, same)))
  {
    hide List, DeferOrder, SameConnection, NoDup;
    InsideReady(w.net);
    w.readyTransactions := DeferInList(w.readyTransactions, t, w.net.ready, same);
    DeferOrderHolds(w.net.ready, t, same);
    PermApart(w.net.ready, DeferOrder(w.net.ready, t, same), w.net.free);
    PermApart(w.net.ready, DeferOrder(w.net.ready, t, same), w.net.writing);
  }

  lemma {:induction false} PermApart(items: seq<T>, items': seq<T>, others: seq<T>)
    requires (Apart(items, others) || Apart(others, items)) && forall x: T :: x in items' <==> x in items
    ensures Apart(items', others) && Apart(others, items')
  {
    forall i | 0 <= i < |items'| ensures items'[i] in items {
      assert items'[i] in items';
    }
  }

  lemma {:induction false} DeferParts(n: Net, t: T)
    requires AllMatch(MarkedDeferred(n, t)) && AllServe(n) && Inside(n) && t in n.ready && t in n.owner
    requires NoDup(n.ready)
    ensures var m := Defer(n, t);
            && AllMatch(m) && AllServe(m) && Inside(m) && m.window == n.window && m.outstanding == n.outstanding
            && m.place == n.place
            && m.free == n.free && m.writing == n.writing && m.ready == DeferOrder(n.ready, t, Of(n, n.owner[t]))
  {
    hide Matches, Serves, DeferOrder, NoDup;
    var m := Defer(n, t);
    DeferOrderHolds(n.ready, t, Of(n, n.owner[t]));
    forall x | x in m.ready ensures x in m.place {
      assert x in n.ready;
    }
    forall x | x in m.place ensures Matches(m, x) {
      MatchesAgree(MarkedDeferred(n, t), m, x);
    }
    AllServeSame(n, m);
  }

  lemma {:induction false} DeferIs(n: Net, t: T)
    requires Good(n) && Enabled(n, DeferOf(t)) && t in n.owner
    ensures Next(n, DeferOf(t)) == Defer(n, t)
  {
    hide Good, DeferOrder;
  }

  // ---------------------------------------------------------------- committing

  /** Hands a ready transaction over for sending. If the connection is not to be kept alive, the other ready
      transactions of the connection are given up. */
  method CommitTransaction(w: Network, t: NetworkTransaction, keepConnectionAlive: bool)
    requires w.Repr() && Good(w.net) && Enabled(w.net, CommitOf(t, keepConnectionAlive))
    modifies w`freeTransactions, w`readyTransactions, w`writingTransactions, w`sendingConnection, w`net
    modifies w.net.place.Keys, w.net.queue.Keys
    ensures w.Repr() && Good(w.net) && w.net == Next(old(w.net), CommitOf(t, keepConnectionAlive))
    ensures Gone(old(w.net.queue.Keys), w.net)
  {
    hide *;
    ghost var n := w.net;
    ReprParts(w);
    StepKeeps(n, CommitOf(t, keepConnectionAlive));
    IsReady(n, t);
    DiscardFacts(n, t);
    CommitFacts(n, t, keepConnectionAlive);
    var c := t.cs;
    if !c.isConnected {
      DiscardTransaction(w, t);
      return;
    }
    PrepareSending(w, t, keepConnectionAlive);
    PreparingFacts(n, t, keepConnectionAlive);
    if keepConnectionAlive {
      UnlinkReady(w, t);
    } else {
      w.DropReady(c, t, {t});
    }
    TakenFacts(n, t, keepConnectionAlive);
    EnqueueLast(w, t, c);
    CommitIs(n, t, keepConnectionAlive);
    CommitKeys(n, t, keepConnectionAlive);
    NoneGone(n.queue.Keys, w.net);
  }

  lemma {:induction false} CommitKeys(n: Net, t: T, keep: bool)
    requires Good(n) && Enabled(n, CommitOf(t, keep)) && t in n.owner && n.owner[t] in n.connected
    ensures n.queue.Keys <= Next(n, CommitOf(t, keep)).queue.Keys
  {
    hide Good, Next, Enabled, GiveUp, Discard, Minus;
    EachStepIs(n, CommitOf(t, keep));
    GiveUpRest(n, Of(n, n.owner[t]) - {t});
  }

  /** The connection remembers whether to persist, and the first stacked chain is sent if there is no other. */
  ghost function Preparing(n: Net, t: T, keep: bool): (m: Net)
    requires t in n.owner
    ensures m.place == n.place && m.queue == n.queue && m.ready == n.ready
  {
    n.(status := n.status[t := Sending], persist := if keep then n.persist + {n.owner[t]} else n.persist - {n.owner[t]})
  }

  method PrepareSending(w: Network, t: NetworkTransaction, keep: bool)
    requires w.Repr() && t in w.net.place && w.net.place[t] == Ready && t in w.net.owner
    requires w.net.owner[t] in w.net.queue && t.cs == w.net.owner[t]
    modifies w`net, t`sendBuffer, t`sendStack, t`status, t.cs`persistConnection
    ensures w.Repr() && w.net == Preparing(old(w.net), t, keep) && (t.sendBuffer == [] ==> t.sendStack == [])
  {
    hide *;
    ghost var n := w.net;
    ReprParts(w);
    Persist(t.cs, keep, t, n);
    StartSending(t, n, keep);
    w.net := Preparing(n, t, keep);
    PreparingParts(n, t, keep);
    ListsSame(n, w.net, w.freeTransactions, w.readyTransactions, w.writingTransactions);
    WindowSame(w.sendingConnection, w.sentDataOutstanding, n, w.net);
    ReprFrom(w);
  }

  method Persist(c: ConnectionState, keep: bool, ghost t: T, ghost n: Net)
    requires AllServe(n) && t in n.owner && c == n.owner[t] && c in n.queue
    modifies c`persistConnection
    ensures AllServe(Preparing(n, t, keep))
  {
    hide QueueLinked, Serves, Links, AllServe, ServedBut;
    AllLinks(n, c);
    c.persistConnection := keep;
    AllServeAgain(n, t, keep);
  }

  /** All connections but one are served, and that one is but for its persistence. */
  ghost predicate ServedBut(n: Net, c: C)
    reads n.queue.Keys`sendingTransaction, n.queue.Keys`isConnected, (n.queue.Keys - {c})`persistConnection
    reads n.place.Keys`nextWrite
  {
    && (forall d, x | d in n.queue && x in n.queue[d] :: x in n.place)
    && (forall d | d in n.queue && d != c :: Serves(n, d)) && (c in n.queue ==> Links(n, c))
    && forall x | x in n.place && n.place[x] == Ready :: x.nextWrite == null
  }

  lemma {:induction false} AllLinks(n: Net, c: C)
    requires AllServe(n)
    ensures ServedBut(n, c)
  {
    hide QueueLinked, Serves, Links;
    if c in n.queue {
      ServesLinks(n, c);
    }
  }

  lemma {:induction false} AllServeAgain(n: Net, t: T, keep: bool)
    requires t in n.owner && n.owner[t] in n.queue && ServedBut(n, n.owner[t]) && n.owner[t].persistConnection == keep
    ensures AllServe(Preparing(n, t, keep))
  {
    hide QueueLinked, Serves, Links, Preparing;
    var m := Preparing(n, t, keep);
    forall d | d in n.queue ensures Serves(m, d) {
      if d == n.owner[t] {
        LinksServe(n, t, keep);
      } else {
        LinksOther(n, t, keep, d);
      }
    }
  }

  /** All of being served but persistence. */
  ghost predicate Links(n: Net, c: C)
    requires c in n.queue
    reads c`sendingTransaction, c`isConnected, n.queue[c]`nextWrite
  {
    c.sendingTransaction == At(n.queue[c], 0) && QueueLinked(n.queue[c]) && (c.isConnected <==> c in n.connected)
  }

  lemma {:induction false} ServesLinks(n: Net, d: C)
    requires d in n.queue && Serves(n, d)
    ensures Links(n, d)
  {
  }

  lemma {:induction false} LinksServe(n: Net, t: T, keep: bool)
    requires t in n.owner && n.owner[t] in n.queue && Links(n, n.owner[t]) && n.owner[t].persistConnection == keep
    ensures Serves(Preparing(n, t, keep), n.owner[t])
  {
  }

  lemma {:induction false} LinksOther(n: Net, t: T, keep: bool, d: C)
    requires t in n.owner && d in n.queue && d != n.owner[t] && Serves(n, d)
    ensures Serves(Preparing(n, t, keep), d)
  {
  }

  method StartSending(t: NetworkTransaction, ghost n: Net, ghost keep: bool)
    requires AllMatch(n) && t in n.place && n.place[t] == Ready && t in n.owner
    modifies t`sendBuffer, t`sendStack, t`status
    ensures AllMatch(Preparing(n, t, keep)) && (t.sendBuffer == [] ==> t.sendStack == [])
  {
    hide Matches, Preparing, OutputOf;
    ReadyMatches(n, t);
    PopKeeps(t.sendStack, t.fileBeingSent);
    if t.sendBuffer == [] && t.sendStack != [] {
      t.sendBuffer, t.sendStack := t.sendStack[0], t.sendStack[1..];
    }
    t.status := Sending;
    SendingMatches(n, t, keep);
    forall x | x in n.place ensures Matches(Preparing(n, t, keep), x) {
      if x != t {
        PreparingAgree(n, t, keep, x);
        MatchesAgree(n, Preparing(n, t, keep), x);
      }
    }
  }

  /** Popping the stack into an empty chain changes nothing about what is to be sent. */
  lemma {:induction false} PopKeeps(stack: seq<seq<seq<char>>>, file: Option<seq<char>>)
    ensures stack != [] ==> OutputOf(stack[0], stack[1..], file) == OutputOf([], stack, file)
  {
    if stack != [] {
      assert ChainBytes([]) + StackBytes(stack) == ChainBytes(stack[0]) + StackBytes(stack[1..]);
    }
  }

  lemma {:induction false} ReadyMatches(n: Net, t: T)
    requires AllMatch(n) && t in n.place && n.place[t] == Ready
    ensures t in n.pending && OutputOf(t.sendBuffer, t.sendStack, t.fileBeingSent) == n.pending[t]
    ensures (t in n.owner ==> t.cs == n.owner[t]) && (t.closeRequested <==> t in n.closing)
    ensures forall i | 0 <= i < |t.sendStack| :: t.sendStack[i] != []
  {
    assert Matches(n, t);
  }

  lemma {:induction false} SendingMatches(n: Net, t: T, keep: bool)
    requires t in n.place && n.place[t] == Ready && t in n.owner && t.status == Sending
    requires t in n.pending && OutputOf(t.sendBuffer, t.sendStack, t.fileBeingSent) == n.pending[t]
    requires t.cs == n.owner[t] && (t.closeRequested <==> t in n.closing)
    requires forall i | 0 <= i < |t.sendStack| :: t.sendStack[i] != []
    ensures Matches(Preparing(n, t, keep), t)
  {
  }

  lemma {:induction false} PreparingAgree(n: Net, t: T, keep: bool, x: T)
    requires t in n.owner && x in n.place && x != t
    ensures Agree(n, Preparing(n, t, keep), x)
  {
  }

  lemma {:induction false} PreparingParts(n: Net, t: T, keep: bool)
    requires t in n.owner && Inside(n)
    ensures var m := Preparing(n, t, keep);
            && Inside(m) && m.free == n.free && m.writing == n.writing && m.window == n.window
            && m.outstanding == n.outstanding
  {
  }

  method UnlinkReady(w: Network, t: NetworkTransaction)
    requires w.Repr()
    modifies w`readyTransactions, w`net, w.net.place.Keys`next
    ensures w.Repr() && w.net == old(w.net).(ready := Minus(old(w.net).ready, {t}))
  {
    hide *;
    ghost var n := w.net;
    ReprParts(w);
    UnlinkFromReady(w, t);
    w.net := n.(ready := Minus(n.ready, {t}));
    BypassParts(n, t);
    WindowSame(w.sendingConnection, w.sentDataOutstanding, n, w.net);
    ReprFrom(w);
  }

  method UnlinkFromReady(w: Network, t: NetworkTransaction)
    requires Lists(w.freeTransactions, w.readyTransactions, w.writingTransactions, w.net) && Inside(w.net)
    modifies w`readyTransactions, w.net.place.Keys`next
    ensures Lists(w.freeTransactions, w.readyTransactions, w.writingTransactions,
                  w.net.(ready := Minus(w.net.ready, {t})))
  {
    hide Minus, List;
    InsideReady(w.net);
    w.readyTransactions := Unlink(w.readyTransactions, t, w.net.ready);
    MinusApart(w.net.ready, t, w.net.free);
    ApartSym(w.net.ready, w.net.writing);
    MinusApart(w.net.ready, t, w.net.writing);
  }

  lemma {:induction false} CommitFacts(n: Net, t: T, keep: bool)
    requires Good(n) && AllServe(n) && Enabled(n, CommitOf(t, keep)) && t in n.owner && n.owner[t] in n.queue
    ensures t in n.place && n.place[t] == Ready && Enabled(n, DiscardOf(t))
    ensures (n.owner[t].isConnected <==> n.owner[t] in n.connected)
    ensures n.owner[t] !in n.connected ==> Next(n, CommitOf(t, keep)) == Next(n, DiscardOf(t))
  {
    hide Good, Discard, Enqueue, GiveUp;
    ReadyOwned(n, t);
    assert Serves(n, n.owner[t]);
  }

  /** While a connection is connected, none of its ready transactions announces its end. */
  lemma {:induction false} PreparingFacts(n: Net, t: T, keep: bool)
    requires Good(n) && t in n.ready && t in n.owner && n.owner[t] in n.connected
    ensures var m, c := Preparing(n, t, keep), n.owner[t];
      Owned(m) && Of(m, c) == Of(n, c) && Skips(m, c, t, {t}) && Quiet(m, Of(m, c) - {t})
  {
    hide Queued, Streams, Windowed, Inside, NoRepeats;
    Held(n);
    var m, c := Preparing(n, t, keep), n.owner[t];
    assert Of(m, c) == Of(n, c);
    forall i | 0 <= i < |n.ready| && n.ready[i] in Of(m, c) - {t}
      ensures n.ready[i] in m.status && m.status[n.ready[i]] != Status.Released && m.status[n.ready[i]] != Disconnected
    {
      var x := n.ready[i];
      assert x in n.ready && Placed(n, x);
      assert !Is(n, x, Disconnected);
    }
  }

  ghost function Taken(n: Net, t: T, keep: bool): Net
    requires t in n.owner
  {
    var m := Preparing(n, t, keep);
    if keep then m.(ready := Minus(m.ready, {t})) else Dropped(m, Of(m, n.owner[t]), {t})
  }

  ghost predicate QueuesApart(n: Net) {
    forall c, d | c in n.queue && d in n.queue && c != d :: Apart(n.queue[c], n.queue[d])
  }

  ghost predicate Away(n: Net, t: T) { forall c, i | c in n.queue && 0 <= i < |n.queue[c]| :: n.queue[c][i] != t }

  /** What is in a queue is not ready. */
  ghost predicate Busy(n: Net) { forall c, x | c in n.queue && x in n.queue[c] && x in n.place :: n.place[x] != Ready }

  /** A transaction off the ready list, about to join its queue. */
  ghost predicate Joining(n: Net, t: T) {
    && t in n.place && n.place[t] == Ready && t !in n.free && t !in n.ready && t !in n.writing
    && t in n.owner && n.owner[t] in n.queue && t in n.pending && n.owner[t] in n.promised && QueuesApart(n)
    && Away(n, t) && Busy(n)
  }

  lemma {:induction false} TakenFacts(n: Net, t: T, keep: bool)
    requires Good(n) && t in n.ready && t in n.owner
    ensures var m := Taken(n, t, keep);
      Joining(m, t) && m.owner == n.owner && m.place.Keys == n.place.Keys && m.queue == n.queue
    ensures var p := Preparing(n, t, keep);
            Taken(n, t, keep) == if keep then p.(ready := Minus(p.ready, {t})) else Dropped(p, Of(p, n.owner[t]), {t})
  {
    hide Good, Freed, Minus, Only, QueuesApart, Away, Busy;
    ReadyOwned(n, t);
    QueuesAreApart(n, t);
    ReadyAway(n, t);
    var p, c := Preparing(n, t, keep), n.owner[t];
    HasMinus(p.ready, {t});
    HasMinus(p.ready, Of(p, c));
    HasMinus(p.ready, Of(p, c) - {t});
    var gone := Only(p.ready, Of(p, c) - {t});
    FreedRest(p, gone);
    FreedStays(p, gone, t);
    TakenWriting(n, t, keep);
    TakenPlaces(n, t, keep);
    QueuesSame(n, Taken(n, t, keep), t);
  }

  lemma {:induction false} TakenWriting(n: Net, t: T, keep: bool)
    requires t in n.owner
    ensures Taken(n, t, keep).writing == n.writing && Taken(n, t, keep).queue == n.queue
  {
  }

  lemma {:induction false} TakenPlaces(n: Net, t: T, keep: bool)
    requires t in n.owner
    ensures var m := Taken(n, t, keep);
      m.place.Keys == n.place.Keys && forall x | x in m.place && m.place[x] == Ready :: n.place[x] == Ready
  {
  }

  lemma {:induction false} QueuesSame(n: Net, m: Net, t: T)
    requires QueuesApart(n) && Away(n, t) && Busy(n) && m.queue == n.queue
    requires forall x | x in m.place && m.place[x] == Ready :: x in n.place && n.place[x] == Ready
    ensures QueuesApart(m) && Away(m, t) && Busy(m)
  {
  }

  lemma {:induction false} ReadyAway(n: Net, t: T)
    requires Good(n) && t in n.ready
    ensures t !in n.free && t !in n.writing
  {
    assert Placed(n, t);
  }

  lemma {:induction false} QueuesAreApart(n: Net, t: T)
    requires Good(n) && t in n.place && n.place[t] == Ready
    ensures QueuesApart(n) && Away(n, t) && Busy(n)
  {
    hide Placed, Streams, Windowed, Goodbyes, Inside, NoRepeats;
    forall c, i | c in n.queue && 0 <= i < |n.queue[c]|
      ensures n.queue[c][i] in n.queue[c] && Queued(n, c, n.queue[c][i])
    {
    }
  }

  ghost function Queueing(n: Net, t: T): (m: Net)
    requires t in n.owner && n.owner[t] in n.queue && t in n.pending && n.owner[t] in n.promised
    ensures t in n.place ==> m.place.Keys == n.place.Keys
  {
    var c := n.owner[t];
    var first := n.queue[c] == [];
    n.(writing := if first then n.writing + [t] else n.writing, queue := n.queue[c := n.queue[c] + [t]],
       place := n.place[t := if first then Writing else Waiting(c)],
       promised := n.promised[c := n.promised[c] + n.pending[t]])
  }

  /** Puts a transaction at the end of its connection's queue, and on the writing list if it is the first. */
  method EnqueueLast(w: Network, t: NetworkTransaction, c: ConnectionState)
    requires w.Repr() && Joining(w.net, t) && c == w.net.owner[t] && (t.sendBuffer == [] ==> t.sendStack == [])
    modifies w`writingTransactions, w`net, w.net.place.Keys`next, w.net.place.Keys`nextWrite, c`sendingTransaction
    ensures w.Repr() && w.net == Queueing(old(w.net), t)
  {
    hide *;
    ghost var n := w.net;
    JoiningFacts(n, t);
    EnqueueMemory(w, t, c);
    w.Become(Queueing(n, t));
  }

  /** Links the transaction into its queue and, if it is the first, into the writing list. */
  method EnqueueMemory(w: Network, t: NetworkTransaction, c: ConnectionState)
    requires w.Repr() && Joining(w.net, t) && c == w.net.owner[t] && (t.sendBuffer == [] ==> t.sendStack == [])
    modifies w`writingTransactions, w.net.place.Keys`next, w.net.place.Keys`nextWrite, c`sendingTransaction
    ensures w.Holds(Queueing(w.net, t))
  {
    hide *;
    ReprParts(w);
    JoiningFacts(w.net, t);
    QueueingKeys(w.net, t);
    var first := LinkLast(t, c, w.net);
    EnqueueWriting(w, t, first);
  }

  method EnqueueWriting(w: Network, t: NetworkTransaction, first: bool)
    requires Joining(w.net, t) && (first <==> w.net.queue[w.net.owner[t]] == [])
    requires t.sendBuffer == [] ==> t.sendStack == []
    requires AllMatch(w.net) && Inside(w.net) && AllServe(Queueing(w.net, t))
    requires WindowMatches(w.sendingConnection, w.sentDataOutstanding, w.net)
    requires Lists(w.freeTransactions, w.readyTransactions, w.writingTransactions, w.net)
    modifies w`writingTransactions, w.net.place.Keys`next
    ensures w.Holds(Queueing(w.net, t))
  {
    hide *;
    JoiningFacts(w.net, t);
    QueueingKeys(w.net, t);
    if first {
      AppendWriting(w, t);
    }
    QueueingHolds(w, t, first);
  }

  lemma {:induction false} QueueingHolds(w: Network, t: T, first: bool)
    requires Joining(w.net, t) && (first <==> w.net.queue[w.net.owner[t]] == [])
    requires t.sendBuffer == [] ==> t.sendStack == []
    requires AllMatch(w.net) && Inside(w.net) && AllServe(Queueing(w.net, t))
    requires WindowMatches(w.sendingConnection, w.sentDataOutstanding, w.net)
    requires Lists(w.freeTransactions, w.readyTransactions, w.writingTransactions,
                   if first then w.net.(writing := w.net.writing + [t]) else w.net)
    ensures w.Holds(Queueing(w.net, t))
  {
    hide AllMatch, AllServe, Inside, Lists, Queueing, Joining;
    QueueingParts(w.net, t);
    QueueingLists(w.net, t, first, w.freeTransactions, w.readyTransactions, w.writingTransactions);
  }

  lemma {:induction false} QueueingKeys(n: Net, t: T)
    requires Joining(n, t)
    ensures Queueing(n, t).place.Keys == n.place.Keys && Queueing(n, t).queue.Keys == n.queue.Keys
  {
  }

  lemma {:induction false} JoiningFacts(n: Net, t: T)
    requires Joining(n, t)
    ensures t in n.place && n.place[t] == Ready && t !in n.free && t !in n.ready && t !in n.writing
    ensures t in n.owner && n.owner[t] in n.queue && t in n.pending && n.owner[t] in n.promised && QueuesApart(n)
    ensures Away(n, t) && Busy(n)
  {
  }

  method LinkLast(t: NetworkTransaction, c: ConnectionState, ghost n: Net) returns (first: bool)
    requires AllServe(n) && Joining(n, t) && c == n.owner[t]
    modifies c`sendingTransaction, n.place.Keys`nextWrite
    ensures AllServe(Queueing(n, t)) && (first <==> n.queue[c] == [])
  {
    hide Queueing;
    ghost var q := n.queue[c];
    assert Serves(n, c) && t.nextWrite == null;
    forall i | 0 <= i < |q| ensures q[i] in n.place && q[i] != t {
      assert q[i] in q;
    }
    var last := c.sendingTransaction;
    first := last == null;
    if first {
      c.sendingTransaction := t;
    } else {
      ghost var k := 0;
      while last.nextWrite != null
        invariant k < |q| && last == q[k]
        decreases |q| - k
      {
        last := last.nextWrite;
        k := k + 1;
      }
      last.nextWrite := t;
    }
    LinkedLast(n, t);
  }

  lemma {:induction false} LinkedLast(n: Net, t: T)
    requires Joining(n, t) && t.nextWrite == null
    requires forall c, x | c in n.queue && x in n.queue[c] :: x in n.place
    requires forall x | x in n.place && n.place[x] == Ready :: x.nextWrite == null
    requires forall d | d in n.queue && d != n.owner[t] :: Serves(n, d)
    requires var c := n.owner[t]; var q := n.queue[c];
             && c.sendingTransaction == (if q == [] then t else q[0])
             && (forall i {:trigger q[i].nextWrite} | 0 <= i < |q| ::
                   q[i].nextWrite == if i + 1 < |q| then q[i + 1] else t)
             && (c.isConnected <==> c in n.connected) && (c.persistConnection <==> c in n.persist)
    ensures AllServe(Queueing(n, t))
  {
    var m, c := Queueing(n, t), n.owner[t];
    forall d | d in m.queue ensures Serves(m, d) {
      if d != c {
        assert Serves(n, d);
      } else {
        QueueGrown(n.queue[c], t);
      }
    }
  }

  lemma {:induction false} QueueGrown(q: seq<T>, t: T)
    requires t.nextWrite == null
    requires forall i {:trigger q[i].nextWrite} | 0 <= i < |q| :: q[i].nextWrite == if i + 1 < |q| then q[i + 1] else t
    ensures QueueLinked(q + [t])
  {
    var all := q + [t];
    forall i | 0 <= i < |all| ensures all[i].nextWrite == At(all, i + 1) {
      if i < |q| {
        assert all[i] == q[i];
      }
    }
  }

  method AppendWriting(w: Network, t: NetworkTransaction)
    requires Lists(w.freeTransactions, w.readyTransactions, w.writingTransactions, w.net) && Inside(w.net)
    requires t in w.net.place && t !in w.net.free && t !in w.net.ready && t !in w.net.writing
    modifies w`writingTransactions, w.net.place.Keys`next
    ensures Lists(w.freeTransactions, w.readyTransactions, w.writingTransactions,
                  w.net.(writing := w.net.writing + [t]))
  {
    hide List;
    InsideWriting(w.net);
    w.writingTransactions := AppendTransaction(w.writingTransactions, t, w.net.writing);
  }

  lemma {:induction false} QueueingParts(n: Net, t: T)
    requires AllMatch(n) && Inside(n) && Joining(n, t) && (t.sendBuffer == [] ==> t.sendStack == [])
    ensures var m := Queueing(n, t);
      AllMatch(m) && Inside(m) && m.window == n.window && m.outstanding == n.outstanding && m.place.Keys == n.place.Keys
  {
    hide OutputOf, QueuesApart, Away;
    var m := Queueing(n, t);
    assert Matches(n, t);
    forall x | x in m.place ensures Matches(m, x) {
      if x != t {
        assert Matches(n, x) && Agree(n, m, x);
        MatchesAgree(n, m, x);
      }
    }
  }

  lemma {:induction false} QueueingLists(n: Net, t: T, first: bool, free: NetworkTransaction?,
                                         ready: NetworkTransaction?, writing: NetworkTransaction?)
    requires Joining(n, t) && (first <==> n.queue[n.owner[t]] == [])
    requires Lists(free, ready, writing, if first then n.(writing := n.writing + [t]) else n)
    ensures Lists(free, ready, writing, Queueing(n, t))
  {
    ListsSame(if first then n.(writing := n.writing + [t]) else n, Queueing(n, t), free, ready, writing);
  }

  lemma {:induction false} CommitIs(n: Net, t: T, keep: bool)
    requires Good(n) && Enabled(n, CommitOf(t, keep)) && t in n.owner && n.owner[t] in n.connected
    requires Joining(Taken(n, t, keep), t)
    ensures Next(n, CommitOf(t, keep)) == Queueing(Taken(n, t, keep), t)
  {
    hide Good, Freed, Only, Minus, QueuesApart, Away, Busy, Discard;
    ReadyOwned(n, t);
    var c := n.owner[t];
    var p := Preparing(n, t, keep);
    if !keep {
      var s := Of(n, c);
      assert Of(p, c) == s;
      var gone := Only(n.ready, s - {t});
      HasMinus(n.ready, s - {t});
      SendingFreed(n, t, gone, p.persist);
      MinusRest(n.ready, s, t);
    }
  }

  /** Marking a transaction as sending and releasing others may happen in either order. */
  lemma {:induction false} SendingFreed(n: Net, t: T, gone: seq<T>, persist: set<C>)
    requires t !in gone
    ensures var m := Freed(n, gone);
      Freed(n.(status := n.status[t := Sending], persist := persist), gone)
      == m.(status := m.status[t := Sending], persist := persist)
  {
    var m := Freed(n, gone);
    assert Freed(n.(status := n.status[t := Sending], persist := persist), gone).status == m.status[t := Sending];
  }

  lemma {:induction false} MinusRest(items: seq<T>, s: set<T>, t: T)
    requires t in s
    ensures Minus(Minus(items, s - {t}), {t}) == Minus(items, s)
  {
    if items != [] {
      var init, x := items[..|items| - 1], items[|items| - 1];
      MinusRest(init, s, t);
      var rest := Minus(init, s - {t});
      assert Minus(items, s - {t}) == rest + if x in s - {t} then [] else [x];
      MinusJoins(rest, [x], {t});
      MinusSingle(x, {t});
      assert rest + [] == rest;
    }
  }
}
