/** The network's transaction lists in memory. Every operation moves transactions exactly as the value model says. */
module NetworkQueues {
  import opened Basics
  import opened Options
  import opened Transactions
  import opened TransactionFlow

  const OUTPUT_STACK_DEPTH := 4
  const NETWORK_TRANSACTION_COUNT := 24

  /** The bytes of a chain of buffers, and of a stack of chains. */
  function ChainBytes(chain: seq<seq<char>>): seq<char> {
    if chain == [] then [] else chain[0] + ChainBytes(chain[1..])
  }

  function StackBytes(stack: seq<seq<seq<char>>>): seq<char> {
    if stack == [] then [] else ChainBytes(stack[0]) + StackBytes(stack[1..])
  }

  function FileBytes(file: Option<seq<char>>): seq<char> { if file.Some? then file.value else [] }

  /** What a transaction still has to send: its chain, then the stacked chains in the order they were pushed, then the
      file. */
  function OutputOf(chain: seq<seq<char>>, stack: seq<seq<seq<char>>>, file: Option<seq<char>>): seq<char> {
    ChainBytes(chain) + StackBytes(stack) + FileBytes(file)
  }

  ghost predicate QueueLinked(q: seq<T>)
    reads q`nextWrite
  {
    forall i {:trigger q[i].nextWrite} | 0 <= i < |q| :: q[i].nextWrite == At(q, i + 1)
  }

  ghost predicate Apart(a: seq<T>, b: seq<T>) { forall i, j | 0 <= i < |a| && 0 <= j < |b| :: a[i] != b[j] }

  /** The fields of a transaction are those of the model. */
  ghost predicate Matches(n: Net, t: T)
    reads t`cs, t`status, t`closeRequested, t`sendBuffer, t`sendStack, t`fileBeingSent
  {
    t in n.place && MatchesData(n, t) && (t.closeRequested <==> t in n.closing)
  }

  ghost predicate MatchesData(n: Net, t: T)
    requires t in n.place
    reads t`cs, t`status, t`sendBuffer, t`sendStack, t`fileBeingSent
  {
    && (t in n.owner ==> t.cs == n.owner[t])
    && (t in n.status ==> t.status == n.status[t])
    && (n.place[t] == Free ==> t.sendStack == [])
    && (n.place[t] != Free ==> t in n.pending && OutputOf(t.sendBuffer, t.sendStack, t.fileBeingSent) == n.pending[t])
    && (n.place[t] == Writing || n.place[t].Waiting? ==> t.sendBuffer == [] ==> t.sendStack == [])
    && forall i | 0 <= i < |t.sendStack| :: t.sendStack[i] != []
  }

  /** So are the fields of an open connection, and its queue is linked. */
  ghost predicate Serves(n: Net, c: C)
    requires c in n.queue
    reads c`sendingTransaction, c`isConnected, c`persistConnection, n.queue[c]`nextWrite
  {
    && c.sendingTransaction == At(n.queue[c], 0) && QueueLinked(n.queue[c])
    && (c.isConnected <==> c in n.connected) && (c.persistConnection <==> c in n.persist)
  }

  ghost predicate AllMatch(n: Net)
    reads n.place.Keys`cs, n.place.Keys`status, n.place.Keys`closeRequested, n.place.Keys`sendBuffer
    reads n.place.Keys`sendStack, n.place.Keys`fileBeingSent
  {
    forall t | t in n.place :: Matches(n, t)
  }

  /** Every open connection is served, its queue holds transactions of the network, and ready ones are not linked to
      it. */
  ghost predicate AllServe(n: Net)
    reads n.queue.Keys`sendingTransaction, n.queue.Keys`isConnected, n.queue.Keys`persistConnection
    reads n.place.Keys`nextWrite
  {
    && (forall c, t | c in n.queue && t in n.queue[c] :: t in n.place)
    && (forall c | c in n.queue :: Serves(n, c))
    && forall t | t in n.place && n.place[t] == Ready :: t.nextWrite == null
  }

  ghost predicate Agree(n: Net, m: Net, t: T) {
    && t in n.place && t in m.place && n.place[t] == m.place[t]
    && (t in n.owner <==> t in m.owner) && (t in n.owner ==> n.owner[t] == m.owner[t])
    && (t in n.status <==> t in m.status) && (t in n.status ==> n.status[t] == m.status[t])
    && (t in n.closing <==> t in m.closing)
    && (t in n.pending <==> t in m.pending) && (t in n.pending ==> n.pending[t] == m.pending[t])
  }

  lemma {:induction false} MatchesAgree(n: Net, m: Net, t: T)
    requires Matches(n, t) && Agree(n, m, t)
    ensures Matches(m, t)
  {
  }

  /** The three lists in memory are those of the model, and have nothing in common. */
  ghost predicate Lists(free: NetworkTransaction?, ready: NetworkTransaction?, writing: NetworkTransaction?, n: Net)
    reads n.free`next, n.ready`next, n.writing`next
  {
    && Apart(n.free, n.ready) && Apart(n.free, n.writing) && Apart(n.ready, n.writing)
    && List(free, n.free) && List(ready, n.ready) && List(writing, n.writing)
  }

  ghost predicate WindowMatches(sending: ConnectionState?, outstanding: nat, n: Net) {
    && (sending == null <==> n.window == None)
    && (n.window.Some? ==> sending == n.window.value && outstanding == n.outstanding)
  }

  // ---------------------------------------------------------------- start-up

  ghost predicate AllBlank(all: seq<T>)
    reads all`closeRequested, all`sendStack
  {
    forall i | 0 <= i < |all| :: !all[i].closeRequested && all[i].sendStack == []
  }

  lemma {:induction false} StartMatches(all: seq<T>)
    requires AllBlank(all)
    ensures AllMatch(Start(all)) && AllServe(Start(all)) && Inside(Start(all))
  {
  }

  // ---------------------------------------------------------------- releasing a transaction

  ghost function LetGo(n: Net, t: T): Net { Freed(n, [t]).(ready := Minus(n.ready, {t})) }

  lemma {:induction false} LetGoInside(n: Net, t: T)
    requires Inside(n) && t in n.place
    ensures Inside(LetGo(n, t))
  {
    hide Minus;
    HasMinus(n.ready, {t});
  }

  lemma {:induction false} LetGoLists(n: Net, t: T, free: NetworkTransaction?, ready: NetworkTransaction?,
                                      writing: NetworkTransaction?)
    requires Apart(n.free, n.ready) && Apart(n.free, n.writing) && Apart(n.ready, n.writing) && t !in n.writing
    requires List(free, n.free + [t]) && List(ready, Minus(n.ready, {t})) && List(writing, n.writing)
    ensures Lists(free, ready, writing, LetGo(n, t))
  {
    hide List;
    MinusIn(n.ready, {t});
  }

  lemma {:induction false} MinusApart(items: seq<T>, t: T, others: seq<T>)
    requires Apart(others, items)
    ensures Apart(Minus(items, {t}), others)
    ensures forall i | 0 <= i < |Minus(items, {t})| :: Minus(items, {t})[i] != t && Minus(items, {t})[i] in items
  {
    hide Minus;
    MinusIn(items, {t});
  }

  lemma {:induction false} LetGoAgree(n: Net, t: T, x: T)
    requires x in n.place && x != t
    ensures Agree(n, LetGo(n, t), x)
  {
  }

  lemma {:induction false} LetGoRest(n: Net, t: T)
    ensures var m := LetGo(n, t);
            && m.free == n.free + [t] && m.ready == Minus(n.ready, {t}) && m.writing == n.writing
            && m.place.Keys == n.place.Keys && m.queue == n.queue && m.connected == n.connected
            && m.persist == n.persist
            && m.window == n.window && m.outstanding == n.outstanding
            && forall x | x in m.place && m.place[x] == Ready :: n.place[x] == Ready
  {
  }

  lemma {:induction false} LetGoMatches(n: Net, t: T)
    requires t in n.place && t.sendStack == [] && t.status == Status.Released
    requires (t in n.owner ==> t.cs == n.owner[t]) && (t.closeRequested <==> t in n.closing)
    ensures Matches(LetGo(n, t), t)
  {
  }

  lemma {:induction false} AllServeSame(n: Net, m: Net)
    requires AllServe(n) && m.queue == n.queue && m.connected == n.connected && m.persist == n.persist
    requires m.place.Keys == n.place.Keys
    requires forall t | t in m.place && m.place[t] == Ready :: n.place[t] == Ready
    ensures AllServe(m)
  {
    forall c | c in m.queue ensures Serves(m, c) {
      assert Serves(n, c);
    }
  }

  /** The output of a transaction goes, and it counts as released. */
  method Clear(t: NetworkTransaction, ghost n: Net)
    requires AllMatch(n) && t in n.place
    modifies t`fileBeingSent, t`sendBuffer, t`sendStack, t`status
    ensures AllMatch(LetGo(n, t))
  {
    hide Matches, LetGo;
    assert Matches(n, t);
    MatchesOwner(n, t);
    t.fileBeingSent, t.sendBuffer, t.sendStack, t.status := None, [], [], Status.Released;
    LetGoMatches(n, t);
    LetGoRest(n, t);
    forall x | x in LetGo(n, t).place ensures Matches(LetGo(n, t), x) {
      if x != t {
        LetGoAgree(n, t, x);
        MatchesAgree(n, LetGo(n, t), x);
      }
    }
  }

  lemma {:induction false} MatchesOwner(n: Net, t: T)
    requires Matches(n, t)
    ensures (t in n.owner ==> t.cs == n.owner[t]) && (t.closeRequested <==> t in n.closing)
    ensures (t in n.status ==> t.status == n.status[t])
  {
  }

  // ---------------------------------------------------------------- preparing a transaction

  lemma {:induction false} JoinedRest(n: Net, c: C, s: Status, front: bool)
    requires n.free != [] && n.free[0] in n.place
    ensures var m, r := Joined(n, c, s, front), n.free[0];
            && m.free == n.free[1..] && m.ready == (if front then [r] + n.ready else n.ready + [r])
            && m.writing == n.writing
            && m.place.Keys == n.place.Keys && m.queue == n.queue && m.connected == n.connected
            && m.persist == n.persist
            && m.window == n.window && m.outstanding == n.outstanding
  {
  }

  lemma {:induction false} JoinedAgree(n: Net, c: C, s: Status, front: bool, x: T)
    requires n.free != [] && x in n.place && x != n.free[0]
    ensures Agree(n, Joined(n, c, s, front), x)
  {
  }

  lemma {:induction false} JoinedMatches(n: Net, c: C, s: Status, front: bool)
    requires n.free != []
    requires var r := n.free[0];
             && r.cs == c && r.status == s && !r.closeRequested && r.sendBuffer == [] && r.sendStack == []
             && r.fileBeingSent == None
    ensures Matches(Joined(n, c, s, front), n.free[0])
  {
  }

  /** A free transaction has nothing stacked and is in no queue. */
  lemma {:induction false} FreeIsClear(n: Net)
    requires Valid(n) && AllMatch(n) && n.free != []
    ensures n.free[0] in n.place && n.free[0].sendStack == []
    ensures forall c | c in n.queue :: forall i | 0 <= i < |n.queue[c]| :: n.queue[c][i] != n.free[0]
  {
    hide Placed, Queued;
    Held(n);
    assert n.free[0] in n.free && Matches(n, n.free[0]);
    forall c | c in n.queue ensures forall i | 0 <= i < |n.queue[c]| :: n.queue[c][i] != n.free[0] {
      QueueHolds(n, c, n.free[0]);
    }
  }

  /** Prepares the first free transaction for a connection. */
  method Set(r: NetworkTransaction, c: ConnectionState, s: Status, ghost n: Net, ghost front: bool)
    requires Valid(n) && AllMatch(n) && AllServe(n) && n.free != [] && r == n.free[0]
    modifies r`cs, r`status, r`sendBuffer, r`fileBeingSent, r`closeRequested, r`nextWrite
    ensures AllMatch(Joined(n, c, s, front)) && AllServe(Joined(n, c, s, front))
  {
    hide *;
    FreeIsClear(n);
    ClearLink(r, n);
    AllMatchBut(n, r);
    r.cs, r.status, r.sendBuffer, r.fileBeingSent, r.closeRequested := c, s, [], None, false;
    JoinedAllMatch(n, c, s, front);
    JoinedServes(n, c, s, front);
  }

  /** Unlinks a transaction that is in no queue. */
  method ClearLink(r: NetworkTransaction, ghost n: Net)
    requires AllServe(n) && r in n.place && forall d | d in n.queue :: r !in n.queue[d]
    modifies r`nextWrite
    ensures AllServe(n) && r.nextWrite == null
  {
    hide Serves;
    assert forall d | d in n.queue :: Serves(n, d);
    r.nextWrite := null;
    assert forall d | d in n.queue :: Serves(n, d);
  }

  /** All transactions but one match. */
  ghost predicate MatchBut(n: Net, r: T)
    reads (n.place.Keys - {r})`cs, (n.place.Keys - {r})`status, (n.place.Keys - {r})`closeRequested
    reads (n.place.Keys - {r})`sendBuffer, (n.place.Keys - {r})`sendStack, (n.place.Keys - {r})`fileBeingSent
  {
    forall t | t in n.place && t != r :: Matches(n, t)
  }

  lemma {:induction false} AllMatchBut(n: Net, r: T)
    requires AllMatch(n)
    ensures MatchBut(n, r)
  {
    hide Matches;
  }

  lemma {:induction false} JoinedAllMatch(n: Net, c: C, s: Status, front: bool)
    requires n.free != [] && n.free[0] in n.place && MatchBut(n, n.free[0])
    requires var r := n.free[0];
             && r.cs == c && r.status == s && !r.closeRequested && r.sendBuffer == [] && r.sendStack == []
             && r.fileBeingSent == None
    ensures AllMatch(Joined(n, c, s, front))
  {
    hide Matches, Joined;
    var m := Joined(n, c, s, front);
    JoinedRest(n, c, s, front);
    JoinedMatches(n, c, s, front);
    forall x | x in m.place ensures Matches(m, x) {
      if x != n.free[0] {
        JoinedAgree(n, c, s, front, x);
        MatchesAgree(n, m, x);
      }
    }
  }

  lemma {:induction false} JoinedServes(n: Net, c: C, s: Status, front: bool)
    requires n.free != [] && n.free[0] in n.place && n.free[0].nextWrite == null && AllServe(n)
    ensures AllServe(Joined(n, c, s, front))
  {
    hide Serves;
    var m := Joined(n, c, s, front);
    forall d | d in m.queue ensures Serves(m, d) {
      ServesSame(n, m, d);
    }
  }

  lemma {:induction false} ServesSame(n: Net, m: Net, c: C)
    requires c in n.queue && Serves(n, c) && m.queue == n.queue && m.connected == n.connected && m.persist == n.persist
    ensures Serves(m, c)
  {
  }

  lemma {:induction false} ListPops(head: NetworkTransaction?, items: seq<T>)
    requires List(head, items) && items != []
    ensures head == items[0] && List(items[0].next, items[1..])
  {
    assert forall i | 0 <= i < |items[1..]| :: items[1..][i] == items[i + 1];
  }

  lemma {:induction false} JoinedLists(n: Net, c: C, s: Status, front: bool, free: NetworkTransaction?,
                                       ready: NetworkTransaction?, writing: NetworkTransaction?)
    requires n.free != [] && NoDup(n.free) && Apart(n.free, n.ready) && Apart(n.free, n.writing)
    requires Apart(n.ready, n.writing)
    requires List(free, n.free[1..]) && List(writing, n.writing)
    requires List(ready, if front then [n.free[0]] + n.ready else n.ready + [n.free[0]])
    ensures Lists(free, ready, writing, Joined(n, c, s, front))
  {
    hide List;
    assert forall i | 0 <= i < |n.free[1..]| :: n.free[1..][i] == n.free[i + 1];
  }

  class Network {
    var freeTransactions: NetworkTransaction?
    var readyTransactions: NetworkTransaction?
    var writingTransactions: NetworkTransaction?
    var sendingConnection: ConnectionState?
    var sentDataOutstanding: nat
    ghost var net: Net

    ghost predicate Repr()
      reads this, net.place.Keys, net.queue.Keys
    {
      && Inside(net) && Lists(freeTransactions, readyTransactions, writingTransactions, net)
      && AllMatch(net) && AllServe(net) && WindowMatches(sendingConnection, sentDataOutstanding, net)
    }

    /** The same for any network: what memory will stand for. */
    ghost predicate Holds(m: Net)
      reads this`freeTransactions, this`readyTransactions, this`writingTransactions
      reads this`sendingConnection, this`sentDataOutstanding, m.place.Keys, m.queue.Keys
    {
      && Inside(m) && Lists(freeTransactions, readyTransactions, writingTransactions, m)
      && AllMatch(m) && AllServe(m) && WindowMatches(sendingConnection, sentDataOutstanding, m)
    }

    ghost method Become(m: Net)
      requires Holds(m)
      modifies this`net
      ensures Repr() && net == m
    {
      net := m;
    }

    /** All transactions are free, and no connection is open. */
    constructor ()
      ensures Repr() && Good(net) && net == Start(net.free) && |net.free| == NETWORK_TRANSACTION_COUNT
      ensures fresh(net.free)
    {
      freeTransactions, readyTransactions, writingTransactions := null, null, null;
      sendingConnection, sentDataOutstanding := null, 0;
      net := Start([]);
      new;
      hide Good, Holds, Repr;
      var i := 0;
      ghost var all: seq<T> := [];
      while i < NETWORK_TRANSACTION_COUNT
        invariant i <= NETWORK_TRANSACTION_COUNT && |all| == i && List(freeTransactions, all) && fresh(all)
        invariant AllBlank(all)
        invariant readyTransactions == null && writingTransactions == null && sendingConnection == null
        modifies this`freeTransactions
      {
        freeTransactions := new NetworkTransaction(freeTransactions);
        all := [freeTransactions] + all;
        i := i + 1;
      }
      StartGood(all);
      StartHolds(this, all);
      Become(Start(all));
    }

    /** Releases a transaction that is not free and not in the writing list, wherever else it is. */
    method Release(t: NetworkTransaction)
      requires Repr() && t in net.place && t !in net.free && t !in net.writing
      modifies this`freeTransactions, this`readyTransactions, this`net, net.place.Keys`next
      modifies t`fileBeingSent, t`sendBuffer, t`sendStack, t`status
      ensures Repr() && net == LetGo(old(net), t)
    {
      hide *;
      ghost var n := net;
      ReprParts(this);
      LetGoRest(n, t);
      Clear(t, n);
      MoveToFree(t);
      LetGoHolds(this, n, t);
      Become(LetGo(n, t));
    }

    /** Unlinks a transaction from the ready list, if it is there, and appends it to the free list. */
    method MoveToFree(t: NetworkTransaction)
      requires Lists(freeTransactions, readyTransactions, writingTransactions, net) && Inside(net) && t in net.place
      requires t !in net.free && t !in net.writing
      modifies this`freeTransactions, this`readyTransactions, net.place.Keys`next
      ensures Lists(freeTransactions, readyTransactions, writingTransactions, LetGo(net, t))
    {
      hide LetGo, List, Minus;
      readyTransactions := Unlink(readyTransactions, t, net.ready);
      MinusApart(net.ready, t, net.free);
      freeTransactions := AppendTransaction(freeTransactions, t, net.free);
      LetGoLists(net, t, freeTransactions, readyTransactions, writingTransactions);
    }

    /** Moves the first free transaction to one end of the ready list. */
    method TakeFree(front: bool, ghost c: C, ghost s: Status)
      requires Lists(freeTransactions, readyTransactions, writingTransactions, net) && Inside(net) && net.free != []
      modifies this`freeTransactions, this`readyTransactions, net.place.Keys`next
      ensures Lists(freeTransactions, readyTransactions, writingTransactions, Joined(net, c, s, front))
    {
      hide Joined, List;
      ListPops(freeTransactions, net.free);
      ListTidy(freeTransactions, net.free);
      var r := freeTransactions;
      freeTransactions := r.next;
      assert forall i | 0 <= i < |net.free[1..]| :: net.free[1..][i] == net.free[i + 1];
      if front {
        readyTransactions := PrependTransaction(readyTransactions, r, net.ready);
      } else {
        readyTransactions := AppendTransaction(readyTransactions, r, net.ready);
      }
      JoinedLists(net, c, s, front, freeTransactions, readyTransactions, writingTransactions);
    }

    method Join(c: ConnectionState, s: Status, front: bool)
      requires Repr() && Valid(net) && net.free != []
      modifies this`freeTransactions, this`readyTransactions, this`net, net.place.Keys
      ensures Repr() && net == Joined(old(net), c, s, front)
    {
      hide *;
      ghost var n := net;
      ReprParts(this);
      FirstFree(freeTransactions, readyTransactions, writingTransactions, n);
      JoinedRest(n, c, s, front);
      Set(freeTransactions, c, s, n, front);
      TakeFree(front, c, s);
      JoinedHolds(this, n, c, s, front);
      Become(Joined(n, c, s, front));
    }

    /** Called when data has been received. The result says whether it can be processed. */
    method ReceiveInput(c: ConnectionState) returns (ok: bool)
      requires Repr() && Good(net) && Enabled(net, Received(c))
      modifies this`freeTransactions, this`readyTransactions, this`net, net.place.Keys
      ensures Repr() && Good(net) && net == Next(old(net), Received(c))
      ensures ok <==> old(net).free != []
    {
      hide Lists, AllMatch, AllServe, Inside, Good, Joined;
      ghost var n := net;
      StepKeeps(n, Received(c));
      FreeHead(freeTransactions, readyTransactions, writingTransactions, n);
      ok := freeTransactions != null;
      if ok {
        GoodIsValid(n);
        Join(c, Receiving, false);
        ReceivedIs(n, c);
      }
    }

    method Open(c: ConnectionState)
      requires Repr() && c !in net.queue
      modifies this`net, c
      ensures Repr() && net == Opened(old(net), c)
    {
      hide Lists, AllMatch, AllServe, Inside, Opened;
      ghost var n := net;
      Init(c, n);
      net := Opened(n, c);
      OpenedParts(n, c);
      ListsSame(n, net, freeTransactions, readyTransactions, writingTransactions);
    }

    /** Called when a connection is being established, with a free connection state if there is one. */
    method ConnectionAccepted(c: ConnectionState?) returns (r: ConnectionState?)
      requires Repr() && Good(net) && (c != null ==> Enabled(net, Accepted(c)))
      modifies this`freeTransactions, this`readyTransactions, this`net, net.place.Keys, c
      ensures Repr() && Good(net) && net == if c == null then old(net) else Next(old(net), Accepted(c))
      ensures r == if old(net).free == [] then null else c
      ensures c != null && r == null ==> c.isConnected == old(c.isConnected)
    {
      hide Lists, AllMatch, AllServe, Inside, Good, Joined, Opened;
      ghost var n := net;
      FreeHead(freeTransactions, readyTransactions, writingTransactions, n);
      if c == null {
        return null;
      }
      StepKeeps(n, Accepted(c));
      if freeTransactions == null {
        return null;
      }
      OpenedGood(n, c);
      GoodIsValid(Opened(n, c));
      OpenedRest(n, c);
      Open(c);
      Join(c, Connected, false);
      AcceptedIs(n, c);
      r := c;
    }

    /** The end of a connection: it no longer has a protocol control block, and its sending transaction is to close
        it. */
    method SayGoodbye(c: ConnectionState)
      requires Repr() && c in net.queue
      modifies this`net, c`isConnected, net.place.Keys`closeRequested
      ensures Repr() && net == Leaving(old(net), c)
    {
      hide Lists, AllMatch, AllServe, Inside, Leaving;
      ghost var n := net;
      Leave(c, n);
      LeavingParts(n, c);
      net := Leaving(n, c);
      LeavingInside(n, c);
      ListsSame(n, net, freeTransactions, readyTransactions, writingTransactions);
    }

    /** Called when the client has closed a connection: enqueues a transaction that announces it. */
    method ConnectionClosedGracefully(c: ConnectionState) returns (ok: bool)
      requires Repr() && Good(net) && Enabled(net, ClosedGracefully(c))
      modifies this`freeTransactions, this`readyTransactions, this`net, net.place.Keys, c
      ensures Repr() && Good(net) && net == Next(old(net), ClosedGracefully(c))
      ensures ok <==> old(net).free != []
    {
      hide Lists, AllMatch, AllServe, Inside, Good, Joined, Leaving;
      ghost var n := net;
      StepKeeps(n, ClosedGracefully(c));
      GracefulGood(n, c);
      FreeHead(freeTransactions, readyTransactions, writingTransactions, n);
      ok := freeTransactions != null;
      if ok {
        LeavingGood(n, c);
        LeavingParts(n, c);
        SayGoodbye(c);
        Join(c, Disconnected, false);
        GracefullyIs(n, c);
      } else {
        NotGracefully(n, c);
      }
    }

    /** Makes sure that the head of the ready list is a transaction acquired for a connection. */
    method AcquireTransaction(c: ConnectionState?) returns (ok: bool)
      requires Repr() && Good(net) && (c != null ==> Enabled(net, AcquireFor(c)))
      modifies this`freeTransactions, this`readyTransactions, this`net, net.place.Keys
      ensures Repr() && Good(net) && net == if c == null then old(net) else Next(old(net), AcquireFor(c))
      ensures ok ==> c != null && net.ready != [] && Owns(net, net.ready[0], c) && Is(net, net.ready[0], Acquired)
      ensures !ok ==> c == null || old(net).free == []
    {
      hide Lists, AllMatch, AllServe, Inside, Good, Joined;
      ghost var n := net;
      if c == null {
        return false;
      }
      StepKeeps(n, AcquireFor(c));
      ReadyHead(freeTransactions, readyTransactions, writingTransactions, n);
      FreeHead(freeTransactions, readyTransactions, writingTransactions, n);
      AcquiredIs(n, c);
      var current := readyTransactions;
      if current != null && current.cs == c && current.status == Acquired {
        return true;
      }
      ok := freeTransactions != null;
      if ok {
        GoodIsValid(n);
        Join(c, Acquired, true);
      }
    }

    /** The first ready transaction, or the first one of a connection, which then moves to the front. */
    method GetTransaction(c: ConnectionState?) returns (t: NetworkTransaction?)
      requires Repr() && Good(net) && (c != null ==> Enabled(net, GetFor(c)))
      modifies this`readyTransactions, this`net, net.place.Keys`next
      ensures Repr() && Good(net) && net == if c == null then old(net) else Next(old(net), GetFor(c))
      ensures t != null ==> First(net.ready, t) && (c != null ==> Owns(net, t, c))
      ensures t == null ==> if c == null then net.ready == [] else forall x | x in net.ready :: !Owns(net, x, c)
    {
      hide Lists, AllMatch, AllServe, Inside, Good, Get, List;
      ghost var n := net;
      ReadyHead(freeTransactions, readyTransactions, writingTransactions, n);
      FreeHead(freeTransactions, readyTransactions, writingTransactions, n);
      if c == null {
        return readyTransactions;
      }
      StepKeeps(n, GetFor(c));
      if readyTransactions == null || readyTransactions.cs == c {
        GetNothing(n, c);
        return readyTransactions;
      }
      t := MoveFirst(c);
      GetIs(n, c);
    }

    method MoveFirst(c: ConnectionState) returns (t: NetworkTransaction?)
      requires Repr() && Good(net) && c in net.queue && net.ready != [] && !Owns(net, net.ready[0], c)
      modifies this`readyTransactions, this`net, net.place.Keys`next
      ensures Repr() && net == Get(old(net), c)
      ensures t != null ==> First(net.ready, t) && Owns(net, t, c)
      ensures t == null ==> forall x | x in net.ready :: !Owns(net, x, c)
    {
      hide *;
      ghost var n := net;
      ReprParts(this);
      NotFirst(freeTransactions, readyTransactions, writingTransactions, n, c);
      t := FindReady(c);
      if t == null {
        NotFound(n, c);
      } else {
        Found(n, c, t);
        MovedFirst(n, c, t);
      }
      GetHolds(this, n, c);
      Become(Get(n, c));
    }

    method FindReady(c: ConnectionState) returns (t: NetworkTransaction?)
      requires Lists(freeTransactions, readyTransactions, writingTransactions, net) && Inside(net)
      requires readyTransactions != null && readyTransactions.cs != c
      modifies this`readyTransactions, net.place.Keys`next
      ensures Lists(freeTransactions, readyTransactions, writingTransactions,
                    if t == null then net else net.(ready := [t] + Minus(net.ready, {t})))
      ensures if t == null then forall i | 0 <= i < |net.ready| :: net.ready[i].cs != c else FirstOf(net.ready, c, t)
    {
      hide List, Minus, FirstOf;
      InsideReady(net);
      readyTransactions, t := FindAndMove(readyTransactions, c, net.ready);
      if t != null {
        FirstIn(net.ready, c, t);
        MovedApart(net.ready, t, net.free);
        MovedApart(net.ready, t, net.writing);
      }
    }

    /** Takes the transactions of a connection off the ready list and releases them, all but the one given. */
    method DropReady(c: ConnectionState, t: NetworkTransaction?, ghost skip: set<T>)
      requires Repr() && Owned(net) && Skips(net, c, t, skip) && Quiet(net, Of(net, c) - skip)
      modifies this`freeTransactions, this`readyTransactions, this`net, net.place.Keys
      ensures Repr() && net == Dropped(old(net), Of(old(net), c), skip)
      ensures t != null ==> t.sendBuffer == old(t.sendBuffer) && t.sendStack == old(t.sendStack)
    {
      hide *;
      ghost var n, k, s := net, 0, Of(net, c);
      var previous: NetworkTransaction?, item: NetworkTransaction? := null, readyTransactions;
      ReprParts(this);
      DropStart(n, s, skip, readyTransactions);
      while item != null
        invariant k <= |n.ready| && net == Dropping(n, s, skip, k) && Repr()
        invariant previous == LastOf(Minus(n.ready[..k], s)) && item == At(n.ready, k)
        invariant t != null ==> t.sendBuffer == old(t.sendBuffer) && t.sendStack == old(t.sendStack)
        decreases |n.ready| - k
      {
        ReprParts(this);
        DropItem(n, c, t, skip, k);
        if item.cs == c {
          item := DropOne(c, t, previous, item, n, skip, k);
        } else {
          DropKeep(n, s, skip, k, readyTransactions);
          previous := item;
          item := item.next;
        }
        k := k + 1;
      }
      DropEnd(n, s, skip, k);
    }

    /** Takes one transaction of the connection off the ready list, and releases it unless it is the one given. */
    method DropOne(c: ConnectionState, t: NetworkTransaction?, previous: NetworkTransaction?, item: NetworkTransaction,
                   ghost n: Net, ghost skip: set<T>, ghost k: nat)
      returns (next: NetworkTransaction?)
      requires k < |n.ready| && item == n.ready[k] && item in Of(n, c) && (item == t <==> item in skip)
      requires Repr() && net == Dropping(n, Of(n, c), skip, k) && Quiet(n, Of(n, c) - skip) && NoDup(n.ready)
      requires var j := |Minus(n.ready[..k], Of(n, c))|;
        j < |net.ready| && net.ready[j] == item && previous == if j == 0 then null else net.ready[j - 1]
      requires previous == LastOf(Minus(n.ready[..k], Of(n, c)))
      modifies this`freeTransactions, this`readyTransactions, this`net, net.place.Keys
      ensures Repr() && net == Dropping(n, Of(n, c), skip, k + 1) && next == At(n.ready, k + 1)
      ensures previous == LastOf(Minus(n.ready[..k + 1], Of(n, c)))
      ensures t != null ==> t.sendBuffer == old(t.sendBuffer) && t.sendStack == old(t.sendStack)
    {
      hide *;
      ghost var s := Of(n, c);
      ReprParts(this);
      if item == t {
        SkipReady(previous, item, |Minus(n.ready[..k], s)|);
        DropSkip(n, s, skip, k);
      } else {
        DropQuiet(n, c, skip, k);
        // Discarding it releases it and does no more.
        assert item.status != Status.Released && item.status != Disconnected;
        Release(item);
        DropGive(n, s, skip, k);
      }
      ReprParts(this);
      DropNext(n, s, skip, k, readyTransactions);
      next := if previous == null then readyTransactions else previous.next;
    }

    /** Takes one transaction off the ready list, given the one before it. */
    method SkipReady(previous: NetworkTransaction?, item: NetworkTransaction, ghost j: nat)
      requires Repr() && j < |net.ready| && item == net.ready[j]
      requires previous == if j == 0 then null else net.ready[j - 1]
      modifies this`readyTransactions, this`net, net.place.Keys`next
      ensures Repr() && net == old(net).(ready := Minus(old(net).ready, {item}))
    {
      hide Lists, AllMatch, AllServe, Inside, Minus;
      ghost var n := net;
      Bypass(previous, item, j);
      net := n.(ready := Minus(n.ready, {item}));
      BypassParts(n, item);
    }

    method Bypass(previous: NetworkTransaction?, item: NetworkTransaction, ghost j: nat)
      requires Lists(freeTransactions, readyTransactions, writingTransactions, net) && Inside(net)
      requires j < |net.ready| && item == net.ready[j] && previous == if j == 0 then null else net.ready[j - 1]
      modifies this`readyTransactions, net.place.Keys`next
      ensures Lists(freeTransactions, readyTransactions, writingTransactions, net.(ready := Minus(net.ready, {item})))
    {
      hide Minus, List;
      InsideReady(net);
      readyTransactions := UnlinkAfter(readyTransactions, previous, item, net.ready, j);
      MinusApart(net.ready, item, net.free);
      ApartSym(net.ready, net.writing);
      MinusApart(net.ready, item, net.writing);
    }

    /** Called when a connection is being closed or has gone down unexpectedly. */
    method ConnectionClosed(c: ConnectionState)
      requires Repr() && Good(net) && c in net.queue && NoGoodbye(net, c)
      modifies this`freeTransactions, this`readyTransactions, this`writingTransactions, this`sendingConnection, this`net
      modifies net.place.Keys, c
      ensures Repr() && Good(net) && net == Close(old(net), c) && !c.isConnected
    {
      hide *;
      ghost var n := net;
      CloseGood(n, c);
      CutOffParts(n, c);
      CutOff(c);
      DropReady(c, null, {});
      CutGood(n, c);
      ReleaseQueue(c);
      Forget(c);
      ClosedIs(n, c);
    }

    /** No more data is sent or expected. */
    method CutOff(c: ConnectionState)
      requires Repr() && c in net.queue
      modifies this`sendingConnection, this`net, c`isConnected
      ensures Repr() && net == Cut(old(net), c) && !c.isConnected
    {
      hide Lists, AllMatch, AllServe, Inside, Cut;
      ghost var n := net;
      if c == sendingConnection {
        sendingConnection := null;
      }
      Disconnect(c, n);
      net := Cut(n, c);
      CutParts(n, c);
      ListsSame(n, net, freeTransactions, readyTransactions, writingTransactions);
    }

    /** Releases the transactions queued behind the sending one, and then that one. */
    method ReleaseQueue(c: ConnectionState)
      requires Repr() && Valid(net) && c in net.queue
      modifies this`freeTransactions, this`readyTransactions, this`writingTransactions, this`net, net.place.Keys
      ensures Repr() && net == Emptied(old(net), c)
    {
      hide *;
      ghost var n, q, k := net, net.queue[c], 1;
      ReprParts(this);
      var sending := c.sendingTransaction;
      LeavingHead(n, c);
      EmptyStart(n, c);
      if sending != null {
        var nextWrite := sending.nextWrite;
        while nextWrite != null
          invariant 1 <= k <= |q| && net == Emptying(n, q, k) && Repr() && nextWrite == At(q, k)
          decreases |q| - k
        {
          ReprParts(this);
          EmptyItem(n, c, k);
          var temp := nextWrite;
          nextWrite := nextWrite.nextWrite;
          assert temp.status == Sending;  // so discarding it releases it and does no more
          Release(temp);
          EmptyStep(n, c, k);
          k := k + 1;
        }
        ReprParts(this);
        StillSending(n, c, k, 0);
        EmptyLast(n, c, k);
        StopWriting(sending);
        assert sending.status == Sending;
        Release(sending);
        EmptyEnd(n, c, k);
      }
    }

    /** Takes a transaction off the writing list. */
    method StopWriting(t: NetworkTransaction)
      requires Repr()
      modifies this`writingTransactions, this`net, net.place.Keys`next
      ensures Repr() && net == old(net).(writing := Minus(old(net).writing, {t}))
    {
      hide Lists, AllMatch, AllServe, Inside, Minus;
      ghost var n := net;
      UnlinkWriting(t);
      net := n.(writing := Minus(n.writing, {t}));
      StoppedParts(n, t);
    }

    method UnlinkWriting(t: NetworkTransaction)
      requires Lists(freeTransactions, readyTransactions, writingTransactions, net) && Inside(net)
      modifies this`writingTransactions, net.place.Keys`next
      ensures Lists(freeTransactions, readyTransactions, writingTransactions, net.(writing := Minus(net.writing, {t})))
    {
      hide Minus, List;
      InsideWriting(net);
      writingTransactions := Unlink(writingTransactions, t, net.writing);
      MinusApart(net.writing, t, net.free);
      MinusApart(net.writing, t, net.ready);
    }

    /** A connection whose queue has been released is no longer open. */
    ghost method Forget(c: ConnectionState)
      requires Repr() && c in net.queue && c !in net.connected && net.window != Some(c)
      modifies this`net
      ensures Repr() && net == Unqueued(old(net), c)
    {
      hide Lists, AllMatch, AllServe, Inside;
      ghost var n := net;
      net := Unqueued(n, c);
      ForgetParts(n, c);
      ListsSame(n, net, freeTransactions, readyTransactions, writingTransactions);
    }
  }

  /** The connections that were open and no longer are have lost their protocol control blocks. */
  ghost predicate Gone(was: set<C>, n: Net)
    reads was`isConnected
  {
    forall c | c in was && c !in n.queue :: !c.isConnected
  }

  lemma {:induction false} NoneGone(was: set<C>, n: Net)
    requires was <= n.queue.Keys
    ensures Gone(was, n)
  {
  }

  lemma {:induction false} OneGone(was: set<C>, n: Net, c: C)
    requires was - {c} <= n.queue.Keys && !c.isConnected
    ensures Gone(was, n)
  {
  }

  lemma {:induction false} ClosedKeys(n: Net, c: C)
    requires c in n.queue
    ensures n.queue.Keys - {c} <= Close(n, c).queue.Keys
  {
    hide GiveUp, CloseQueue;
    GiveUpRest(n, Of(n, c));
    assert Close(n, c).queue == n.queue - {c};
  }

  // ---------------------------------------------------------------- dropping the ready transactions of a connection

  method UnlinkAfter(head: NetworkTransaction?, previous: NetworkTransaction?, item: NetworkTransaction,
                     ghost items: seq<T>, ghost j: nat)
    returns (head': NetworkTransaction?)
    requires List(head, items) && j < |items| && item == items[j] && previous == if j == 0 then null else items[j - 1]
    modifies items`next
    ensures List(head', Minus(items, {item}))
  {
    hide Minus;
    MinusOne(items, item, j);
    head' := head;
    if previous == null {
      head' := item.next;
    } else {
      previous.next := item.next;
    }
    assert forall i | j <= i < |items| - 1 :: Minus(items, {item})[i] == items[i + 1];
  }

  ghost predicate Owned(n: Net) { forall i | 0 <= i < |n.ready| :: n.ready[i] in n.owner }

  ghost predicate Skips(n: Net, c: C, t: NetworkTransaction?, skip: set<T>) {
    skip == (if t == null then {} else {t}) && skip <= Of(n, c)
  }

  /** None of some ready transactions announces the end of its connection. */
  ghost predicate Quiet(n: Net, some: set<T>) {
    forall i | 0 <= i < |n.ready| && n.ready[i] in some ::
      n.ready[i] in n.status && n.status[n.ready[i]] != Status.Released && n.status[n.ready[i]] != Disconnected
  }

  ghost function Dropped(n: Net, s: set<T>, skip: set<T>): Net {
    Freed(n, Only(n.ready, s - skip)).(ready := Minus(n.ready, s))
  }

  /** The same after k members of the ready list have been looked at. */
  ghost function Dropping(n: Net, s: set<T>, skip: set<T>, k: nat): (m: Net)
    requires k <= |n.ready|
    ensures m.place.Keys == n.place.Keys
  {
    Freed(n, Only(n.ready[..k], s - skip)).(ready := Minus(n.ready[..k], s) + n.ready[k..])
  }

  lemma {:induction false} ReprParts(w: Network)
    requires w.Repr()
    ensures Inside(w.net) && Lists(w.freeTransactions, w.readyTransactions, w.writingTransactions, w.net)
    ensures AllMatch(w.net) && AllServe(w.net) && WindowMatches(w.sendingConnection, w.sentDataOutstanding, w.net)
    ensures List(w.readyTransactions, w.net.ready) && NoDup(w.net.ready)
    ensures forall i | 0 <= i < |w.net.ready| ::
      w.net.ready[i] in w.net.place && w.net.ready[i] !in w.net.free && w.net.ready[i] !in w.net.writing
  {
    InsideReady(w.net);
  }

  lemma {:induction false} LetGoHolds(w: Network, n: Net, t: T)
    requires Lists(w.freeTransactions, w.readyTransactions, w.writingTransactions, LetGo(n, t))
    requires AllMatch(LetGo(n, t)) && AllServe(n) && Inside(n) && t in n.place
    requires WindowMatches(w.sendingConnection, w.sentDataOutstanding, n)
    ensures w.Holds(LetGo(n, t))
  {
    hide LetGo, AllMatch, AllServe, Inside, Lists;
    LetGoInside(n, t);
    LetGoRest(n, t);
    AllServeSame(n, LetGo(n, t));
  }

  lemma {:induction false} StartHolds(w: Network, all: seq<T>)
    requires AllBlank(all) && List(w.freeTransactions, all) && w.readyTransactions == w.writingTransactions == null
    requires w.sendingConnection == null
    ensures w.Holds(Start(all)) && Start(all).free == all
  {
    hide AllMatch, AllServe, Inside, AllBlank;
    StartMatches(all);
  }

  lemma {:induction false} JoinedHolds(w: Network, n: Net, c: C, s: Status, front: bool)
    requires Inside(n) && n.free != [] && n.free[0] in n.place
    requires Lists(w.freeTransactions, w.readyTransactions, w.writingTransactions, Joined(n, c, s, front))
    requires AllMatch(Joined(n, c, s, front)) && AllServe(Joined(n, c, s, front))
    requires WindowMatches(w.sendingConnection, w.sentDataOutstanding, n)
    ensures w.Holds(Joined(n, c, s, front))
  {
    hide Joined, AllMatch, AllServe, Inside, Lists;
    JoinedInside(n, c, s, front);
    JoinedRest(n, c, s, front);
  }

  lemma {:induction false} FreedNone(n: Net)
    ensures Freed(n, []) == n
  {
    assert Freed(n, []).place == n.place && Freed(n, []).status == n.status && Freed(n, []).free == n.free;
  }

  lemma {:induction false} FreedJoins(n: Net, a: seq<T>, b: seq<T>)
    ensures Freed(Freed(n, a), b) == Freed(n, a + b)
  {
    var m, o := Freed(Freed(n, a), b), Freed(n, a + b);
    assert m.place == o.place;
    assert m.status == o.status;
    assert m.free == o.free;
  }

  lemma {:induction false} DropStart(n: Net, s: set<T>, skip: set<T>, ready: NetworkTransaction?)
    requires List(ready, n.ready)
    ensures n == Dropping(n, s, skip, 0) && LastOf(Minus(n.ready[..0], s)) == null && ready == At(n.ready, 0)
  {
    FreedNone(n);
    assert n.ready[..0] == [] && n.ready[0..] == n.ready && [] + n.ready == n.ready;
  }

  /** The next transaction to be looked at. */
  lemma {:induction false} DropItem(n: Net, c: C, t: NetworkTransaction?, skip: set<T>, k: nat)
    requires k <= |n.ready| && Owned(n) && Skips(n, c, t, skip) && AllMatch(Dropping(n, Of(n, c), skip, k))
    requires At(n.ready, k) != null
    requires NoDup(Dropping(n, Of(n, c), skip, k).ready)
    ensures k < |n.ready| && At(n.ready, k) == n.ready[k]
    ensures var m, j := Dropping(n, Of(n, c), skip, k), |Minus(n.ready[..k], Of(n, c))|;
            && j < |m.ready| && m.ready[j] == n.ready[k]
            && LastOf(Minus(n.ready[..k], Of(n, c))) == if j == 0 then null else m.ready[j - 1]
    ensures n.ready[k] in n.place ==> (n.ready[k].cs == c <==> n.ready[k] in Of(n, c))
    ensures n.ready[k] == t <==> n.ready[k] in skip
  {
    hide Minus, Only, NoDup, Matches;
    var m := Dropping(n, Of(n, c), skip, k);
    var x := n.ready[k];
    if x in n.place {
      FreedStays(n, Only(n.ready[..k], Of(n, c) - skip), x);
      assert Matches(m, x);
      MatchesOwner(m, x);
    }
  }

  lemma {:induction false} DropQuiet(n: Net, c: C, skip: set<T>, k: nat)
    requires k < |n.ready| && NoDup(n.ready) && n.ready[k] in n.place && n.ready[k] in Of(n, c) - skip
    requires Quiet(n, Of(n, c) - skip)
    requires AllMatch(Dropping(n, Of(n, c), skip, k))
    ensures n.ready[k].status != Status.Released && n.ready[k].status != Disconnected
  {
    hide Minus, Only, Matches;
    var m, x := Dropping(n, Of(n, c), skip, k), n.ready[k];
    MinusIn(n.ready[..k], Of(n, c) - skip);
    FreedStays(n, Only(n.ready[..k], Of(n, c) - skip), x);
    assert Matches(m, x);
    MatchesOwner(m, x);
  }

  lemma {:induction false} DropGive(n: Net, s: set<T>, skip: set<T>, k: nat)
    requires k < |n.ready| && NoDup(n.ready) && n.ready[k] in s && n.ready[k] !in skip
    ensures LetGo(Dropping(n, s, skip, k), n.ready[k]) == Dropping(n, s, skip, k + 1)
  {
    hide Freed, NoDup;
    DropParts(n, s, skip, k);
    FreedJoins(n, Only(n.ready[..k], s - skip), [n.ready[k]]);
    FreedReady(n, Only(n.ready[..k], s - skip), Minus(n.ready[..k], s) + n.ready[k..], [n.ready[k]]);
  }

  lemma {:induction false} FreedReady(n: Net, a: seq<T>, ready: seq<T>, b: seq<T>)
    ensures Freed(Freed(n, a).(ready := ready), b) == Freed(Freed(n, a), b).(ready := ready)
  {
  }

  /** What looking at one more member does to the two halves. */
  lemma {:induction false} DropParts(n: Net, s: set<T>, skip: set<T>, k: nat)
    requires k < |n.ready| && NoDup(n.ready)
    ensures var x, before := n.ready[k], n.ready[..k];
            && Only(n.ready[..k + 1], s - skip) == Only(before, s - skip) + (if x in s && x !in skip then [x] else [])
            && Minus(n.ready[..k + 1], s) == Minus(before, s) + (if x in s then [] else [x])
            && Minus(Minus(before, s) + n.ready[k..], {x}) == Minus(before, s) + n.ready[k + 1..]
  {
    hide Minus, Only, NoDup;
    var x, before, after := n.ready[k], n.ready[..k], n.ready[k + 1..];
    assert n.ready[..k + 1] == before + [x] && n.ready[k..] == [x] + after;
    OnlyJoins(before, [x], s - skip);
    OnlySingle(x, s - skip);
    MinusJoins(before, [x], s);
    MinusSingle(x, s);
    MinusIn(before, s);
    AwayFrom(n.ready, k);
    MinusMiddle(Minus(before, s), x, after);
  }

  lemma {:induction false} MinusSingle(x: T, s: set<T>)
    ensures Minus([x], s) == if x in s then [] else [x]
  {
    var one := [x];
    assert one[..0] == [] && Minus(one, s) == Minus(one[..0], s) + if x in s then [] else [x];
  }

  lemma {:induction false} AwayFrom(items: seq<T>, k: nat)
    requires NoDup(items) && k < |items|
    ensures items[k] !in items[..k] && items[k] !in items[k + 1..]
  {
  }

  lemma {:induction false} MinusMiddle(before: seq<T>, x: T, after: seq<T>)
    requires x !in before && x !in after
    ensures Minus(before + ([x] + after), {x}) == before + after
  {
    hide Minus;
    MinusJoins(before, [x] + after, {x});
    MinusJoins([x], after, {x});
    MinusSelf(x);
    MinusNone(before, {x});
    MinusNone(after, {x});
    assert [] + after == after;
  }

  lemma {:induction false} DropSkip(n: Net, s: set<T>, skip: set<T>, k: nat)
    requires k < |n.ready| && NoDup(n.ready) && n.ready[k] in s && n.ready[k] in skip
    ensures var m := Dropping(n, s, skip, k); m.(ready := Minus(m.ready, {n.ready[k]})) == Dropping(n, s, skip, k + 1)
  {
    hide Freed, NoDup;
    DropParts(n, s, skip, k);
    assert Only(n.ready[..k + 1], s - skip) == Only(n.ready[..k], s - skip);
    assert Minus(n.ready[..k + 1], s) == Minus(n.ready[..k], s);
  }

  lemma {:induction false} DropNext(n: Net, s: set<T>, skip: set<T>, k: nat, ready: NetworkTransaction?)
    requires k < |n.ready| && NoDup(n.ready) && n.ready[k] in s && List(ready, Dropping(n, s, skip, k + 1).ready)
    ensures var previous := LastOf(Minus(n.ready[..k], s));
            && LastOf(Minus(n.ready[..k + 1], s)) == previous
            && At(n.ready, k + 1) == if previous == null then ready else previous.next
  {
    hide Freed, Minus, Only;
    DropParts(n, s, skip, k);
    var rest := Minus(n.ready[..k], s);
    assert rest + [] == rest;
    var all := rest + n.ready[k + 1..];
    assert Dropping(n, s, skip, k + 1).ready == all;
    assert At(all, |rest|) == At(n.ready, k + 1);
    assert rest != [] ==> all[|rest| - 1] == LastOf(rest);
  }

  lemma {:induction false} DropKeep(n: Net, s: set<T>, skip: set<T>, k: nat, ready: NetworkTransaction?)
    requires k < |n.ready| && NoDup(n.ready) && n.ready[k] !in s && List(ready, Dropping(n, s, skip, k).ready)
    ensures Dropping(n, s, skip, k + 1) == Dropping(n, s, skip, k)
    ensures LastOf(Minus(n.ready[..k + 1], s)) == n.ready[k] && At(n.ready, k + 1) == n.ready[k].next
  {
    hide Freed, Minus, Only;
    DropParts(n, s, skip, k);
    var rest, x := Minus(n.ready[..k], s), n.ready[k];
    assert Only(n.ready[..k + 1], s - skip) == Only(n.ready[..k], s - skip);
    assert n.ready[k..] == [x] + n.ready[k + 1..];
    assert rest + [x] + n.ready[k + 1..] == rest + n.ready[k..];
    var all := rest + n.ready[k..];
    assert all[|rest|] == x && At(all, |rest| + 1) == At(n.ready, k + 1);
  }

  lemma {:induction false} DropEnd(n: Net, s: set<T>, skip: set<T>, k: nat)
    requires k <= |n.ready| && At(n.ready, k) == null
    ensures Dropping(n, s, skip, k) == Dropped(n, s, skip)
  {
    assert n.ready[..k] == n.ready && n.ready[k..] == [] && Minus(n.ready, s) + [] == Minus(n.ready, s);
  }

  lemma {:induction false} ApartSym(a: seq<T>, b: seq<T>)
    requires Apart(a, b)
    ensures Apart(b, a)
  {
  }

  lemma {:induction false} BypassParts(n: Net, t: T)
    requires AllMatch(n) && AllServe(n) && Inside(n)
    ensures var m := n.(ready := Minus(n.ready, {t})); AllMatch(m) && AllServe(m) && Inside(m)
  {
    hide Minus, Matches, Serves;
    var m := n.(ready := Minus(n.ready, {t}));
    HasMinus(n.ready, {t});
    forall x | x in m.place ensures Matches(m, x) {
      MatchesAgree(n, m, x);
    }
    AllServeSame(n, m);
  }

  // ---------------------------------------------------------------- closing a connection

  ghost function Cut(n: Net, c: C): (m: Net)
    ensures m.queue == n.queue && m.place == n.place
  {
    n.(connected := n.connected - {c}, window := if InWindow(n, c) then None else n.window)
  }

  method Disconnect(c: ConnectionState, ghost n: Net)
    requires AllServe(n) && c in n.queue
    modifies c`isConnected
    ensures AllServe(Cut(n, c)) && !c.isConnected
  {
    hide QueueLinked;
    assert forall d | d in n.queue :: Linking(n, d) && (d.isConnected <==> d in n.connected);
    c.isConnected := false;
    ghost var m := Cut(n, c);
    forall d | d in m.queue ensures Serves(m, d) {
      assert Linking(n, d);
    }
  }

  lemma {:induction false} CutParts(n: Net, c: C)
    requires AllMatch(n) && Inside(n)
    ensures var m := Cut(n, c);
            && AllMatch(m) && Inside(m) && m.free == n.free && m.ready == n.ready && m.writing == n.writing
            && m.outstanding == n.outstanding
            && m.window == if InWindow(n, c) then None else n.window
  {
    hide Matches;
    forall x | x in n.place ensures Matches(Cut(n, c), x) {
      MatchesAgree(n, Cut(n, c), x);
    }
  }

  lemma {:induction false} CutOffParts(n: Net, c: C)
    requires Good(n) && c in n.queue
    requires NoGoodbye(n, c)
    ensures var m := Cut(n, c); Owned(m) && Skips(m, c, null, {}) && Of(m, c) == Of(n, c) && Quiet(m, Of(m, c) - {})
  {
    hide Queued, Streams, Windowed, Goodbyes, Inside, NoRepeats;
    Held(n);
    forall i | 0 <= i < |n.ready|
      ensures n.ready[i] in n.place && Placed(n, n.ready[i]) && n.place[n.ready[i]] == Ready
    {
      assert n.ready[i] in n.ready;
    }
  }

  ghost function Emptied(n: Net, c: C): Net
    requires c in n.queue
  {
    var q := n.queue[c];
    if q == [] then n else Freed(n, q[1..] + [q[0]]).(writing := Minus(n.writing, {q[0]}))
  }

  ghost function Emptying(n: Net, q: seq<T>, k: nat): (m: Net)
    requires 1 <= k <= |q|
    ensures m.place.Keys == n.place.Keys
  {
    Freed(n, q[1..k])
  }

  lemma {:induction false} CutGood(n: Net, c: C)
    requires Good(n) && c in n.queue
    ensures var m := Dropped(Cut(n, c), Of(Cut(n, c), c), {});
            && Valid(m) && c in m.queue && m.place.Keys == n.place.Keys
            && var e := Emptied(m, c); c in e.queue && c !in e.connected && e.window != Some(c)
  {
    hide Good, Freed;
    var o := Cut(n, c);
    CutValid(n, c);
    GiveUpKeeps(o, Of(o, c));
    FreedRest(o, Only(o.ready, Of(o, c)));
    assert Of(o, c) - {} == Of(o, c);
    var m := Dropped(o, Of(o, c), {});
    if m.queue[c] != [] {
      FreedRest(m, m.queue[c][1..] + [m.queue[c][0]]);
    }
  }

  lemma {:induction false} CutValid(n: Net, c: C)
    requires Good(n)
    ensures Valid(Cut(n, c)) && c !in Cut(n, c).connected && Cut(n, c).window != Some(c)
  {
    SameValid(n, Cut(n, c));
  }

  lemma {:induction false} EmptyStart(n: Net, c: C)
    requires c in n.queue && AllServe(n)
    ensures n.queue[c] == [] ==> Emptied(n, c) == n && At(n.queue[c], 0) == null
    ensures n.queue[c] != [] ==>
      && 1 <= |n.queue[c]| && n == Emptying(n, n.queue[c], 1) && At(n.queue[c], 0) == n.queue[c][0]
      && n.queue[c][0].nextWrite == At(n.queue[c], 1)
  {
    FreedNone(n);
    assert Serves(n, c);
    var q := n.queue[c];
    if q != [] {
      assert q[1..1] == [];
    }
  }

  /** A waiting transaction is on none of the lists. */
  lemma {:induction false} WaitingAway(n: Net, c: C, k: nat)
    requires Valid(n) && c in n.queue && 1 <= k < |n.queue[c]|
    ensures var t := n.queue[c][k];
      t in n.place && t !in n.free && t !in n.ready && t !in n.writing && t !in n.queue[c][1..k]
  {
    hide Inside;
    var q := n.queue[c];
    assert q[k] in q && Queued(n, c, q[k]) && Placed(n, q[k]) && NoDup(q);
  }

  lemma {:induction false} EmptyItem(n: Net, c: C, k: nat)
    requires Valid(n) && c in n.queue && 1 <= k <= |n.queue[c]| && At(n.queue[c], k) != null
    requires AllServe(Emptying(n, n.queue[c], k)) && AllMatch(Emptying(n, n.queue[c], k))
    ensures k < |n.queue[c]|
    ensures var m, t := Emptying(n, n.queue[c], k), n.queue[c][k];
            && At(n.queue[c], k) == t && t in m.place && t !in m.free && t !in m.writing
            && t.nextWrite == At(n.queue[c], k + 1) && t.status == Sending
  {
    hide Valid, Freed, Matches;
    StillSending(n, c, k, k);
    WaitingAway(n, c, k);
    FreedRest(n, n.queue[c][1..k]);
    EmptyWriting(n, n.queue[c], k);
    assert Serves(Emptying(n, n.queue[c], k), c);
  }

  /** What is still to be released of a queue has the status of a sending transaction. */
  lemma {:induction false} StillSending(n: Net, c: C, k: nat, i: nat)
    requires Valid(n) && c in n.queue && 1 <= k <= |n.queue[c]| && i < |n.queue[c]| && (i == 0 || i >= k)
    requires AllMatch(Emptying(n, n.queue[c], k))
    ensures n.queue[c][i].status == Sending
  {
    hide Inside, Matches;
    var q := n.queue[c];
    assert q[i] in q && Queued(n, c, q[i]) && Placed(n, q[i]) && NoDup(q);
    FreedStays(n, q[1..k], q[i]);
    assert Matches(Emptying(n, q, k), q[i]);
    MatchesOwner(Emptying(n, q, k), q[i]);
  }

  lemma {:induction false} EmptyWriting(n: Net, q: seq<T>, k: nat)
    requires 1 <= k <= |q|
    ensures Emptying(n, q, k).writing == n.writing
  {
  }

  lemma {:induction false} EmptyStep(n: Net, c: C, k: nat)
    requires Valid(n) && c in n.queue && 1 <= k < |n.queue[c]|
    ensures LetGo(Emptying(n, n.queue[c], k), n.queue[c][k]) == Emptying(n, n.queue[c], k + 1)
  {
    hide Valid, Freed, Minus;
    var q := n.queue[c];
    WaitingAway(n, c, k);
    FreedRest(n, q[1..k]);
    MinusNone(n.ready, {q[k]});
    FreedJoins(n, q[1..k], [q[k]]);
    FreedRest(Freed(n, q[1..k]), [q[k]]);
    assert q[1..k] + [q[k]] == q[1..k + 1];
  }

  lemma {:induction false} EmptyLast(n: Net, c: C, k: nat)
    requires Valid(n) && c in n.queue && 1 <= k <= |n.queue[c]| && At(n.queue[c], k) == null
    ensures k == |n.queue[c]|
    ensures var m := Emptying(n, n.queue[c], k); var o := m.(writing := Minus(m.writing, {n.queue[c][0]}));
            && n.queue[c][0] in o.place && n.queue[c][0] !in o.free && n.queue[c][0] !in o.writing
            && o.place.Keys == n.place.Keys
  {
    hide Inside, Minus, Freed;
    var q := n.queue[c];
    assert q[0] in q && Queued(n, c, q[0]) && Placed(n, q[0]) && NoDup(q);
    FreedRest(n, q[1..k]);
    var m := Emptying(n, q, k);
    HasMinus(m.writing, {q[0]});
  }

  lemma {:induction false} EmptyEnd(n: Net, c: C, k: nat)
    requires Valid(n) && c in n.queue && k == |n.queue[c]| > 0
    ensures var m := Emptying(n, n.queue[c], k);
      LetGo(m.(writing := Minus(m.writing, {n.queue[c][0]})), n.queue[c][0]) == Emptied(n, c)
  {
    hide Inside, Minus;
    var q := n.queue[c];
    assert q[0] in q && Queued(n, c, q[0]) && Placed(n, q[0]);
    MinusNone(n.ready, {q[0]});
    FreedJoins(n, q[1..k], [q[0]]);
    assert q[1..k] == q[1..];
  }

  lemma {:induction false} InsideWriting(n: Net)
    requires Inside(n)
    ensures forall i | 0 <= i < |n.writing| :: n.writing[i] in n.place
  {
  }

  lemma {:induction false} StoppedParts(n: Net, t: T)
    requires AllMatch(n) && AllServe(n) && Inside(n)
    ensures var m := n.(writing := Minus(n.writing, {t})); AllMatch(m) && AllServe(m) && Inside(m)
  {
    hide Minus, Matches, Serves;
    var m := n.(writing := Minus(n.writing, {t}));
    HasMinus(n.writing, {t});
    forall x | x in m.place ensures Matches(m, x) {
      MatchesAgree(n, m, x);
    }
    AllServeSame(n, m);
  }

  lemma {:induction false} ForgetParts(n: Net, c: C)
    requires AllMatch(n) && AllServe(n) && Inside(n) && c !in n.connected && n.window != Some(c)
    ensures var m := Unqueued(n, c);
            && AllMatch(m) && AllServe(m) && Inside(m) && m.window == n.window && m.outstanding == n.outstanding
            && m.free == n.free && m.ready == n.ready && m.writing == n.writing
  {
    hide Matches, Placed, QueueLinked;
    var m := Unqueued(n, c);
    forall x | x in m.place ensures Matches(m, x) {
      MatchesAgree(n, m, x);
    }
    forall d | d in m.queue ensures Serves(m, d) {
      assert Serves(n, d);
    }
  }

  /** Cutting off first or last makes no difference. */
  lemma {:induction false} ClosedIs(n: Net, c: C)
    requires Good(n) && c in n.queue
    ensures Unqueued(Emptied(Dropped(Cut(n, c), Of(Cut(n, c), c), {}), c), c) == Close(n, c)
  {
    hide Good, Freed, Minus, Only;
    var s := Of(n, c);
    assert Of(Cut(n, c), c) == s && s - {} == s;
    var m, gone, q := GiveUp(n, s), Only(n.ready, s), n.queue[c];
    FreedCut(n, c, gone);
    assert Dropped(Cut(n, c), s, {}) == Cut(m, c);
    FreedRest(n, gone);
    assert Unqueued(Cut(m, c), c) == Unqueued(m, c);
    if q != [] {
      FreedUnqueued(Cut(m, c), c, q[1..] + [q[0]]);
    }
  }

  lemma {:induction false} FreedCut(n: Net, c: C, gone: seq<T>)
    ensures Freed(Cut(n, c), gone) == Cut(Freed(n, gone), c)
  {
  }

  lemma {:induction false} FreedUnqueued(n: Net, c: C, gone: seq<T>)
    ensures Unqueued(Freed(n, gone), c) == Freed(Unqueued(n, c), gone)
  {
  }

  // ---------------------------------------------------------------- connections

  /** A connection state taken into use. */
  method Init(c: ConnectionState, ghost n: Net)
    requires AllServe(n) && c !in n.queue
    modifies c`isConnected, c`sendingTransaction, c`persistConnection, c`next
    ensures AllServe(Opened(n, c))
  {
    hide Serves;
    c.isConnected, c.next, c.sendingTransaction, c.persistConnection := true, null, null, true;
    ghost var m := Opened(n, c);
    forall d | d in m.queue ensures Serves(m, d) {
      if d == c {
        InitServes(n, c);
      } else {
        InitOthers(n, c, d);
      }
    }
  }

  lemma {:induction false} InitServes(n: Net, c: C)
    requires c.isConnected && c.persistConnection && c.sendingTransaction == null
    ensures Serves(Opened(n, c), c)
  {
  }

  lemma {:induction false} InitOthers(n: Net, c: C, d: C)
    requires d != c && d in n.queue && Serves(n, d)
    ensures Serves(Opened(n, c), d)
  {
  }

  lemma {:induction false} OpenedParts(n: Net, c: C)
    ensures var m := Opened(n, c);
            && m.free == n.free && m.ready == n.ready && m.writing == n.writing && m.place == n.place
            && m.window == n.window && m.outstanding == n.outstanding
    ensures AllMatch(n) ==> AllMatch(Opened(n, c))
    ensures Inside(n) ==> Inside(Opened(n, c))
  {
    if AllMatch(n) {
      forall t | t in n.place ensures Matches(Opened(n, c), t) {
        assert Matches(n, t);
        MatchesAgree(n, Opened(n, c), t);
      }
    }
  }

  lemma {:induction false} ListsSame(n: Net, m: Net, free: NetworkTransaction?, ready: NetworkTransaction?,
                                     writing: NetworkTransaction?)
    requires Lists(free, ready, writing, n) && m.free == n.free && m.ready == n.ready && m.writing == n.writing
    ensures Lists(free, ready, writing, m)
  {
  }

  lemma {:induction false} FreeHead(free: NetworkTransaction?, ready: NetworkTransaction?,
                                    writing: NetworkTransaction?, n: Net)
    requires Lists(free, ready, writing, n)
    ensures (free == null <==> n.free == []) && (ready == null <==> n.ready == [])
    ensures (writing == null <==> n.writing == [])
  {
  }

  lemma {:induction false} GoodIsValid(n: Net)
    requires Good(n)
    ensures Valid(n)
  {
  }

  lemma {:induction false} ReceivedIs(n: Net, c: C)
    requires Good(n) && Enabled(n, Received(c)) && n.free != []
    ensures Next(n, Received(c)) == Joined(n, c, Receiving, false)
  {
    hide Good;
  }

  lemma {:induction false} AcceptedIs(n: Net, c: C)
    requires Good(n) && Enabled(n, Accepted(c)) && n.free != [] && Opened(n, c).free == n.free
    ensures Next(n, Accepted(c)) == Joined(Opened(n, c), c, Connected, false)
  {
    hide Good;
  }

  ghost function HeadOf(q: seq<T>): set<T> { Elements(q[..if q == [] then 0 else 1]) }

  ghost function Leaving(n: Net, c: C): (m: Net)
    requires c in n.queue
    ensures m.queue == n.queue
  {
    Marked(n, n.connected - {c}, n.persist, n.closing + HeadOf(n.queue[c]))
  }

  method Leave(c: ConnectionState, ghost n: Net)
    requires AllMatch(n) && AllServe(n) && c in n.queue
    modifies c`isConnected, n.place.Keys`closeRequested
    ensures AllMatch(Leaving(n, c)) && AllServe(Leaving(n, c))
  {
    hide MatchesData, QueueLinked, Leaving;
    var t := c.sendingTransaction;
    LeavingHead(n, c);
    assert forall d | d in n.queue :: Linking(n, d) && (d.isConnected <==> d in n.connected);
    assert forall x | x in n.place :: Matches(n, x);
    c.isConnected := false;
    if t != null {
      t.closeRequested := true;
    }
    ghost var m := Leaving(n, c);
    LeavingParts(n, c);
    forall x | x in m.place ensures Matches(m, x) {
      LeavingMatches(n, c, x);
    }
    forall d | d in m.queue ensures Serves(m, d) {
      LeavingServes(n, c, d);
    }
  }

  lemma {:induction false} LeavingHead(n: Net, c: C)
    requires AllServe(n) && c in n.queue
    ensures c.sendingTransaction == At(n.queue[c], 0) && (n.queue[c] != [] ==> n.queue[c][0] in n.place)
  {
    assert Serves(n, c);
    assert n.queue[c] != [] ==> n.queue[c][0] in n.queue[c];
  }

  ghost predicate Linking(n: Net, c: C)
    requires c in n.queue
    reads c`sendingTransaction, c`persistConnection, n.queue[c]`nextWrite
  {
    c.sendingTransaction == At(n.queue[c], 0) && QueueLinked(n.queue[c]) && (c.persistConnection <==> c in n.persist)
  }

  lemma {:induction false} LeavingMatches(n: Net, c: C, x: T)
    requires c in n.queue && x in n.place && MatchesData(n, x)
    requires x.closeRequested <==> x in n.closing || First(n.queue[c], x)
    ensures Matches(Leaving(n, c), x)
  {
    assert x in HeadOf(n.queue[c]) <==> First(n.queue[c], x);
  }

  lemma {:induction false} LeavingServes(n: Net, c: C, d: C)
    requires c in n.queue && d in n.queue && Linking(n, d) && (d.isConnected <==> d in n.connected && d != c)
    ensures Serves(Leaving(n, c), d)
  {
  }

  lemma {:induction false} LeavingParts(n: Net, c: C)
    requires c in n.queue
    ensures var m := Leaving(n, c);
            && m.free == n.free && m.ready == n.ready && m.writing == n.writing && m.place == n.place
            && m.queue == n.queue
            && m.window == n.window && m.outstanding == n.outstanding
  {
  }

  lemma {:induction false} LeavingInside(n: Net, c: C)
    requires c in n.queue && Inside(n)
    ensures Inside(Leaving(n, c))
  {
  }

  lemma {:induction false} LeavingGood(n: Net, c: C)
    requires Good(n) && c in n.queue
    ensures Good(Leaving(n, c)) && Valid(Leaving(n, c))
  {
    MarkedGood(n, n.connected - {c}, n.persist, n.closing + HeadOf(n.queue[c]));
  }

  lemma {:induction false} NotGracefully(n: Net, c: C)
    requires Good(n) && Enabled(n, ClosedGracefully(c)) && n.free == []
    ensures Next(n, ClosedGracefully(c)) == n
  {
  }

  /** The free transaction that announces the end is not the one that sends. */
  lemma {:induction false} GracefullyIs(n: Net, c: C)
    requires Good(n) && Enabled(n, ClosedGracefully(c)) && n.free != [] && c in n.queue
    ensures Next(n, ClosedGracefully(c)) == Joined(Leaving(n, c), c, Disconnected, false)
  {
    hide Placed, Queued, Streams, Windowed, Goodbyes;
    Held(n);
    assert n.free[0] in n.free;
    QueueHolds(n, c, n.free[0]);
    assert n.free[0] !in HeadOf(n.queue[c]);
    assert Graceful(n, c).closing == Joined(Leaving(n, c), c, Disconnected, false).closing;
  }

  lemma {:induction false} ReadyHead(free: NetworkTransaction?, ready: NetworkTransaction?,
                                     writing: NetworkTransaction?, n: Net)
    requires Lists(free, ready, writing, n) && AllMatch(n) && Good(n)
    ensures ready != null ==>
      && n.ready != [] && ready == n.ready[0] && ready in n.owner && ready in n.status && ready.cs == n.owner[ready]
      && ready.status == n.status[ready]
  {
    hide Placed, Queued, Streams, Windowed, Goodbyes;
    Held(n);
    assert ready != null ==> ready in n.ready && Matches(n, ready);
  }

  lemma {:induction false} AcquiredIs(n: Net, c: C)
    requires Good(n) && Enabled(n, AcquireFor(c))
    ensures var found := n.ready != [] && Owns(n, n.ready[0], c) && Is(n, n.ready[0], Acquired);
      Next(n, AcquireFor(c)) == if found || n.free == [] then n else Joined(n, c, Acquired, true)
    ensures n.free != [] ==>
      var m := Joined(n, c, Acquired, true); m.ready != [] && Owns(m, m.ready[0], c) && Is(m, m.ready[0], Acquired)
  {
    hide Good;
  }

  /** Finds the first transaction of a connection beyond the head of a list and moves it to the front. */
  method FindAndMove(head: NetworkTransaction, c: ConnectionState, ghost items: seq<T>)
    returns (head': NetworkTransaction, t: NetworkTransaction?)
    requires List(head, items) && head.cs != c
    modifies items`next
    ensures t == null ==> head' == head && List(head, items) && forall i | 0 <= i < |items| :: items[i].cs != c
    ensures t != null ==> List(head', [t] + Minus(items, {t})) && FirstOf(items, c, t)
  {
    hide Minus, FirstOf;
    head' := head;
    var previous, item := head, head.next;
    ghost var k := 1;
    while item != null
      invariant 1 <= k <= |items| && previous == items[k - 1] && item == At(items, k)
      invariant forall i | 0 <= i < k :: items[i].cs != c
      decreases |items| - k
    {
      if item.cs == c {
        FoundFirst(items, c, k);
        MinusOne(items, item, k);
        previous.next := item.next;
        assert forall i | k <= i < |items| - 1 :: Minus(items, {item})[i] == items[i + 1];
        assert List(head, Minus(items, {item}));
        head' := PrependTransaction(head, item, Minus(items, {item}));
        return head', item;
      }
      previous := item;
      item := item.next;
      k := k + 1;
    }
    t := null;
  }

  ghost predicate FirstOf(items: seq<T>, c: C, t: T)
    reads items`cs
  {
    exists k :: 0 <= k < |items| && items[k] == t && t.cs == c && forall i | 0 <= i < k :: items[i].cs != c
  }

  lemma {:induction false} FoundFirst(items: seq<T>, c: C, k: nat)
    requires k < |items| && items[k].cs == c && forall i | 0 <= i < k :: items[i].cs != c
    ensures FirstOf(items, c, items[k])
  {
  }

  lemma {:induction false} InsideReady(n: Net)
    requires Inside(n)
    ensures forall i | 0 <= i < |n.ready| :: n.ready[i] in n.place
  {
  }

  lemma {:induction false} FirstMine(items: seq<T>, s: set<T>, k: nat)
    requires k < |items| && items[k] in s && forall i | 0 <= i < k :: items[i] !in s
    ensures Only(items, s) != [] && Only(items, s)[0] == items[k]
  {
    hide Only;
    assert items == items[..k] + [items[k]] + items[k + 1..];
    OnlyJoins(items[..k] + [items[k]], items[k + 1..], s);
    OnlyJoins(items[..k], [items[k]], s);
    OnlySingle(items[k], s);
    MinusNone(items[..k], s);
  }

  lemma {:induction false} ReadyOwners(n: Net)
    requires Good(n) && AllMatch(n)
    ensures forall i | 0 <= i < |n.ready| ::
      && n.ready[i] in n.owner && n.ready[i].cs == n.owner[n.ready[i]] && n.ready[i] in n.status
      && n.ready[i].status == n.status[n.ready[i]]
  {
    hide Placed, Queued, Streams, Windowed, Goodbyes;
    Held(n);
    forall i | 0 <= i < |n.ready| ensures Matches(n, n.ready[i]) && n.ready[i] in n.owner && n.ready[i] in n.status {
      assert n.ready[i] in n.ready;
    }
  }

  lemma {:induction false} NotFound(n: Net, c: C)
    requires Good(n) && AllMatch(n) && forall i | 0 <= i < |n.ready| :: n.ready[i].cs != c
    ensures Get(n, c) == n && forall x | x in n.ready :: !Owns(n, x, c)
  {
    hide Good, Only, Minus, AllMatch;
    ReadyOwners(n);
    MinusNone(n.ready, Of(n, c));
  }

  lemma {:induction false} Found(n: Net, c: C, t: T)
    requires Good(n) && AllMatch(n) && FirstOf(n.ready, c, t)
    ensures Get(n, c) == n.(ready := [t] + Minus(n.ready, {t})) && Owns(n, t, c)
  {
    hide Good, Only, Minus, AllMatch;
    ReadyOwners(n);
    var k :| 0 <= k < |n.ready| && n.ready[k] == t && t.cs == c && forall i | 0 <= i < k :: n.ready[i].cs != c;
    FirstMine(n.ready, Of(n, c), k);
  }

  lemma {:induction false} FirstIn(items: seq<T>, c: C, t: T)
    requires FirstOf(items, c, t)
    ensures t in items
  {
  }

  lemma {:induction false} MovedApart(items: seq<T>, t: T, others: seq<T>)
    requires (Apart(others, items) || Apart(items, others)) && t in items
    ensures Apart([t] + Minus(items, {t}), others) && Apart(others, [t] + Minus(items, {t}))
  {
    hide Minus;
    MinusIn(items, {t});
    var all := [t] + Minus(items, {t});
    forall i | 0 <= i < |all| ensures all[i] in items {
    }
  }

  /** Nothing but the order of the ready list has changed. */
  /** The head of the ready list is another connection's. */
  lemma {:induction false} NotFirst(free: NetworkTransaction?, ready: NetworkTransaction?, writing: NetworkTransaction?,
                                    n: Net, c: C)
    requires Good(n) && AllMatch(n) && Lists(free, ready, writing, n) && n.ready != [] && !Owns(n, n.ready[0], c)
    ensures ready != null && ready.cs != c
  {
    hide Good, AllMatch;
    ReadyHead(free, ready, writing, n);
    ReadyOwners(n);
    FreeHead(free, ready, writing, n);
  }

  lemma {:induction false} MovedFirst(n: Net, c: C, t: T)
    requires Get(n, c) == n.(ready := [t] + Minus(n.ready, {t})) && Owns(n, t, c)
    ensures First(Get(n, c).ready, t) && Owns(Get(n, c), t, c)
  {
    hide Minus, Get;
  }

  lemma {:induction false} GetHolds(w: Network, n: Net, c: C)
    requires Lists(w.freeTransactions, w.readyTransactions, w.writingTransactions, Get(n, c))
    requires AllMatch(n) && AllServe(n) && Inside(n) && WindowMatches(w.sendingConnection, w.sentDataOutstanding, n)
    ensures w.Holds(Get(n, c))
  {
    hide Get, AllMatch, AllServe, Inside, Lists;
    GotParts(n, c);
  }

  lemma {:induction false} GotParts(n: Net, c: C)
    requires AllMatch(n) && AllServe(n) && Inside(n)
    ensures var m := Get(n, c); AllMatch(m) && AllServe(m) && Inside(m)
    ensures Get(n, c).window == n.window && Get(n, c).outstanding == n.outstanding && Get(n, c).owner == n.owner
  {
    hide Minus, Only, Matches, Serves;
    var m := Get(n, c);
    HasMinus(n.ready, Of(n, c));
    var mine := Only(n.ready, Of(n, c));
    if mine != [] {
      assert mine[0] in mine;
      HasMinus(n.ready, {mine[0]});
    }
    forall x | x in m.place ensures Matches(m, x) {
      MatchesAgree(n, m, x);
    }
    AllServeSame(n, m);
  }

  lemma {:induction false} GetIs(n: Net, c: C)
    requires Good(n) && Enabled(n, GetFor(c))
    ensures Next(n, GetFor(c)) == Get(n, c)
  {
    hide Good;
  }

  lemma {:induction false} GetNothing(n: Net, c: C)
    requires Good(n) && Enabled(n, GetFor(c)) && (n.ready == [] || Owns(n, n.ready[0], c))
    ensures Next(n, GetFor(c)) == n
  {
    hide Good, Minus, Only;
    GetIs(n, c);
    if n.ready == [] {
      MinusNone(n.ready, Of(n, c));
    } else {
      FirstMine(n.ready, Of(n, c), 0);
      ListsTidy(n);
      MinusOne(n.ready, n.ready[0], 0);
      assert n.ready == [n.ready[0]] + (n.ready[..0] + n.ready[1..]);
    }
  }

  lemma {:induction false} ListTidy(head: NetworkTransaction?, items: seq<T>)
    requires List(head, items)
    ensures NoDup(items) && (head == null <==> items == []) && (head != null ==> head == items[0])
  {
  }

  lemma {:induction false} FirstFree(free: NetworkTransaction?, ready: NetworkTransaction?,
                                     writing: NetworkTransaction?, n: Net)
    requires Lists(free, ready, writing, n) && n.free != [] && Inside(n)
    ensures free == n.free[0] && n.free[0] in n.place
  {
    assert n.free[0] in n.free;
  }

  lemma {:induction false} JoinedInside(n: Net, c: C, s: Status, front: bool)
    requires Inside(n) && n.free != []
    ensures Inside(Joined(n, c, s, front))
  {
    assert n.free[0] in n.free;
  }
}
