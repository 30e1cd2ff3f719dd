/** The life of the network transactions as values: which list each one is on, which connection it serves, and which
    bytes that connection still owes its client. */
module TransactionFlow {
  import opened Basics
  import opened Options
  import opened Transactions

  type T = NetworkTransaction
  type C = ConnectionState

  const TCP_WND: nat := 2 * 1460

  datatype Place = Free | Ready | Writing | Waiting(behind: C)

  datatype Net = Net(
    free: seq<T>,
    ready: seq<T>,
    writing: seq<T>,
    queue: map<C, seq<T>>,         // for each open connection its sending transaction, then those queued behind it
    place: map<T, Place>,          // where each transaction is
    owner: map<T, C>,
    status: map<T, Status>,
    connected: set<C>,             // open connections whose protocol control block is still there
    persist: set<C>,               // connections to be kept open after the last byte
    closing: set<T>,               // transactions asked to close their connection
    pending: map<T, seq<char>>,    // output not yet given to the TCP stack
    sent: map<C, seq<char>>,       // all that the TCP stack was given
    promised: map<C, seq<char>>,   // the output of all committed transactions, in the order of their commits
    window: Option<C>,             // the connection whose data are in the shared sending window
    outstanding: nat,              // what the firmware believes to be unacknowledged of it
    acked: map<C, nat>             // how much of what was sent the client has acknowledged
  )

  // ---------------------------------------------------------------- the invariant

  ghost predicate Owns(n: Net, t: T, c: C) { t in n.owner && n.owner[t] == c }

  ghost predicate Is(n: Net, t: T, s: Status) { t in n.status && n.status[t] == s }

  ghost predicate In(n: Net, t: T, p: Place) { t in n.place && n.place[t] == p }

  ghost predicate NoRepeats(n: Net) {
    NoDup(n.free) && NoDup(n.ready) && NoDup(n.writing) && forall c | c in n.queue :: NoDup(n.queue[c])
  }

  /** The lists hold nothing but the network's transactions. */
  ghost predicate Inside(n: Net) {
    && (forall t | t in n.free :: t in n.place) && (forall t | t in n.ready :: t in n.place)
    && (forall t | t in n.writing :: t in n.place)
    && forall c, t | c in n.queue && t in n.queue[c] :: t in n.place
  }

  /** A transaction is on the list of its place and on no other. A ready or writing one belongs to an open connection,
      a writing one is the first of its connection's queue, and a waiting one is further down. */
  ghost predicate Placed(n: Net, t: T)
    requires t in n.place
  {
    var p := n.place[t];
    && (t in n.free <==> p == Free) && (t in n.ready <==> p == Ready) && (t in n.writing <==> p == Writing)
    && (p == Ready || p == Writing ==> t in n.owner && n.owner[t] in n.queue)
    && (p == Ready ==> t in n.status && n.status[t] != Released)
    && (p == Writing ==> First(n.queue[n.owner[t]], t) && Is(n, t, Sending))
    && (p.Waiting? ==> p.behind in n.queue && Owns(n, t, p.behind) && t in n.queue[p.behind] && Is(n, t, Sending))
  }

  /** What is in a queue is first and writing, or waits in it. */
  ghost predicate Queued(n: Net, c: C, t: T)
    requires c in n.queue && t in n.queue[c]
  {
    Owns(n, t, c) && In(n, t, if First(n.queue[c], t) then Writing else Waiting(c))
  }

  ghost predicate Valid(n: Net) {
    && NoRepeats(n) && Inside(n) && n.connected <= n.queue.Keys
    && (forall t | t in n.place :: Placed(n, t))
    && (forall c, t | c in n.queue && t in n.queue[c] :: Queued(n, c, t))
  }

  // ---------------------------------------------------------------- the steps

  ghost function Of(n: Net, c: C): set<T> { set t | t in n.owner && n.owner[t] == c }

  ghost function Elements(items: seq<T>): set<T> { set i | 0 <= i < |items| :: items[i] }

  /** The first free transaction, prepared for a connection. */
  ghost function Prepared(n: Net, c: C, s: Status): Net
    requires n.free != []
  {
    var r := n.free[0];
    n.(free := n.free[1..], place := n.place[r := Ready], owner := n.owner[r := c], status := n.status[r := s],
       closing := n.closing - {r}, pending := n.pending[r := []])
  }

  /** Data received, or an event, for an open connection. */
  ghost function Receive(n: Net, c: C, s: Status): Net {
    if n.free == [] then n else Prepared(n, c, s).(ready := n.ready + [n.free[0]])
  }

  /** A connection without transactions. */
  ghost function Opened(n: Net, c: C): Net {
    n.(queue := n.queue[c := []], connected := n.connected + {c}, persist := n.persist + {c},
       sent := n.sent[c := []], promised := n.promised[c := []], acked := n.acked[c := 0])
  }

  ghost function Accept(n: Net, c: C): Net {
    if n.free == [] then n else Receive(Opened(n, c), c, Connected)
  }

  ghost function Graceful(n: Net, c: C): Net
    requires c in n.queue
  {
    if n.free == [] then n else
      var m := Receive(n, c, Disconnected);
      m.(connected := n.connected - {c},
         closing := m.closing + Elements(n.queue[c][..if n.queue[c] == [] then 0 else 1]))
  }

  ghost function Acquire(n: Net, c: C): Net {
    if n.ready != [] && Owns(n, n.ready[0], c) && Is(n, n.ready[0], Acquired) then n
    else if n.free == [] then n
    else Prepared(n, c, Acquired).(ready := [n.free[0]] + n.ready)
  }

  /** The first ready transaction of a connection moves to the front. */
  ghost function Get(n: Net, c: C): Net {
    var mine := Only(n.ready, Of(n, c));
    if mine == [] then n else n.(ready := [mine[0]] + Minus(n.ready, {mine[0]}))
  }

  ghost function Defer(n: Net, t: T): Net
    requires t in n.owner
  {
    n.(ready := DeferOrder(n.ready, t, Of(n, n.owner[t])), status := n.status[t := Deferred])
  }

  ghost function Freed(n: Net, gone: seq<T>): (m: Net)
    ensures m.place.Keys == n.place.Keys && m.queue == n.queue
  {
    n.(free := n.free + gone,
       place := map t | t in n.place :: if t in gone then Free else n.place[t],
       status := map t | t in n.status :: if t in gone then Released else n.status[t])
  }

  /** Some ready transactions are given up. */
  ghost function GiveUp(n: Net, some: set<T>): Net {
    Freed(n, Only(n.ready, some)).(ready := Minus(n.ready, some))
  }

  ghost function Unqueued(n: Net, c: C): (m: Net)
    ensures m.place == n.place && m.queue == n.queue - {c}
  {
    n.(queue := n.queue - {c}, connected := n.connected - {c}, window := if InWindow(n, c) then None else n.window)
  }

  /** A connection without ready transactions goes, and its queue with it. */
  ghost function CloseQueue(n: Net, c: C): (m: Net)
    requires c in n.queue
    ensures m.place.Keys == n.place.Keys && m.queue == n.queue - {c}
  {
    hide *;
    var q := n.queue[c];
    if q == [] then Unqueued(n, c) else Freed(Unqueued(n, c), q[1..] + [q[0]]).(writing := Minus(n.writing, {q[0]}))
  }

  ghost function Close(n: Net, c: C): Net
    requires c in n.queue
  {
    CloseQueue(GiveUp(n, Of(n, c)), c)
  }

  ghost function Discard(n: Net, t: T): Net
    requires t in n.owner && n.owner[t] in n.queue
  {
    var m := GiveUp(n, {t});
    if Is(n, t, Disconnected) then Close(m, n.owner[t]) else m
  }

  /** A ready transaction joins the queue of its connection. */
  ghost function Enqueue(n: Net, t: T): Net
    requires t in n.owner && n.owner[t] in n.queue && t in n.pending && n.owner[t] in n.promised
  {
    var c := n.owner[t];
    var first := n.queue[c] == [];
    n.(ready := Minus(n.ready, {t}),
       writing := if first then n.writing + [t] else n.writing,
       queue := n.queue[c := n.queue[c] + [t]],
       place := n.place[t := if first then Writing else Waiting(c)],
       status := n.status[t := Sending],
       promised := n.promised[c := n.promised[c] + n.pending[t]])
  }

  ghost function Commit(n: Net, t: T, keep: bool): Net
    requires t in n.owner && n.owner[t] in n.queue && t in n.pending && n.owner[t] in n.promised
  {
    var c := n.owner[t];
    if c !in n.connected then Discard(n, t)
    else if keep then Enqueue(n, t).(persist := n.persist + {c})
    else Enqueue(GiveUp(n, Of(n, c) - {t}), t).(persist := n.persist - {c})
  }

  /** A ready transaction gets more output, or another file to send. */
  ghost function Output(n: Net, t: T, bytes: seq<char>): Net {
    n.(pending := n.pending[t := bytes])
  }

  ghost function Rotate(n: Net): Net {
    if |n.writing| < 2 then n else n.(writing := n.writing[1..] + [n.writing[0]])
  }

  ghost predicate HeadQueued(n: Net) {
    && n.writing != [] && n.writing[0] in n.owner && n.owner[n.writing[0]] in n.queue
    && n.queue[n.owner[n.writing[0]]] != []
  }

  /** The head of the writing list has been sent: its successor on the connection takes its place. */
  ghost function Finish(n: Net): Net
    requires HeadQueued(n)
  {
    var t := n.writing[0];
    var c := n.owner[t];
    var rest := n.queue[c][1..];
    n.(writing := (if rest == [] then [] else [rest[0]]) + n.writing[1..],
       free := [t] + n.free,
       queue := n.queue[c := rest],
       place := if rest == [] then n.place[t := Free] else n.place[t := Free][rest[0] := Writing])
  }

  /** One window of k bytes for the head of the writing list. */
  ghost function Written(n: Net, k: nat): Net
    requires n.writing != [] && n.writing[0] in n.owner && n.writing[0] in n.pending && k <= |n.pending[n.writing[0]]|
    requires n.owner[n.writing[0]] in n.sent
  {
    var t := n.writing[0];
    var c := n.owner[t];
    n.(pending := n.pending[t := n.pending[t][k..]], sent := n.sent[c := n.sent[c] + n.pending[t][..k]],
       window := Some(c), outstanding := k)
  }

  ghost predicate HeadReady(n: Net) {
    HeadQueued(n) && n.writing[0] in n.pending && n.owner[n.writing[0]] in n.sent
  }

  /** What sending does for the head of the writing list when k bytes go into the window. */
  ghost function SendHead(n: Net, k: nat): Net
    requires HeadReady(n) && k <= |n.pending[n.writing[0]]|
  {
    var t := n.writing[0];
    var c := n.owner[t];
    if t in n.closing then Close(n, c)
    else if k > 0 then Written(n, k)
    else if c !in n.persist && |n.queue[c]| == 1 then n.(closing := n.closing + {t})
    else Finish(n)
  }

  ghost function Acknowledge(n: Net, c: C, len: nat): Net
    requires c in n.acked
  {
    n.(acked := n.acked[c := n.acked[c] + len],
       outstanding := if InWindow(n, c) && n.outstanding > len then n.outstanding - len else n.outstanding,
       window := if InWindow(n, c) && n.outstanding <= len then None else n.window)
  }

  // ---------------------------------------------------------------- every step keeps the invariant

  lemma {:induction false} HasMinus(items: seq<T>, s: set<T>)
    ensures forall x | x in items :: (x in Minus(items, s) <==> x !in s) && (x in Only(items, s) <==> x in s)
    ensures forall x | x in Minus(items, s) :: x in items && x !in s
    ensures forall x | x in Only(items, s) :: x in items && x in s
    ensures NoDup(items) ==> NoDup(Minus(items, s)) && NoDup(Only(items, s))
  {
    hide NoDup, Minus, Only;
    forall x | x in items ensures (x in Minus(items, s) <==> x !in s) && (x in Only(items, s) <==> x in s) {
      HasMinusAt(items, s, x);
    }
    forall x | x in Minus(items, s) ensures x in items && x !in s {
      HasMinusAt(items, s, x);
    }
    forall x | x in Only(items, s) ensures x in items && x in s {
      HasMinusAt(items, s, x);
    }
    if NoDup(items) {
      MinusNoDup(items, s);
    }
  }

  lemma {:induction false} HasMinusAt(items: seq<T>, s: set<T>, x: T)
    ensures x in Minus(items, s) <==> x in items && x !in s
    ensures x in Only(items, s) <==> x in items && x in s
  {
    if items != [] {
      HasMinusAt(items[..|items| - 1], s, x);
      assert items == items[..|items| - 1] + [items[|items| - 1]];
    }
  }

  lemma {:induction false} MinusNoDup(items: seq<T>, s: set<T>)
    requires NoDup(items)
    ensures NoDup(Minus(items, s)) && NoDup(Only(items, s))
  {
    if items != [] {
      var init, x := items[..|items| - 1], items[|items| - 1];
      MinusNoDup(init, s);
      HasMinusAt(init, s, x);
      assert forall i | 0 <= i < |init| :: init[i] == items[i] && init[i] != x;
      assert x !in Minus(init, s) && x !in Only(init, s);
    }
  }

  /** A prepared transaction may join the ready list at either end. */
  ghost function Joined(n: Net, c: C, s: Status, front: bool): Net
    requires n.free != []
  {
    Prepared(n, c, s).(ready := if front then [n.free[0]] + n.ready else n.ready + [n.free[0]])
  }

  lemma {:induction false} JoinedPlaced(n: Net, c: C, s: Status, front: bool, t: T)
    requires c in n.queue && s != Released && n.free != [] && NoDup(n.free)
    requires t in n.place && Placed(n, t) && n.free[0] in n.place && Placed(n, n.free[0])
    ensures Placed(Joined(n, c, s, front), t)
  {
    assert n.free == [n.free[0]] + n.free[1..];
  }

  lemma {:induction false} JoinedQueued(n: Net, c: C, s: Status, front: bool, d: C, t: T)
    requires Valid(n) && c in n.queue && s != Released && n.free != [] && d in n.queue && t in n.queue[d]
    ensures Queued(Joined(n, c, s, front), d, t)
  {
    assert Queued(n, d, t) && n.free[0] in n.place && Placed(n, n.free[0]);
  }

  lemma {:induction false} JoinedKeeps(n: Net, c: C, s: Status, front: bool)
    requires Valid(n) && c in n.queue && s != Released && n.free != []
    ensures Valid(Joined(n, c, s, front))
  {
    hide Placed, Queued;
    var m, r := Joined(n, c, s, front), n.free[0];
    JoinedNew(n);
    forall t | t in m.place ensures Placed(m, t) {
      JoinedPlaced(n, c, s, front, t);
    }
    forall d, t | d in m.queue && t in m.queue[d] ensures Queued(m, d, t) {
      JoinedQueued(n, c, s, front, d, t);
    }
    assert n.free == [r] + n.free[1..];
    assert NoRepeats(m);
    assert Inside(m);
  }

  lemma {:induction false} JoinedNew(n: Net)
    requires Valid(n) && n.free != []
    ensures n.free[0] !in n.ready && n.free[0] !in n.writing && n.free[0] in n.place
  {
    assert n.free[0] in n.place && Placed(n, n.free[0]);
  }

  lemma {:induction false} OpenedKeeps(n: Net, c: C)
    requires Valid(n) && c !in n.queue
    ensures Valid(Opened(n, c))
  {
    var m := Opened(n, c);
    forall t | t in m.place ensures Placed(m, t) {
      assert Placed(n, t);
    }
    forall d, t | d in m.queue && t in m.queue[d] ensures Queued(m, d, t) {
      assert Queued(n, d, t);
    }
  }

  /** The order of the ready and of the writing list does not matter. */
  lemma {:induction false} ReorderedKeeps(n: Net, ready: seq<T>, writing: seq<T>)
    requires Valid(n) && NoDup(ready) && NoDup(writing)
    requires forall t: T :: (t in ready <==> t in n.ready) && (t in writing <==> t in n.writing)
    ensures Valid(n.(ready := ready, writing := writing))
  {
    var m := n.(ready := ready, writing := writing);
    forall t | t in m.place ensures Placed(m, t) {
      assert Placed(n, t);
    }
    forall d, t | d in m.queue && t in m.queue[d] ensures Queued(m, d, t) {
      assert Queued(n, d, t);
    }
  }

  lemma {:induction false} FreedStays(n: Net, gone: seq<T>, t: T)
    ensures t in n.place ==>
      t in Freed(n, gone).place && Freed(n, gone).place[t] == if t in gone then Free else n.place[t]
    ensures t in n.status ==>
      t in Freed(n, gone).status && Freed(n, gone).status[t] == if t in gone then Released else n.status[t]
  {
  }

  lemma {:induction false} GiveUpPlaced(n: Net, some: set<T>, t: T)
    requires t in n.place && Placed(n, t)
    ensures Placed(GiveUp(n, some), t)
  {
    HasMinus(n.ready, some);
    FreedStays(n, Only(n.ready, some), t);
  }

  lemma {:induction false} GiveUpQueued(n: Net, some: set<T>, c: C, t: T)
    requires c in n.queue && t in n.queue[c] && Queued(n, c, t) && Placed(n, t)
    ensures Queued(GiveUp(n, some), c, t)
  {
    HasMinus(n.ready, some);
    FreedStays(n, Only(n.ready, some), t);
  }

  lemma {:induction false} GiveUpKeeps(n: Net, some: set<T>)
    requires Valid(n)
    ensures Valid(GiveUp(n, some))
  {
    hide Placed, Queued, GiveUp, Inside;
    var m := GiveUp(n, some);
    GiveUpRest(n, some);
    HasMinus(n.ready, some);
    forall t | t in m.place ensures Placed(m, t) {
      GiveUpPlaced(n, some, t);
    }
    assert forall d, t | d in n.queue && t in n.queue[d] :: Queued(n, d, t) && t in n.place by {
      QueuedInside(n);
    }
    forall d, t | d in m.queue && t in m.queue[d] ensures Queued(m, d, t) {
      GiveUpQueued(n, some, d, t);
    }
    GiveUpTidy(n, some);
  }

  lemma {:induction false} QueuedInside(n: Net)
    requires Inside(n)
    ensures forall c, t | c in n.queue && t in n.queue[c] :: t in n.place
  {
  }

  lemma {:induction false} GiveUpTidy(n: Net, some: set<T>)
    requires Valid(n)
    ensures NoRepeats(GiveUp(n, some)) && Inside(GiveUp(n, some)) && GiveUp(n, some).connected == n.connected
  {
    hide Placed, Queued, Minus, Only;
    HasMinus(n.ready, some);
    Held(n);
    FreshJoins(n, n.free, Only(n.ready, some), Free, Ready);
  }

  lemma {:induction false} Held(n: Net)
    requires Valid(n)
    ensures (forall t | t in n.free :: In(n, t, Free)) && (forall t | t in n.ready :: In(n, t, Ready))
    ensures (forall t | t in n.writing :: In(n, t, Writing))
    ensures forall t | t in n.ready :: t in n.owner && n.owner[t] in n.queue && t in n.status
    ensures forall t | t in n.writing :: t in n.owner && n.owner[t] in n.queue && First(n.queue[n.owner[t]], t)
  {
    forall t | t in n.free || t in n.ready || t in n.writing ensures Placed(n, t) {
    }
  }

  /** Lists of different places have nothing in common. */
  lemma {:induction false} FreshJoins(n: Net, a: seq<T>, b: seq<T>, p: Place, q: Place)
    requires NoDup(a) && NoDup(b) && p != q && (forall t | t in a :: In(n, t, p)) && forall t | t in b :: In(n, t, q)
    ensures NoDup(a + b)
  {
    forall i, j | 0 <= i < j < |a + b| ensures (a + b)[i] != (a + b)[j] {
      if i < |a| <= j {
        assert a[i] in a && b[j - |a|] in b;
      }
    }
  }

  lemma {:induction false} EnqueuePlaced(n: Net, t: T, x: T)
    requires t in n.place && Placed(n, t) && n.place[t] == Ready && t in n.pending && n.owner[t] in n.promised
    requires n.queue[n.owner[t]] == [] || n.queue[n.owner[t]][0] != t
    requires x in n.place && Placed(n, x)
    ensures Placed(Enqueue(n, t), x)
  {
    HasMinus(n.ready, {t});
  }

  lemma {:induction false} EnqueueQueued(n: Net, t: T, c: C, x: T)
    requires t in n.place && Placed(n, t) && n.place[t] == Ready && t in n.pending && n.owner[t] in n.promised
    requires c in n.queue && (x in n.queue[c] ==> Queued(n, c, x)) && x in Enqueue(n, t).queue[c]
    ensures Queued(Enqueue(n, t), c, x)
  {
    if x !in n.queue[c] {
      assert x == t && c == n.owner[t];
    }
  }

  lemma {:induction false} EnqueueKeeps(n: Net, t: T)
    requires Valid(n) && t in n.ready && t in n.pending && n.owner[t] in n.promised
    ensures Valid(Enqueue(n, t))
  {
    hide Placed, Queued, NoRepeats, Inside, Enqueue;
    Held(n);
    var m, c := Enqueue(n, t), n.owner[t];
    QueueHolds(n, c, t);
    EnqueueTidy(n, t);
    forall x | x in m.place ensures Placed(m, x) {
      EnqueuePlaced(n, t, x);
    }
    forall d, x | d in m.queue && x in m.queue[d] ensures Queued(m, d, x) {
      EnqueueQueued(n, t, d, x);
    }
  }

  lemma {:induction false} EnqueueTidy(n: Net, t: T)
    requires NoRepeats(n) && Inside(n) && t in n.ready && t in n.owner && n.owner[t] in n.queue && t in n.pending
    requires n.owner[t] in n.promised && t !in n.queue[n.owner[t]] && t !in n.writing
    ensures var m := Enqueue(n, t);
      && NoRepeats(m) && Inside(m) && m.connected == n.connected && m.place.Keys == n.place.Keys
      && m.queue.Keys == n.queue.Keys
  {
    hide Minus;
    HasMinus(n.ready, {t});
  }

  lemma {:induction false} QueueHolds(n: Net, c: C, t: T)
    requires Valid(n) && c in n.queue && (In(n, t, Free) || In(n, t, Ready))
    ensures t !in n.queue[c]
  {
    assert t in n.queue[c] ==> Queued(n, c, t);
  }

  /** What closing a queue makes of one transaction. */
  lemma {:induction false} CloseQueueAt(n: Net, c: C, t: T)
    requires c in n.queue && t in n.place
    ensures var m, q := CloseQueue(n, c), n.queue[c];
      && t in m.place && m.place[t] == (if t in q then Free else n.place[t])
      && (t in m.status <==> t in n.status)
      && (t in n.status ==> m.status[t] == if t in q then Released else n.status[t])
      && (t in m.free <==> t in n.free || t in q) && m.ready == n.ready && m.owner == n.owner
      && (t in m.writing <==> t in n.writing && !First(q, t))
  {
    hide Freed, Minus, Unqueued;
    var q := n.queue[c];
    UnqueuedRest(n, c);
    if q != [] {
      var u, gone := Unqueued(n, c), q[1..] + [q[0]];
      Rotated(q, t);
      HasMinus(n.writing, {q[0]});
      FreedAt(u, gone, t);
    }
  }

  lemma {:induction false} UnqueuedRest(n: Net, c: C)
    ensures var u := Unqueued(n, c);
      && u.place == n.place && u.status == n.status && u.free == n.free && u.ready == n.ready && u.owner == n.owner
      && u.writing == n.writing && u.pending == n.pending && u.connected == n.connected - {c} && u.sent == n.sent
      && u.promised == n.promised && u.acked == n.acked && u.outstanding == n.outstanding
      && u.window == (if InWindow(n, c) then None else n.window)
  {
  }

  lemma {:induction false} FreedAt(n: Net, gone: seq<T>, t: T)
    requires t in n.place
    ensures var m := Freed(n, gone);
      && t in m.place && m.place[t] == (if t in gone then Free else n.place[t])
      && (t in m.status <==> t in n.status)
      && (t in n.status ==> m.status[t] == if t in gone then Released else n.status[t])
      && (t in m.free <==> t in n.free || t in gone) && m.ready == n.ready && m.owner == n.owner
  {
  }

  lemma {:induction false} ClosePlaced(n: Net, c: C, t: T)
    requires c in n.queue && t in n.place && Placed(n, t) && (t in n.ready ==> n.owner[t] != c)
    requires (t in n.queue[c] ==> Queued(n, c, t))
    ensures Placed(CloseQueue(n, c), t)
  {
    hide CloseQueue;
    CloseQueueAt(n, c, t);
  }

  lemma {:induction false} Rotated(q: seq<T>, t: T)
    requires q != []
    ensures t in q[1..] + [q[0]] <==> t in q
    ensures NoDup(q) ==> NoDup(q[1..] + [q[0]])
  {
    assert q == [q[0]] + q[1..];
  }

  lemma {:induction false} CloseQueued(n: Net, c: C, d: C, t: T)
    requires c in n.queue && d in n.queue && d != c && t in n.queue[d] && Queued(n, d, t)
    requires (t in n.queue[c] ==> Queued(n, c, t))
    ensures Queued(CloseQueue(n, c), d, t)
  {
    var q := n.queue[c];
    if q != [] {
      FreedStays(n, q[1..] + [q[0]], t);
      Rotated(q, t);
    }
  }

  lemma {:induction false} CloseQueueKeeps(n: Net, c: C)
    requires Valid(n) && c in n.queue && forall t | t in n.ready :: t in n.owner && n.owner[t] != c
    ensures Valid(CloseQueue(n, c))
  {
    hide Placed, Queued, NoRepeats, CloseQueue;
    Held(n);
    var m := CloseQueue(n, c);
    forall t | t in m.place ensures Placed(m, t) {
      ClosePlaced(n, c, t);
    }
    forall d, t | d in m.queue && t in m.queue[d] ensures Queued(m, d, t) {
      CloseQueued(n, c, d, t);
    }
    CloseQueueTidy(n, c);
  }

  lemma {:induction false} CloseQueueTidy(n: Net, c: C)
    requires Valid(n) && c in n.queue
    ensures NoRepeats(CloseQueue(n, c)) && Inside(CloseQueue(n, c))
    ensures CloseQueue(n, c).connected <= CloseQueue(n, c).queue.Keys
  {
    hide Placed, Queued, NoRepeats, Inside, Minus, Freed;
    var q := n.queue[c];
    UnqueuedTidy(n, c);
    if q != [] {
      FreeAndQueue(n, c);
      FreedRest(Unqueued(n, c), q[1..] + [q[0]]);
      FreedTidy(Unqueued(n, c), q[1..] + [q[0]], Minus(n.writing, {q[0]}), {q[0]});
    }
  }

  lemma {:induction false} UnqueuedTidy(n: Net, c: C)
    requires NoRepeats(n) && Inside(n)
    ensures NoRepeats(Unqueued(n, c)) && Inside(Unqueued(n, c))
  {
    hide NoDup;
  }

  lemma {:induction false} FreedTidy(n: Net, gone: seq<T>, writing: seq<T>, s: set<T>)
    requires NoRepeats(n) && Inside(n) && NoDup(n.free + gone) && writing == Minus(n.writing, s)
    requires forall t | t in gone :: t in n.place
    ensures var m := Freed(n, gone).(writing := writing); NoRepeats(m) && Inside(m)
  {
    hide Minus, Freed, NoDup;
    FreedRest(n, gone);
    HasMinus(n.writing, s);
  }

  lemma {:induction false} FreedRest(n: Net, gone: seq<T>)
    ensures var m := Freed(n, gone);
            && m.free == n.free + gone && m.ready == n.ready && m.queue == n.queue && m.owner == n.owner
            && m.connected == n.connected
            && m.pending == n.pending && m.sent == n.sent && m.promised == n.promised && m.acked == n.acked
            && m.window == n.window && m.outstanding == n.outstanding
  {
  }

  lemma {:induction false} FreeAndQueue(n: Net, c: C)
    requires Valid(n) && c in n.queue && n.queue[c] != []
    ensures NoDup(n.free + (n.queue[c][1..] + [n.queue[c][0]]))
    ensures forall t | t in n.queue[c][1..] + [n.queue[c][0]] :: t in n.place
  {
    var q := n.queue[c];
    var r := q[1..] + [q[0]];
    forall t | t in r ensures t in n.place && t !in n.free {
      Rotated(q, t);
      assert Queued(n, c, t) && Placed(n, t);
    }
    Rotated(q, q[0]);
    forall i, j | 0 <= i < j < |n.free + r| ensures (n.free + r)[i] != (n.free + r)[j] {
      if i < |n.free| <= j {
        assert r[j - |n.free|] in r;
      }
    }
  }

  lemma {:induction false} FinishPlaced(n: Net, t: T)
    requires HeadQueued(n) && n.writing[0] in n.place && Placed(n, n.writing[0]) && t in n.place && Placed(n, t)
    requires NoDup(n.writing) && NoDup(n.queue[n.owner[n.writing[0]]])
    requires forall x | x in n.queue[n.owner[n.writing[0]]] :: Queued(n, n.owner[n.writing[0]], x)
    ensures t in Finish(n).place && Placed(Finish(n), t)
  {
    hide Placed, Queued, Finish, NoDup;
    var h := n.writing[0];
    var q := n.queue[n.owner[h]];
    if t == h {
      FinishHead(n);
    } else if |q| > 1 && t == q[1] {
      FinishSecond(n);
    } else {
      FinishOther(n, t);
    }
  }

  lemma {:induction false} FinishHead(n: Net)
    requires HeadQueued(n) && n.writing[0] in n.place && Placed(n, n.writing[0])
    requires NoDup(n.writing) && NoDup(n.queue[n.owner[n.writing[0]]])
    ensures n.writing[0] in Finish(n).place && Placed(Finish(n), n.writing[0])
  {
    var h := n.writing[0];
    var q := n.queue[n.owner[h]];
    assert q == [q[0]] + q[1..] && n.writing == [h] + n.writing[1..];
  }

  lemma {:induction false} FinishSecond(n: Net)
    requires HeadQueued(n) && n.writing[0] in n.place && Placed(n, n.writing[0])
    requires |n.queue[n.owner[n.writing[0]]]| > 1
    requires var t := n.queue[n.owner[n.writing[0]]][1]; t in n.place && Placed(n, t) && t != n.writing[0]
    requires NoDup(n.queue[n.owner[n.writing[0]]])
    requires forall x | x in n.queue[n.owner[n.writing[0]]] :: Queued(n, n.owner[n.writing[0]], x)
    ensures var t := n.queue[n.owner[n.writing[0]]][1]; t in Finish(n).place && Placed(Finish(n), t)
  {
    var c := n.owner[n.writing[0]];
    var q := n.queue[c];
    assert q == [q[0]] + q[1..] && n.writing == [n.writing[0]] + n.writing[1..];
    assert q[1] in q && Queued(n, c, q[1]);
  }

  lemma {:induction false} FinishOther(n: Net, t: T)
    requires HeadQueued(n) && n.writing[0] in n.place && Placed(n, n.writing[0])
    requires t in n.place && Placed(n, t) && t != n.writing[0]
    requires |n.queue[n.owner[n.writing[0]]]| > 1 ==> t != n.queue[n.owner[n.writing[0]]][1]
    ensures t in Finish(n).place && Placed(Finish(n), t)
  {
    var h := n.writing[0];
    var q := n.queue[n.owner[h]];
    assert q == [q[0]] + q[1..] && n.writing == [h] + n.writing[1..];
  }

  lemma {:induction false} FinishQueued(n: Net, c: C, t: T)
    requires HeadQueued(n) && n.writing[0] in n.place && Placed(n, n.writing[0])
    requires NoDup(n.queue[n.owner[n.writing[0]]])
    requires forall x | x in n.queue[n.owner[n.writing[0]]] :: Queued(n, n.owner[n.writing[0]], x)
    requires c in n.queue && t in Finish(n).queue[c] && (t in n.queue[c] ==> Queued(n, c, t))
    ensures Queued(Finish(n), c, t)
  {
    var h := n.writing[0];
    var q := n.queue[n.owner[h]];
    assert q == [q[0]] + q[1..];
    if |q| > 1 {
      assert q[1] in q && Queued(n, n.owner[h], q[1]);
    }
  }

  lemma {:induction false} FinishKeeps(n: Net)
    requires Valid(n) && n.writing != []
    ensures HeadQueued(n) && Valid(Finish(n))
  {
    hide Placed, Queued;
    Held(n);
    var h := n.writing[0];
    assert h in n.writing;
    assert |n.queue[n.owner[h]]| > 1 ==> n.queue[n.owner[h]][1] in n.queue[n.owner[h]];
    var m := Finish(n);
    forall t | t in m.place ensures Placed(m, t) {
      FinishPlaced(n, t);
    }
    forall d, t | d in m.queue && t in m.queue[d] ensures Queued(m, d, t) {
      FinishQueued(n, d, t);
    }
    FinishTidy(n);
  }

  lemma {:induction false} FinishTidy(n: Net)
    requires Valid(n) && HeadQueued(n)
    ensures NoRepeats(Finish(n)) && Inside(Finish(n))
  {
    hide Placed, Queued;
    Held(n);
    var h := n.writing[0];
    var q := n.queue[n.owner[h]];
    assert h in n.writing && h !in n.free && h in n.place;
    FrontNew(n.free, h);
    if |q| > 1 {
      assert q[1] in q && q[1] in n.place;
      WaitsBehind(n, h, q[1]);
      FrontNew(n.writing[1..], q[1]);
    }
    FinishTidyWith(n);
  }

  lemma {:induction false} FrontNew(items: seq<T>, t: T)
    requires NoDup(items) && t !in items
    ensures NoDup([t] + items)
  {
  }

  lemma {:induction false} FinishTidyWith(n: Net)
    requires HeadQueued(n) && NoRepeats(n) && Inside(n) && Finish(n).place.Keys == n.place.Keys
    requires NoDup(Finish(n).free) && NoDup(Finish(n).writing)
    ensures NoRepeats(Finish(n)) && Inside(Finish(n))
  {
  }

  lemma {:induction false} WaitsBehind(n: Net, h: T, t: T)
    requires Valid(n) && h in n.writing && h in n.owner && n.owner[h] in n.queue && t in n.queue[n.owner[h]] && t != h
    ensures t !in n.writing
  {
    assert Placed(n, h) && Queued(n, n.owner[h], t) && Placed(n, t);
  }

  // ---------------------------------------------------------------- the byte streams and the sending window

  /** What the transactions of a queue still have to send, in order. */
  ghost function Owed(items: seq<T>, pending: map<T, seq<char>>): seq<char> {
    if items == [] then [] else Rest(items[0], pending) + Owed(items[1..], pending)
  }

  ghost function Rest(t: T, pending: map<T, seq<char>>): seq<char> { if t in pending then pending[t] else [] }

  ghost predicate Stream(n: Net, c: C)
    requires c in n.queue
  {
    c in n.sent && c in n.promised && n.promised[c] == n.sent[c] + Owed(n.queue[c], n.pending)
  }

  /** What was sent and what is still queued make up exactly what was committed. */
  ghost predicate Streams(n: Net) {
    n.pending.Keys == n.place.Keys && forall c | c in n.queue :: Stream(n, c)
  }

  /** Only the connection in the window has unacknowledged data, and the firmware knows how much. */
  ghost predicate Windowed(n: Net) {
    && (n.window.Some? ==> n.window.value in n.queue && 0 < n.outstanding <= TCP_WND)
    && forall c | c in n.queue :: Acked(n, c)
  }

  ghost predicate InWindow(n: Net, c: C) { n.window.Some? && n.window.value == c }

  ghost predicate Acked(n: Net, c: C) {
    c in n.sent && c in n.acked && |n.sent[c]| == n.acked[c] + if InWindow(n, c) then n.outstanding else 0
  }

  /** A connection has at most one ready transaction that announces its end, and none while it is connected. */
  ghost predicate Goodbyes(n: Net) {
    && (forall t | t in n.ready && Is(n, t, Disconnected) :: t in n.owner && n.owner[t] !in n.connected)
    && forall t, x | t in n.ready && x in n.ready && Is(n, t, Disconnected) && Is(n, x, Disconnected) ::
         t in n.owner && Owns(n, x, n.owner[t]) ==> t == x
  }

  ghost predicate Good(n: Net) { Valid(n) && Streams(n) && Windowed(n) && Goodbyes(n) }

  lemma {:induction false} OwedSame(items: seq<T>, p: map<T, seq<char>>, q: map<T, seq<char>>)
    requires forall t | t in items :: (t in p <==> t in q) && (t in p ==> p[t] == q[t])
    ensures Owed(items, p) == Owed(items, q)
  {
    if items != [] {
      OwedSame(items[1..], p, q);
    }
  }

  lemma {:induction false} OwedAppend(items: seq<T>, t: T, p: map<T, seq<char>>)
    requires t in p
    ensures Owed(items + [t], p) == Owed(items, p) + p[t]
  {
    if items == [] {
      assert items + [t] == [t] && [t][1..] == [];
      assert Owed([t], p) == Rest(t, p) + Owed([], p);
    } else {
      var all, first, rest := items + [t], Rest(items[0], p), items[1..];
      assert all[0] == items[0] && all[1..] == rest + [t];
      OwedAppend(rest, t, p);
      assert Owed(all, p) == first + Owed(rest + [t], p);
      assert Owed(items, p) == first + Owed(rest, p);
      assert first + (Owed(rest, p) + p[t]) == first + Owed(rest, p) + p[t];
    }
  }

  /** A transaction outside the queues may be given any output. */
  lemma {:induction false} OutputStream(n: Net, t: T, bytes: seq<char>, c: C)
    requires Valid(n) && c in n.queue && Stream(n, c) && (In(n, t, Free) || In(n, t, Ready))
    ensures Stream(Output(n, t, bytes), c)
  {
    QueueHolds(n, c, t);
    OwedSame(n.queue[c], n.pending, Output(n, t, bytes).pending);
  }

  lemma {:induction false} EnqueueStream(n: Net, t: T, c: C)
    requires t in n.owner && n.owner[t] in n.queue && t in n.pending && n.owner[t] in n.promised && c in n.queue
    requires Stream(n, c)
    ensures Stream(Enqueue(n, t), c)
  {
    if c == n.owner[t] {
      OwedAppend(n.queue[c], t, n.pending);
    }
  }

  lemma {:induction false} WrittenStream(n: Net, k: nat, c: C)
    requires HeadReady(n) && k <= |n.pending[n.writing[0]]| && First(n.queue[n.owner[n.writing[0]]], n.writing[0])
    requires c in n.queue && Stream(n, c) && NoDup(n.queue[c])
    requires (c != n.owner[n.writing[0]] ==> n.writing[0] !in n.queue[c])
    ensures Stream(Written(n, k), c)
  {
    var t, q, m := n.writing[0], n.queue[c], Written(n, k);
    if c == n.owner[t] {
      assert q == [t] + q[1..];
      OwedSame(q[1..], n.pending, m.pending);
      assert n.pending[t] == n.pending[t][..k] + n.pending[t][k..];
    } else {
      OwedSame(q, n.pending, m.pending);
    }
  }

  lemma {:induction false} FinishStream(n: Net, c: C)
    requires HeadReady(n) && n.pending[n.writing[0]] == [] && First(n.queue[n.owner[n.writing[0]]], n.writing[0])
    requires c in n.queue && Stream(n, c)
    ensures Stream(Finish(n), c)
  {
  }

  // ---------------------------------------------------------------- runs

  datatype Step =
    | Accepted(c: C) | Received(c: C) | ClosedGracefully(c: C) | AcquireFor(c: C) | GetFor(c: C)
    | WriteTo(t: T, bytes: seq<char>) | CommitOf(t: T, keep: bool) | DeferOf(t: T) | DiscardOf(t: T)
    | SendOne(k: nat) | Acknowledged(c: C, len: nat) | Lost(c: C)

  ghost predicate NoGoodbye(n: Net, c: C) { forall t | t in n.ready && Owns(n, t, c) :: !Is(n, t, Disconnected) }

  /** When a step may happen: the connection is open, the transaction is ready, acknowledgements are for data sent, and
      a connection is not closed by the sender while the announcement of its end is still in the ready list. */
  ghost predicate Enabled(n: Net, s: Step) {
    match s
    case Accepted(c) => c !in n.queue
    case Received(c) => c in n.queue
    case ClosedGracefully(c) => c in n.connected
    case AcquireFor(c) => c in n.queue
    case GetFor(c) => c in n.queue
    case WriteTo(t, bytes) => t in n.ready
    case CommitOf(t, keep) => t in n.ready
    case DeferOf(t) => t in n.ready
    case DiscardOf(t) => t in n.ready
    case SendOne(k) =>
      && n.window == None && HeadReady(Rotate(n))
      && var t := Rotate(n).writing[0];
         if t in n.closing then k == 0 && NoGoodbye(n, n.owner[t])
         else k <= TCP_WND && k <= |n.pending[t]| && (k == 0 ==> n.pending[t] == [])
    case Acknowledged(c, len) => c in n.queue && c in n.acked && c in n.sent && n.acked[c] + len <= |n.sent[c]|
    case Lost(c) => c in n.connected
  }

  /** An enabled step finds what it needs. */
  lemma {:induction false} CanStep(n: Net, s: Step)
    requires Good(n) && Enabled(n, s)
    ensures (s.ClosedGracefully? || s.Lost?) ==> s.c in n.queue
    ensures s.CommitOf? || s.DeferOf? || s.DiscardOf? ==>
      s.t in n.owner && n.owner[s.t] in n.queue && s.t in n.pending && n.owner[s.t] in n.promised
    ensures s.SendOne? ==> HeadReady(Rotate(n)) && s.k <= |Rotate(n).pending[Rotate(n).writing[0]]|
    ensures s.Acknowledged? ==> s.c in n.acked
  {
    hide Good, Rotate, HeadReady;
    match s {
      case ClosedGracefully(c) => ConnectedOpen(n, c);
      case Lost(c) => ConnectedOpen(n, c);
      case CommitOf(t, keep) => ReadyOwned(n, t);
      case DeferOf(t) => ReadyOwned(n, t);
      case DiscardOf(t) => ReadyOwned(n, t);
      case SendOne(k) => SendEnabled(n, k);
      case _ =>
    }
  }

  ghost function Next(n: Net, s: Step): Net
    requires Good(n) && Enabled(n, s)
  {
    hide *;
    CanStep(n, s);
    match s
    case Accepted(c) => Accept(n, c)
    case Received(c) => Receive(n, c, Receiving)
    case ClosedGracefully(c) => Graceful(n, c)
    case AcquireFor(c) => Acquire(n, c)
    case GetFor(c) => Get(n, c)
    case WriteTo(t, bytes) => Output(n, t, bytes)
    case CommitOf(t, keep) => Commit(n, t, keep)
    case DeferOf(t) => Defer(n, t)
    case DiscardOf(t) => Discard(n, t)
    case SendOne(k) => SendHead(Rotate(n), k)
    case Acknowledged(c, len) => Acknowledge(n, c, len)
    case Lost(c) => Close(n, c)
  }

  lemma {:induction false} JoinedGood(n: Net, c: C, s: Status, front: bool)
    requires Good(n) && c in n.queue && s != Released && n.free != []
    requires (s == Disconnected ==> c !in n.connected && NoGoodbye(n, c))
    ensures Good(Joined(n, c, s, front))
  {
    hide *;
    Parts(n);
    JoinedKeeps(n, c, s, front);
    JoinedNew(n);
    JoinedStreams(n, c, s, front);
    JoinedOthers(n, c, s, front);
    Whole(Joined(n, c, s, front));
  }

  lemma {:induction false} JoinedStreams(n: Net, c: C, s: Status, front: bool)
    requires Valid(n) && Streams(n) && n.free != [] && n.free[0] in n.place
    ensures Streams(Joined(n, c, s, front))
  {
    hide Valid, Stream;
    var m := Joined(n, c, s, front);
    forall d | d in m.queue ensures Stream(m, d) {
      JoinedStream(n, c, s, front, d);
    }
    assert n.free[0] in n.place.Keys;
    assert m.place.Keys == n.place.Keys && m.pending.Keys == n.pending.Keys;
  }

  lemma {:induction false} JoinedOthers(n: Net, c: C, s: Status, front: bool)
    requires Windowed(n) && Goodbyes(n) && n.free != []
    requires forall t | t in n.ready :: t != n.free[0]
    requires (s == Disconnected ==> c !in n.connected && NoGoodbye(n, c))
    ensures Windowed(Joined(n, c, s, front)) && Goodbyes(Joined(n, c, s, front))
  {
    hide Acked;
    var m, r := Joined(n, c, s, front), n.free[0];
    forall d | d in m.queue ensures Acked(m, d) {
      SameAcked(n, m, d);
    }
    forall t | t in m.ready && t != r ensures t in n.ready && (Is(m, t, Disconnected) <==> Is(n, t, Disconnected)) {
    }
  }

  lemma {:induction false} JoinedStream(n: Net, c: C, s: Status, front: bool, d: C)
    requires Valid(n) && n.free != [] && d in n.queue && Stream(n, d)
    ensures Stream(Joined(n, c, s, front), d)
  {
    Held(n);
    assert n.free[0] in n.free;
    OutputStream(n, n.free[0], [], d);
  }

  lemma {:induction false} OpenedGood(n: Net, c: C)
    requires Good(n) && c !in n.queue
    ensures Good(Opened(n, c))
  {
    hide Placed, Queued, Stream, Inside, NoRepeats;
    OpenedKeeps(n, c);
    Held(n);
    var m := Opened(n, c);
    forall d | d in m.queue ensures Stream(m, d) {
      OpenedStream(n, c, d);
    }
  }

  lemma {:induction false} OpenedStream(n: Net, c: C, d: C)
    requires d != c ==> d in n.queue && Stream(n, d)
    ensures Stream(Opened(n, c), d)
  {
  }

  lemma {:induction false} GiveUpGood(n: Net, some: set<T>)
    requires Good(n)
    ensures Good(GiveUp(n, some))
  {
    hide *;
    Parts(n);
    GiveUpKeeps(n, some);
    GiveUpStreams(n, some);
    GiveUpGoodbyes(n, some);
    Whole(GiveUp(n, some));
  }

  lemma {:induction false} GiveUpStreams(n: Net, some: set<T>)
    requires Streams(n) && Windowed(n)
    ensures Streams(GiveUp(n, some)) && Windowed(GiveUp(n, some))
  {
    hide Minus, Only;
    var m := GiveUp(n, some);
    forall d | d in m.queue ensures Stream(m, d) && Acked(m, d) {
      assert Stream(n, d) && Acked(n, d);
    }
  }

  lemma {:induction false} GiveUpGoodbyes(n: Net, some: set<T>)
    requires Goodbyes(n)
    ensures Goodbyes(GiveUp(n, some))
  {
    hide Minus, Only;
    HasMinus(n.ready, some);
    var m := GiveUp(n, some);
    forall t | t in m.ready ensures t in n.ready && (Is(m, t, Disconnected) ==> Is(n, t, Disconnected)) {
    }
  }

  lemma {:induction false} EnqueueGood(n: Net, t: T)
    requires Good(n) && t in n.ready
    ensures t in n.owner && n.owner[t] in n.queue && t in n.pending && n.owner[t] in n.promised && Good(Enqueue(n, t))
  {
    hide *;
    ReadyOwned(n, t);
    Parts(n);
    EnqueueKeeps(n, t);
    EnqueueStreams(n, t);
    EnqueueRest(n, t);
    Whole(Enqueue(n, t));
  }

  lemma {:induction false} Parts(n: Net)
    requires Good(n)
    ensures Valid(n) && Streams(n) && Windowed(n) && Goodbyes(n)
  {
  }

  lemma {:induction false} Whole(n: Net)
    requires Valid(n) && Streams(n) && Windowed(n) && Goodbyes(n)
    ensures Good(n)
  {
  }

  lemma {:induction false} EnqueueStreams(n: Net, t: T)
    requires Valid(n) && Streams(n) && t in n.owner && n.owner[t] in n.queue && t in n.pending
    requires n.owner[t] in n.promised
    ensures Streams(Enqueue(n, t))
  {
    hide Stream, Valid, Minus;
    var m := Enqueue(n, t);
    forall d | d in m.queue ensures Stream(m, d) {
      EnqueueStream(n, t, d);
    }
    assert t in n.place.Keys;
    assert m.place.Keys == n.place.Keys;
  }

  lemma {:induction false} EnqueueRest(n: Net, t: T)
    requires Windowed(n) && Goodbyes(n)
    requires t in n.owner && n.owner[t] in n.queue && t in n.pending && n.owner[t] in n.promised
    ensures Windowed(Enqueue(n, t)) && Goodbyes(Enqueue(n, t))
  {
    hide Minus, Acked;
    HasMinus(n.ready, {t});
    var m := Enqueue(n, t);
    forall x | x in m.ready ensures x in n.ready && (Is(m, x, Disconnected) ==> Is(n, x, Disconnected)) {
    }
    forall c | c in m.queue ensures Acked(m, c) {
      SameAcked(n, m, c);
    }
  }

  lemma {:induction false} SameAcked(n: Net, m: Net, c: C)
    requires m.sent == n.sent && m.acked == n.acked && m.window == n.window && m.outstanding == n.outstanding
    ensures Acked(m, c) <==> Acked(n, c)
  {
  }

  /** What closing a queue leaves alone. */
  lemma {:induction false} CloseQueueRest(n: Net, c: C)
    requires c in n.queue
    ensures var m := CloseQueue(n, c);
            && m.ready == n.ready && m.owner == n.owner && m.pending == n.pending && m.connected == n.connected - {c}
            && m.sent == n.sent && m.promised == n.promised && m.acked == n.acked && m.outstanding == n.outstanding
            && m.window == (if InWindow(n, c) then None else n.window)
    ensures forall t | Is(CloseQueue(n, c), t, Disconnected) :: Is(n, t, Disconnected)
  {
    hide Freed, Minus, Is, Unqueued;
    var q := n.queue[c];
    UnqueuedRest(n, c);
    if q != [] {
      FreedRest(Unqueued(n, c), q[1..] + [q[0]]);
    }
    CloseQueueStatus(n, c);
  }

  lemma {:induction false} CloseQueueStatus(n: Net, c: C)
    requires c in n.queue
    ensures forall t | Is(CloseQueue(n, c), t, Disconnected) :: Is(n, t, Disconnected)
  {
    hide Freed, Minus, Unqueued;
    UnqueuedRest(n, c);
    var q := n.queue[c];
    var m := if q == [] then n else Freed(Unqueued(n, c), q[1..] + [q[0]]);
    if q != [] {
      FreedGoodbyes(Unqueued(n, c), q[1..] + [q[0]]);
    }
    assert CloseQueue(n, c).status == m.status;
    forall t | Is(CloseQueue(n, c), t, Disconnected) ensures Is(n, t, Disconnected) {
      assert Is(m, t, Disconnected);
    }
  }

  lemma {:induction false} FreedGoodbyes(n: Net, gone: seq<T>)
    ensures forall t | Is(Freed(n, gone), t, Disconnected) :: Is(n, t, Disconnected)
  {
  }

  lemma {:induction false} CloseQueueGood(n: Net, c: C)
    requires Good(n) && c in n.queue && forall t | t in n.ready :: t in n.owner && n.owner[t] != c
    ensures Good(CloseQueue(n, c))
  {
    hide Placed, Queued, Inside, NoRepeats, CloseQueue, Owed;
    CloseQueueKeeps(n, c);
    CloseQueueRest(n, c);
    var m := CloseQueue(n, c);
    forall d | d in m.queue ensures Stream(m, d) {
      assert Stream(n, d);
    }
  }

  lemma {:induction false} CloseGood(n: Net, c: C)
    requires Good(n) && c in n.queue
    ensures Good(Close(n, c))
  {
    hide Placed, Queued, Inside, NoRepeats, CloseQueue;
    GiveUpGood(n, Of(n, c));
    HasMinus(n.ready, Of(n, c));
    Held(n);
    CloseQueueGood(GiveUp(n, Of(n, c)), c);
  }

  lemma {:induction false} DiscardGood(n: Net, t: T)
    requires Good(n) && t in n.ready
    ensures t in n.owner && n.owner[t] in n.queue && Good(Discard(n, t))
  {
    hide Good, Close, GiveUp;
    ReadyOwned(n, t);
    GiveUpGood(n, {t});
    GiveUpRest(n, {t});
    if Is(n, t, Disconnected) {
      CloseGood(GiveUp(n, {t}), n.owner[t]);
    }
  }

  lemma {:induction false} GiveUpRest(n: Net, some: set<T>)
    ensures GiveUp(n, some).place.Keys == n.place.Keys
    ensures GiveUp(n, some).queue == n.queue && GiveUp(n, some).owner == n.owner
    ensures GiveUp(n, some).ready == Minus(n.ready, some)
  {
  }

  lemma {:induction false} ReadyOwned(n: Net, t: T)
    requires Good(n) && t in n.ready
    ensures t in n.owner && n.owner[t] in n.queue && t in n.pending && n.owner[t] in n.promised && t in n.place
    ensures n.place[t] == Ready
  {
    Held(n);
    assert Stream(n, n.owner[t]);
  }

  lemma {:induction false} CommitGood(n: Net, t: T, keep: bool)
    requires Good(n) && t in n.ready
    ensures t in n.owner && n.owner[t] in n.queue && t in n.pending && n.owner[t] in n.promised
    ensures Good(Commit(n, t, keep))
  {
    hide Good, Discard, Enqueue, GiveUp;
    ReadyOwned(n, t);
    var c := n.owner[t];
    if c !in n.connected {
      DiscardGood(n, t);
    } else if keep {
      EnqueueGood(n, t);
      MarkedGood(Enqueue(n, t), Enqueue(n, t).connected, n.persist + {c}, Enqueue(n, t).closing);
    } else {
      var some := Of(n, c) - {t};
      GiveUpGood(n, some);
      GiveUpRest(n, some);
      HasMinus(n.ready, some);
      EnqueueGood(GiveUp(n, some), t);
      var m := Enqueue(GiveUp(n, some), t);
      MarkedGood(m, m.connected, n.persist - {c}, m.closing);
    }
  }

  /** The marks on connections and transactions play no part in the invariant, except that only open connections are
      connected. */
  ghost function Marked(n: Net, connected: set<C>, persist: set<C>, closing: set<T>): Net {
    n.(connected := connected, persist := persist, closing := closing)
  }

  /** Validity is about the lists, places, owners and statuses only. */
  lemma {:induction false} SameValid(n: Net, m: Net)
    requires Valid(n) && m.connected <= n.connected
    requires m.free == n.free && m.ready == n.ready && m.writing == n.writing && m.queue == n.queue
    requires m.place == n.place && m.owner == n.owner && m.status == n.status
    ensures Valid(m)
  {
    forall t | t in m.place ensures Placed(m, t) {
      assert Placed(n, t);
    }
    forall d, t | d in m.queue && t in m.queue[d] ensures Queued(m, d, t) {
      assert Queued(n, d, t);
    }
  }

  lemma {:induction false} MarkedGood(n: Net, connected: set<C>, persist: set<C>, closing: set<T>)
    requires Good(n) && connected <= n.connected
    ensures Good(Marked(n, connected, persist, closing))
  {
    hide Stream, Valid;
    var m := Marked(n, connected, persist, closing);
    SameValid(n, m);
    forall c | c in m.queue ensures Stream(m, c) {
      SameStream(n, m, c);
    }
  }

  lemma {:induction false} SameStream(n: Net, m: Net, c: C)
    requires m.queue == n.queue && m.sent == n.sent && m.promised == n.promised && m.pending == n.pending
    requires c in n.queue && Stream(n, c)
    ensures Stream(m, c)
  {
  }

  lemma {:induction false} ReorderedGood(n: Net, ready: seq<T>, writing: seq<T>)
    requires Good(n) && NoDup(ready) && NoDup(writing)
    requires forall t: T :: (t in ready <==> t in n.ready) && (t in writing <==> t in n.writing)
    ensures Good(n.(ready := ready, writing := writing))
  {
    hide Stream, Valid;
    ReorderedKeeps(n, ready, writing);
    var m := n.(ready := ready, writing := writing);
    forall c | c in m.queue ensures Stream(m, c) {
      SameStream(n, m, c);
    }
  }

  lemma {:induction false} GetGood(n: Net, c: C)
    requires Good(n)
    ensures Good(Get(n, c))
  {
    hide Good, Of, Minus, Only;
    var mine := Only(n.ready, Of(n, c));
    HasMinus(n.ready, Of(n, c));
    if mine != [] {
      var t := mine[0];
      assert t in mine && NoDup(n.ready) && NoDup(n.writing) by { ListsTidy(n); }
      HasMinus(n.ready, {t});
      assert forall x: T :: x in [t] + Minus(n.ready, {t}) <==> x in n.ready;
      FrontNew(Minus(n.ready, {t}), t);
      ReorderedGood(n, [t] + Minus(n.ready, {t}), n.writing);
    }
  }

  lemma {:induction false} ListsTidy(n: Net)
    requires Good(n)
    ensures NoDup(n.ready) && NoDup(n.writing) && NoDup(n.free)
  {
  }

  lemma {:induction false} DeferOrderHolds(items: seq<T>, t: T, same: set<T>)
    requires NoDup(items) && t in items && t in same
    ensures NoDup(DeferOrder(items, t, same)) && forall x: T :: x in DeferOrder(items, t, same) <==> x in items
    ensures forall x | x in DeferOrder(items, t, same) :: x in items
  {
    hide Minus, Only, NoDup;
    var others := Minus(items, {t});
    HasMinus(items, same);
    HasMinus(items, {t});
    HasMinus(others, same);
    var a, b := Minus(items, same), Only(others, same);
    assert DeferOrder(items, t, same) == a + ([t] + b);
    FrontNew(b, t);
    ApartJoins(a, [t] + b);
  }

  lemma {:induction false} ApartJoins(a: seq<T>, b: seq<T>)
    requires NoDup(a) && NoDup(b) && forall t | t in a :: t !in b
    ensures NoDup(a + b)
  {
    forall i, j | 0 <= i < j < |a + b| ensures (a + b)[i] != (a + b)[j] {
      if i < |a| <= j {
        assert a[i] in a && b[j - |a|] in b;
      }
    }
  }

  lemma {:induction false} DeferredValid(n: Net, t: T)
    requires Valid(n) && t in n.ready
    ensures Valid(n.(status := n.status[t := Deferred]))
  {
    var m := n.(status := n.status[t := Deferred]);
    assert t in n.place && Placed(n, t);
    forall x | x in m.place ensures Placed(m, x) {
      assert Placed(n, x);
    }
    forall d, x | d in m.queue && x in m.queue[d] ensures Queued(m, d, x) {
      assert Queued(n, d, x);
    }
  }

  lemma {:induction false} DeferredGood(n: Net, t: T)
    requires Good(n) && t in n.ready
    ensures Good(n.(status := n.status[t := Deferred]))
  {
    hide Stream, Valid;
    DeferredValid(n, t);
    var m := n.(status := n.status[t := Deferred]);
    forall c | c in m.queue ensures Stream(m, c) {
      SameStream(n, m, c);
    }
    forall x | Is(m, x, Disconnected) ensures Is(n, x, Disconnected) {
    }
  }

  lemma {:induction false} DeferGood(n: Net, t: T)
    requires Good(n) && t in n.ready
    ensures t in n.owner && Good(Defer(n, t))
  {
    hide Good, DeferOrder;
    ReadyOwned(n, t);
    ListsTidy(n);
    var same := Of(n, n.owner[t]);
    DeferredGood(n, t);
    DeferOrderHolds(n.ready, t, same);
    ReorderedGood(n.(status := n.status[t := Deferred]), DeferOrder(n.ready, t, same), n.writing);
  }

  lemma {:induction false} OutputGood(n: Net, t: T, bytes: seq<char>)
    requires Good(n) && t in n.ready
    ensures Good(Output(n, t, bytes))
  {
    hide Stream, Valid;
    ReadyOwned(n, t);
    SameValid(n, Output(n, t, bytes));
    forall c | c in n.queue ensures Stream(Output(n, t, bytes), c) {
      OutputStream(n, t, bytes, c);
    }
  }

  lemma {:induction false} RotateGood(n: Net)
    requires Good(n)
    ensures Good(Rotate(n))
  {
    hide Good;
    if |n.writing| >= 2 {
      ListsTidy(n);
      var w := n.writing[1..] + [n.writing[0]];
      forall t: T ensures t in w <==> t in n.writing {
        Rotated(n.writing, t);
      }
      Rotated(n.writing, n.writing[0]);
      ReorderedGood(n, n.ready, w);
    }
  }

  lemma {:induction false} HeadIsReady(n: Net)
    requires Good(n) && n.writing != []
    ensures HeadReady(n) && First(n.queue[n.owner[n.writing[0]]], n.writing[0])
    ensures forall c | c in n.queue && c != n.owner[n.writing[0]] :: n.writing[0] !in n.queue[c]
  {
    Held(n);
    var t := n.writing[0];
    assert t in n.writing;
    assert Stream(n, n.owner[t]);
    forall c | c in n.queue ensures t in n.queue[c] ==> Queued(n, c, t) {
    }
  }

  lemma {:induction false} WrittenGood(n: Net, k: nat)
    requires Good(n) && HeadReady(n) && 0 < k <= |n.pending[n.writing[0]]| && k <= TCP_WND && n.window == None
    ensures Good(Written(n, k))
  {
    hide Stream, Placed, Queued, Inside;
    HeadIsReady(n);
    var m := Written(n, k);
    SameValid(n, m);
    forall c | c in m.queue ensures Stream(m, c) {
      WrittenStream(n, k, c);
    }
  }

  lemma {:induction false} FinishGood(n: Net)
    requires Good(n) && HeadReady(n) && n.pending[n.writing[0]] == []
    ensures Good(Finish(n))
  {
    hide Stream, Placed, Queued, Inside, NoRepeats;
    HeadIsReady(n);
    FinishKeeps(n);
    var m := Finish(n);
    forall c | c in m.queue ensures Stream(m, c) {
      FinishStream(n, c);
    }
    FinishPending(n);
  }

  lemma {:induction false} FinishPending(n: Net)
    requires Good(n) && HeadReady(n)
    ensures Finish(n).place.Keys == n.place.Keys
  {
    var t := n.writing[0];
    assert t in n.writing && t in n.place;
    var q := n.queue[n.owner[t]];
    assert |q| > 1 ==> q[1] in q;
  }

  lemma {:induction false} SendGood(n: Net, k: nat)
    requires Good(n) && HeadReady(n) && n.window == None && k <= |n.pending[n.writing[0]]|
    requires n.writing[0] !in n.closing ==> k <= TCP_WND && (k == 0 ==> n.pending[n.writing[0]] == [])
    ensures Good(SendHead(n, k))
  {
    hide Good, Close, Written, Finish;
    var t := n.writing[0];
    var c := n.owner[t];
    if t in n.closing {
      CloseGood(n, c);
    } else if k > 0 {
      WrittenGood(n, k);
    } else if c !in n.persist && |n.queue[c]| == 1 {
      MarkedGood(n, n.connected, n.persist, n.closing + {t});
    } else {
      FinishGood(n);
    }
  }

  lemma {:induction false} AcknowledgeGood(n: Net, c: C, len: nat)
    requires Good(n) && c in n.queue && c in n.acked && c in n.sent && n.acked[c] + len <= |n.sent[c]|
    ensures Good(Acknowledge(n, c, len))
  {
    hide Stream, Valid, Windowed, Goodbyes;
    var m := Acknowledge(n, c, len);
    SameValid(n, m);
    AcknowledgeWindowed(n, c, len);
    SameGoodbyes(n, m);
    forall d | d in m.queue ensures Stream(m, d) {
      SameStream(n, m, d);
    }
  }

  lemma {:induction false} SameGoodbyes(n: Net, m: Net)
    requires Goodbyes(n) && m.ready == n.ready && m.owner == n.owner && m.connected <= n.connected
    requires m.status == n.status
    ensures Goodbyes(m)
  {
    forall t ensures Is(m, t, Disconnected) <==> Is(n, t, Disconnected) {
    }
  }

  lemma {:induction false} AcknowledgeWindowed(n: Net, c: C, len: nat)
    requires Windowed(n) && c in n.queue && c in n.acked && c in n.sent && n.acked[c] + len <= |n.sent[c]|
    ensures Windowed(Acknowledge(n, c, len))
  {
    var m := Acknowledge(n, c, len);
    assert Acked(n, c);
    forall d | d in m.queue ensures Acked(m, d) {
      assert Acked(n, d);
    }
  }

  lemma {:induction false} GracefulGood(n: Net, c: C)
    requires Good(n) && c in n.connected
    ensures c in n.queue && Good(Graceful(n, c))
  {
    hide Good, Prepared;
    ConnectedOpen(n, c);
    if n.free != [] {
      var o := Marked(n, n.connected - {c}, n.persist, n.closing);
      MarkedGood(n, n.connected - {c}, n.persist, n.closing);
      JoinedGood(o, c, Disconnected, false);
      var m := Joined(o, c, Disconnected, false);
      MarkedGood(m, m.connected, m.persist, Graceful(n, c).closing);
      GracefulIs(n, c);
    }
  }

  lemma {:induction false} GracefulIs(n: Net, c: C)
    requires c in n.queue && n.free != []
    ensures var m := Joined(Marked(n, n.connected - {c}, n.persist, n.closing), c, Disconnected, false);
            Graceful(n, c) == Marked(m, m.connected, m.persist, Graceful(n, c).closing)
  {
  }

  lemma {:induction false} ConnectedOpen(n: Net, c: C)
    requires Good(n) && c in n.connected
    ensures c in n.queue
    ensures NoGoodbye(Marked(n, n.connected - {c}, n.persist, n.closing), c)
  {
  }

  /** Every step the network can take keeps the whole invariant, and no transaction appears or disappears. */
  lemma {:induction false} StepKeeps(n: Net, s: Step)
    requires Good(n) && Enabled(n, s)
    ensures Good(Next(n, s))
  {
    hide Good, Opened, Prepared, Get, Defer, Discard, Commit, SendHead, Rotate, HeadReady, Close, Acknowledge, Graceful,
         Output;
    match s {
      case Accepted(c) =>
        OpenedGood(n, c);
        if n.free != [] {
          OpenedRest(n, c);
          JoinedGood(Opened(n, c), c, Connected, false);
        }
      case Received(c) =>
        if n.free != [] {
          JoinedGood(n, c, Receiving, false);
        }
      case ClosedGracefully(c) => GracefulGood(n, c);
      case AcquireFor(c) =>
        if n.free != [] {
          JoinedGood(n, c, Acquired, true);
        }
      case GetFor(c) => GetGood(n, c);
      case WriteTo(t, bytes) => OutputGood(n, t, bytes);
      case CommitOf(t, keep) => CommitGood(n, t, keep);
      case DeferOf(t) => DeferGood(n, t);
      case DiscardOf(t) => DiscardGood(n, t);
      case SendOne(k) =>
        RotateGood(n);
        SendEnabled(n, k);
        SendGood(Rotate(n), k);
      case Acknowledged(c, len) => AcknowledgeGood(n, c, len);
      case Lost(c) =>
        ConnectedOpen(n, c);
        CloseGood(n, c);
    }
  }

  lemma {:induction false} OpenedRest(n: Net, c: C)
    ensures Opened(n, c).free == n.free && c in Opened(n, c).queue && Opened(n, c).place == n.place
  {
  }

  lemma {:induction false} SendEnabled(n: Net, k: nat)
    requires Enabled(n, SendOne(k))
    ensures var m := Rotate(n);
            && HeadReady(m) && m.window == None && k <= |m.pending[m.writing[0]]|
            && (m.writing[0] !in m.closing ==> k <= TCP_WND && (k == 0 ==> m.pending[m.writing[0]] == []))
            && (m.writing[0] in m.closing ==> k == 0) && m.closing == n.closing
  {
  }

  /** No step makes a transaction appear or disappear. */
  lemma {:induction false} StepConserves(n: Net, s: Step)
    requires Good(n) && Enabled(n, s)
    ensures Next(n, s).place.Keys == n.place.Keys
  {
    hide *;
    CanStep(n, s);
    EachStepIs(n, s);
    FreeInside(n);
    if s.Accepted? || s.Received? || s.ClosedGracefully? {
      JoinConserves(n, s.c, Receiving);
      return;
    }
    match s {
      case AcquireFor(c) => AcquireConserves(n, c);
      case GetFor(c) => ListsConserve(n, c);
      case WriteTo(t, bytes) => DataConserves(n, t, bytes);
      case CommitOf(t, keep) => CommitConserves(n, t, keep);
      case DeferOf(t) => DeferConserves(n, t);
      case DiscardOf(t) => DiscardConserves(n, t);
      case SendOne(k) =>
        RotateGood(n);
        SendConserves(Rotate(n), k);
        RotateConserves(n);
      case Acknowledged(c, len) => AckConserves(n, c, len);
      case Lost(c) => CloseConserves(n, c);
      case _ =>
    }
  }

  /** Each step by its own name. */
  lemma {:induction false} EachStepIs(n: Net, s: Step)
    requires Good(n) && Enabled(n, s)
    ensures match s {
      case Accepted(c) => Next(n, s) == Accept(n, c)
      case Received(c) => Next(n, s) == Receive(n, c, Receiving)
      case ClosedGracefully(c) => c in n.queue && Next(n, s) == Graceful(n, c)
      case AcquireFor(c) => Next(n, s) == Acquire(n, c)
      case GetFor(c) => Next(n, s) == Get(n, c)
      case WriteTo(t, bytes) => Next(n, s) == Output(n, t, bytes) && t in n.place
      case CommitOf(t, keep) =>
        && t in n.ready && t in n.place && t in n.owner && n.owner[t] in n.queue && t in n.pending
        && n.owner[t] in n.promised && Next(n, s) == Commit(n, t, keep)
      case DeferOf(t) => t in n.owner && Next(n, s) == Defer(n, t)
      case DiscardOf(t) => t in n.owner && n.owner[t] in n.queue && Next(n, s) == Discard(n, t)
      case SendOne(k) =>
        && HeadReady(Rotate(n)) && k <= |Rotate(n).pending[Rotate(n).writing[0]]|
        && Next(n, s) == SendHead(Rotate(n), k)
      case Acknowledged(c, len) => c in n.acked && Next(n, s) == Acknowledge(n, c, len)
      case Lost(c) => c in n.queue && Next(n, s) == Close(n, c)
    }
  {
    hide Good, Accept, Receive, Graceful, Acquire, Get, Output, Commit, Defer, Discard, SendHead, Rotate, HeadReady,
         Acknowledge, Close;
    CanStep(n, s);
    if s.WriteTo? || s.CommitOf? {
      ReadyOwned(n, s.t);
    }
  }

  lemma {:induction false} FreeInside(n: Net)
    requires Good(n)
    ensures n.free != [] ==> n.free[0] in n.place
  {
  }

  lemma {:induction false} JoinConserves(n: Net, c: C, s: Status)
    requires n.free != [] ==> n.free[0] in n.place
    ensures Receive(n, c, s).place.Keys == n.place.Keys && Accept(n, c).place.Keys == n.place.Keys
    ensures c in n.queue ==> Graceful(n, c).place.Keys == n.place.Keys
  {
  }

  lemma {:induction false} AcquireConserves(n: Net, c: C)
    requires n.free != [] ==> n.free[0] in n.place
    ensures Acquire(n, c).place.Keys == n.place.Keys
  {
  }

  lemma {:induction false} ListsConserve(n: Net, c: C)
    ensures Get(n, c).place == n.place
  {
    hide Minus, Only;
  }

  lemma {:induction false} DataConserves(n: Net, t: T, bytes: seq<char>)
    ensures Output(n, t, bytes).place == n.place
  {
  }

  lemma {:induction false} DeferConserves(n: Net, t: T)
    requires t in n.owner
    ensures Defer(n, t).place == n.place
  {
    hide DeferOrder;
  }

  lemma {:induction false} AckConserves(n: Net, c: C, len: nat)
    requires c in n.acked
    ensures Acknowledge(n, c, len).place == n.place
  {
  }

  lemma {:induction false} CloseConserves(n: Net, c: C)
    requires c in n.queue
    ensures Close(n, c).place.Keys == n.place.Keys
  {
    hide CloseQueue, GiveUp;
    GiveUpRest(n, Of(n, c));
  }

  lemma {:induction false} DiscardConserves(n: Net, t: T)
    requires t in n.owner && n.owner[t] in n.queue
    ensures Discard(n, t).place.Keys == n.place.Keys
  {
    hide Close, GiveUp;
    GiveUpRest(n, {t});
    CloseConserves(GiveUp(n, {t}), n.owner[t]);
  }

  lemma {:induction false} CommitConserves(n: Net, t: T, keep: bool)
    requires t in n.place && t in n.owner && n.owner[t] in n.queue && t in n.pending && n.owner[t] in n.promised
    ensures Commit(n, t, keep).place.Keys == n.place.Keys
  {
    hide Discard, GiveUp, Enqueue;
    var c := n.owner[t];
    DiscardConserves(n, t);
    EnqueueConserves(n, t);
    GiveUpRest(n, Of(n, c) - {t});
    GiveUpData(n, Of(n, c) - {t});
    EnqueueConserves(GiveUp(n, Of(n, c) - {t}), t);
  }

  lemma {:induction false} GiveUpData(n: Net, some: set<T>)
    ensures GiveUp(n, some).pending == n.pending && GiveUp(n, some).promised == n.promised
  {
    hide Minus, Only;
  }

  lemma {:induction false} EnqueueConserves(n: Net, t: T)
    requires t in n.place && t in n.owner && n.owner[t] in n.queue && t in n.pending && n.owner[t] in n.promised
    ensures Enqueue(n, t).place.Keys == n.place.Keys
  {
    hide Minus;
  }

  lemma {:induction false} RotateConserves(n: Net)
    ensures Rotate(n).place == n.place
  {
  }

  lemma {:induction false} SendConserves(n: Net, k: nat)
    requires Good(n) && HeadReady(n) && k <= |n.pending[n.writing[0]]|
    ensures SendHead(n, k).place.Keys == n.place.Keys
  {
    hide Good, CloseQueue, GiveUp;
    FinishPending(n);
    var c := n.owner[n.writing[0]];
    GiveUpRest(n, Of(n, c));
  }

  /** The network at start-up: every transaction is free and no connection is open. */
  ghost function Start(all: seq<T>): Net {
    var place := map t | t in all :: Free;
    var pending: map<T, seq<char>> := map t | t in all :: [];
    Net(all, [], [], map[], place, map[], map[], {}, {}, {}, pending, map[], map[], None, 0, map[])
  }

  lemma {:induction false} StartGood(all: seq<T>)
    requires NoDup(all)
    ensures Good(Start(all)) && forall t :: t in all <==> t in Start(all).place
  {
    assert Start(all).pending.Keys == Start(all).place.Keys;
  }

  ghost predicate Runs(n: Net, steps: seq<Step>)
    requires Good(n)
    decreases |steps|
  {
    steps == [] || (Enabled(n, steps[0]) && (StepKeeps(n, steps[0]); Runs(Next(n, steps[0]), steps[1..])))
  }

  ghost function After(n: Net, steps: seq<Step>): (m: Net)
    requires Good(n) && Runs(n, steps)
    ensures Good(m) && m.place.Keys == n.place.Keys
    decreases |steps|
  {
    if steps == [] then n
    else
      StepKeeps(n, steps[0]);
      StepConserves(n, steps[0]);
      After(Next(n, steps[0]), steps[1..])
  }

  ghost function Tail(q: seq<T>): seq<T> { if q == [] then [] else q[1..] }

  ghost predicate Waits(n: Net, t: T) { exists c :: c in n.queue && t in Tail(n.queue[c]) }

  function Bit(b: bool): nat { if b then 1 else 0 }

  /** A transaction is on exactly one of the three lists, or waits behind exactly one connection. */
  ghost predicate InOnePlace(n: Net, t: T) {
    && Bit(t in n.free) + Bit(t in n.ready) + Bit(t in n.writing) + Bit(Waits(n, t)) == 1
    && forall c, d | c in n.queue && d in n.queue && t in n.queue[c] && t in n.queue[d] :: c == d
  }

  lemma {:induction false} OnePlace(n: Net, t: T)
    requires Valid(n) && t in n.place
    ensures InOnePlace(n, t)
  {
    hide Inside;
    assert Placed(n, t);
    forall c | c in n.queue ensures t in Tail(n.queue[c]) <==> n.place[t] == Waiting(c) {
      TailWaits(n, c, t);
    }
    forall c | c in n.queue ensures t in n.queue[c] ==> Queued(n, c, t) {
    }
  }

  lemma {:induction false} TailWaits(n: Net, c: C, t: T)
    requires Valid(n) && c in n.queue && t in n.place
    ensures t in Tail(n.queue[c]) <==> n.place[t] == Waiting(c)
  {
    hide Inside;
    var q := n.queue[c];
    assert Placed(n, t) && (t in q ==> Queued(n, c, t));
    if q != [] {
      assert q == [q[0]] + Tail(q);
    }
  }

  /** Over every run from start-up, each transaction is in exactly one place, all lists are free of repetition, and each
      connection has at most one transaction in the writing list. */
  lemma {:induction false} PartitionOverRuns(all: seq<T>, steps: seq<Step>)
    requires NoDup(all) && Good(Start(all)) && Runs(Start(all), steps)
    ensures var m := After(Start(all), steps);
            && (forall t | t in all :: InOnePlace(m, t))
            && NoRepeats(m) && Inside(m) && (forall t :: t in m.place <==> t in all)
            && forall t, x | t in m.writing && x in m.writing && t in m.owner && Owns(m, x, m.owner[t]) :: t == x
  {
    hide Placed, Queued, Runs, Streams, Windowed, Goodbyes;
    StartGood(all);
    var m := After(Start(all), steps);
    forall t | t in all ensures InOnePlace(m, t) {
      assert t in m.place.Keys;
      OnePlace(m, t);
    }
    Held(m);
  }

  /** Over every run from start-up, what an open connection was given and what its queue still holds make up what was
      committed on it, in the order of the commits; once the queue is empty all of it was given. Whenever a window may
      be filled, everything sent before on any open connection has been acknowledged. */
  lemma {:induction false} StreamsOverRuns(all: seq<T>, steps: seq<Step>, c: C)
    requires NoDup(all) && Good(Start(all)) && Runs(Start(all), steps) && c in After(Start(all), steps).queue
    ensures var m := After(Start(all), steps);
            && c in m.sent && c in m.promised && c in m.acked
            && m.promised[c] == m.sent[c] + Owed(m.queue[c], m.pending)
            && (m.queue[c] == [] ==> m.sent[c] == m.promised[c])
            && |m.sent[c]| - m.acked[c] <= TCP_WND
            && forall k: nat | Enabled(m, SendOne(k)) :: m.acked[c] == |m.sent[c]| && k <= TCP_WND
  {
    hide Valid, Runs, Goodbyes;
    var m := After(Start(all), steps);
    assert Stream(m, c) && Acked(m, c);
  }

  /** What a step promises on a connection: the output of a transaction that is committed on it. */
  ghost function Promise(n: Net, s: Step, c: C): seq<char> {
    if s.CommitOf? && Owns(n, s.t, c) && c in n.connected && s.t in n.pending then n.pending[s.t] else []
  }

  /** What a step gives to the TCP stack for a connection: the next bytes of the transaction whose turn it is. */
  ghost function Given(n: Net, s: Step, c: C): seq<char> {
    if s.SendOne? && HeadReady(Rotate(n)) then
      var t := Rotate(n).writing[0];
      if t !in n.closing && Owns(n, t, c) && s.k <= |n.pending[t]| then n.pending[t][..s.k] else []
    else []
  }

  /** Only a commit promises anything and only sending gives anything, each at the end of what came before. */
  lemma {:induction false} StepStreams(n: Net, s: Step, c: C)
    requires Good(n) && Enabled(n, s) && c in n.queue && c in Next(n, s).queue
    ensures var m := Next(n, s);
            && c in n.promised && c in m.promised && m.promised[c] == n.promised[c] + Promise(n, s, c)
            && c in n.sent && c in m.sent && m.sent[c] == n.sent[c] + Given(n, s, c)
  {
    hide *;
    OpenStream(n, c);
    EachStepIs(n, s);
    if s.CommitOf? || s.SendOne? || s.Accepted? {
      match s {
        case CommitOf(t, keep) => CommitStreams(n, t, keep, c);
        case SendOne(k) =>
          SendEnabled(n, k);
          SendClosing(n, k);
          SendStreams(n, k, c);
        case Accepted(d) =>
          NotYetOpen(n, d);
          AcceptStreams(n, d, c);
        case _ =>
      }
    } else {
      QuietStreams(n, s);
    }
    OnlyThese(n, s, c);
    Unchanged(n.promised[c]);
    Unchanged(n.sent[c]);
  }

  lemma {:induction false} Unchanged(a: seq<char>)
    ensures a + [] == a
  {
  }

  /** A step that is no commit promises nothing, and one that is no send gives nothing. */
  lemma {:induction false} OnlyThese(n: Net, s: Step, c: C)
    ensures !s.CommitOf? ==> Promise(n, s, c) == []
    ensures !s.SendOne? ==> Given(n, s, c) == []
  {
  }

  lemma {:induction false} SendClosing(n: Net, k: nat)
    requires Enabled(n, SendOne(k))
    ensures HeadReady(Rotate(n)) && (Rotate(n).writing[0] !in n.closing || k == 0)
  {
    hide Rotate, HeadReady, NoGoodbye;
    RotateRest(n);
  }

  lemma {:induction false} NotYetOpen(n: Net, d: C)
    requires Enabled(n, Accepted(d))
    ensures d !in n.queue
  {
  }

  /** The other steps leave all streams alone. */
  lemma {:induction false} QuietStreams(n: Net, s: Step)
    requires Good(n) && Enabled(n, s) && !s.CommitOf? && !s.SendOne? && !s.Accepted?
    ensures Next(n, s).sent == n.sent && Next(n, s).promised == n.promised
  {
    hide *;
    EachStepIs(n, s);
    match s {
      case DiscardOf(t) => DiscardStreams(n, t);
      case Lost(d) => CloseStreams(n, d);
      case Received(d) => ReceiveStreams(n, d, Receiving);
      case ClosedGracefully(d) => GracefulStreams(n, d);
      case AcquireFor(d) => AcquireStreams(n, d);
      case GetFor(d) => GetStreams(n, d);
      case WriteTo(t, bytes) => OutputStreams(n, s);
      case DeferOf(t) => DeferStreams(n, t);
      case Acknowledged(d, len) => AcknowledgeStreams(n, d, len);
      case _ =>
    }
  }

  /** What is promised on a connection by the steps of a run. */
  ghost function Promises(n: Net, steps: seq<Step>, c: C): seq<char>
    requires Good(n) && Runs(n, steps)
    decreases |steps|
  {
    if steps == [] then []
    else
      StepKeeps(n, steps[0]);
      Promise(n, steps[0], c) + Promises(Next(n, steps[0]), steps[1..], c)
  }

  /** What is given to the TCP stack for a connection by the steps of a run. */
  ghost function Gifts(n: Net, steps: seq<Step>, c: C): seq<char>
    requires Good(n) && Runs(n, steps)
    decreases |steps|
  {
    if steps == [] then []
    else
      StepKeeps(n, steps[0]);
      Given(n, steps[0], c) + Gifts(Next(n, steps[0]), steps[1..], c)
  }

  /** A connection is open throughout a run. */
  ghost predicate StaysOpen(n: Net, steps: seq<Step>, c: C)
    requires Good(n) && Runs(n, steps)
    decreases |steps|
  {
    c in n.queue && (steps == [] || (StepKeeps(n, steps[0]); StaysOpen(Next(n, steps[0]), steps[1..], c)))
  }

  /** While a connection stays open its streams grow exactly by what the steps promise and give. */
  lemma {:induction false} StreamsGrow(n: Net, steps: seq<Step>, c: C)
    requires Good(n) && Runs(n, steps) && StaysOpen(n, steps, c)
    ensures var m := After(n, steps);
            && c in m.queue && c in n.promised && c in m.promised && c in n.sent && c in m.sent
            && m.promised[c] == n.promised[c] + Promises(n, steps, c)
            && m.sent[c] == n.sent[c] + Gifts(n, steps, c)
    decreases |steps|
  {
    hide Good, Enabled, Next, Promise, Given;
    OpenStream(n, c);
    if steps != [] {
      var m := Next(n, steps[0]);
      StepKeeps(n, steps[0]);
      StreamsGrow(m, steps[1..], c);
      StepStreams(n, steps[0], c);
      Joins(n.promised[c], Promise(n, steps[0], c), Promises(m, steps[1..], c));
      Joins(n.sent[c], Given(n, steps[0], c), Gifts(m, steps[1..], c));
    }
  }

  lemma {:induction false} Joins(a: seq<char>, b: seq<char>, c: seq<char>)
    ensures a + b + c == a + (b + c)
  {
  }

  /** A new connection starts with nothing promised and nothing given. */
  lemma {:induction false} AcceptedEmpty(n: Net, c: C)
    requires Good(n) && Enabled(n, Accepted(c)) && c in Next(n, Accepted(c)).queue
    ensures var m := Next(n, Accepted(c)); c in m.promised && m.promised[c] == [] && c in m.sent && m.sent[c] == []
  {
    hide Good, Receive;
    ReceiveStreams(Opened(n, c), c, Connected);
  }

  /**
   * From the moment a connection is accepted, and as long as it is open, whatever else happens: what has been committed
   * on it is, in the order of the commits, what has been given to the TCP stack for it followed by what its queue still
   * holds. With the queue empty, all of it has been given.
   */
  lemma {:induction false} CommitsAreSent(all: seq<T>, before: seq<Step>, c: C, steps: seq<Step>)
    requires NoDup(all) && Good(Start(all)) && Runs(Start(all), before)
    requires Enabled(After(Start(all), before), Accepted(c))
    requires var n := Next(After(Start(all), before), Accepted(c));
      Good(n) && Runs(n, steps) && StaysOpen(n, steps, c)
    ensures var n := Next(After(Start(all), before), Accepted(c));
      var m := After(n, steps);
      && c in m.queue && Promises(n, steps, c) == Gifts(n, steps, c) + Owed(m.queue[c], m.pending)
      && (m.queue[c] == [] ==> Gifts(n, steps, c) == Promises(n, steps, c))
  {
    hide Good, Enabled, Next, Promises, Gifts, Runs, Owed;
    var n := Next(After(Start(all), before), Accepted(c));
    OpenAtFirst(n, steps, c);
    AcceptedEmpty(After(Start(all), before), c);
    StreamsGrow(n, steps, c);
    var m := After(n, steps);
    StreamIs(m, c);
    Nothing(Promises(n, steps, c), Gifts(n, steps, c), Owed(m.queue[c], m.pending));
  }

  lemma {:induction false} OpenAtFirst(n: Net, steps: seq<Step>, c: C)
    requires Good(n) && Runs(n, steps) && StaysOpen(n, steps, c)
    ensures c in n.queue
  {
  }

  lemma {:induction false} StreamIs(n: Net, c: C)
    requires Good(n) && c in n.queue
    ensures c in n.promised && c in n.sent && n.promised[c] == n.sent[c] + Owed(n.queue[c], n.pending)
    ensures n.queue[c] == [] ==> Owed(n.queue[c], n.pending) == []
  {
    assert Stream(n, c);
  }

  lemma {:induction false} Nothing(a: seq<char>, b: seq<char>, c: seq<char>)
    ensures [] + a == a && [] + b + c == b + c && (c == [] ==> b + c == b)
  {
  }

  lemma {:induction false} OutputStreams(n: Net, s: Step)
    ensures s.WriteTo? ==> Output(n, s.t, s.bytes).sent == n.sent && Output(n, s.t, s.bytes).promised == n.promised
  {
  }

  lemma {:induction false} DeferStreams(n: Net, t: T)
    requires t in n.owner
    ensures Defer(n, t).sent == n.sent && Defer(n, t).promised == n.promised
  {
  }

  lemma {:induction false} ReceiveStreams(n: Net, d: C, s: Status)
    ensures Receive(n, d, s).sent == n.sent && Receive(n, d, s).promised == n.promised
  {
  }

  lemma {:induction false} GracefulStreams(n: Net, d: C)
    requires d in n.queue
    ensures Graceful(n, d).sent == n.sent && Graceful(n, d).promised == n.promised
  {
    hide Receive;
    ReceiveStreams(n, d, Disconnected);
  }

  lemma {:induction false} AcquireStreams(n: Net, d: C)
    ensures Acquire(n, d).sent == n.sent && Acquire(n, d).promised == n.promised
  {
  }

  lemma {:induction false} GetStreams(n: Net, d: C)
    ensures Get(n, d).sent == n.sent && Get(n, d).promised == n.promised
  {
    hide Minus, Only;
  }

  lemma {:induction false} AcknowledgeStreams(n: Net, d: C, len: nat)
    requires d in n.acked
    ensures Acknowledge(n, d, len).sent == n.sent && Acknowledge(n, d, len).promised == n.promised
  {
  }

  lemma {:induction false} AcceptStreams(n: Net, d: C, c: C)
    requires c != d && c in n.sent && c in n.promised
    ensures var m := Accept(n, d);
      c in m.sent && m.sent[c] == n.sent[c] && c in m.promised && m.promised[c] == n.promised[c]
  {
    hide Receive;
    ReceiveStreams(Opened(n, d), d, Connected);
  }

  lemma {:induction false} OpenStream(n: Net, c: C)
    requires Good(n) && c in n.queue
    ensures c in n.promised && c in n.sent
  {
    assert Stream(n, c);
  }

  lemma {:induction false} CloseStreams(n: Net, c: C)
    requires c in n.queue
    ensures Close(n, c).sent == n.sent && Close(n, c).promised == n.promised
  {
    hide CloseQueue;
    CloseQueueRest(GiveUp(n, Of(n, c)), c);
  }

  lemma {:induction false} DiscardStreams(n: Net, t: T)
    requires t in n.owner && n.owner[t] in n.queue
    ensures Discard(n, t).sent == n.sent && Discard(n, t).promised == n.promised
  {
    hide Close;
    if Is(n, t, Disconnected) {
      CloseStreams(GiveUp(n, {t}), n.owner[t]);
    }
  }

  lemma {:induction false} CommitStreams(n: Net, t: T, keep: bool, c: C)
    requires t in n.owner && n.owner[t] in n.queue && t in n.pending && n.owner[t] in n.promised && c in n.promised
    ensures Commit(n, t, keep).sent == n.sent && c in Commit(n, t, keep).promised
    ensures Commit(n, t, keep).promised[c] == n.promised[c] + Promise(n, CommitOf(t, keep), c)
  {
    hide Discard, Minus, Only;
    assert n.promised[c] + [] == n.promised[c];
    if n.owner[t] !in n.connected {
      DiscardStreams(n, t);
    }
  }

  lemma {:induction false} SendStreams(n: Net, k: nat, c: C)
    requires HeadReady(Rotate(n)) && k <= |Rotate(n).pending[Rotate(n).writing[0]]| && c in n.sent
    requires Rotate(n).writing[0] !in n.closing || k == 0
    ensures var m := SendHead(Rotate(n), k);
            m.promised == n.promised && c in m.sent && m.sent[c] == n.sent[c] + Given(n, SendOne(k), c)
  {
    hide Close, Finish, Rotate, Written, HeadReady;
    RotateRest(n);
    var r := Rotate(n);
    HeadReadyIs(r);
    var t := r.writing[0];
    if t in r.closing {
      CloseStreams(r, r.owner[t]);
    } else if k > 0 {
      WrittenSends(r, k, c);
    } else {
      FinishSends(r);
    }
    assert n.sent[c] + [] == n.sent[c] && n.pending[t][..0] == [];
  }

  lemma {:induction false} RotateRest(n: Net)
    ensures Rotate(n).sent == n.sent && Rotate(n).promised == n.promised
    ensures Rotate(n).owner == n.owner && Rotate(n).queue == n.queue
    ensures Rotate(n).pending == n.pending && Rotate(n).closing == n.closing
    ensures Rotate(n).ready == n.ready && Rotate(n).status == n.status
  {
    if |n.writing| < 2 {
      assert Rotate(n) == n;
    } else {
      var writing := n.writing[1..] + [n.writing[0]];
      var r := n.(writing := writing);
      assert r.sent == n.sent && r.promised == n.promised && r.owner == n.owner;
      assert r.queue == n.queue && r.pending == n.pending && r.closing == n.closing;
      assert Rotate(n) == r;
    }
  }

  lemma {:induction false} HeadReadyIs(n: Net)
    requires HeadReady(n)
    ensures HeadQueued(n) && n.writing != [] && n.writing[0] in n.owner && n.writing[0] in n.pending
    ensures n.owner[n.writing[0]] in n.queue && n.owner[n.writing[0]] in n.sent
  {
  }

  lemma {:induction false} WrittenSends(n: Net, k: nat, c: C)
    requires HeadReady(n) && k <= |n.pending[n.writing[0]]| && c in n.sent
    ensures var m := Written(n, k); var t := n.writing[0];
      && m.promised == n.promised && c in m.sent
      && m.sent[c] == if n.owner[t] == c then n.sent[c] + n.pending[t][..k] else n.sent[c]
  {
  }

  lemma {:induction false} FinishSends(n: Net)
    requires HeadQueued(n)
    ensures Finish(n).sent == n.sent && Finish(n).promised == n.promised
  {
  }
}
