/** Whole runs of the network in memory, whatever the TCP stack and the clients do. */
module NetworkRuns {
  import opened Basics
  import opened Options
  import opened Transactions
  import opened TransactionFlow
  import opened NetworkQueues
  import opened TransactionSteps
  import opened TransactionSending

  /**
   * What the TCP stack, the clients of the network and its own loop do to it: something to connection i of those
   * accepted so far, or to transaction j of the ready list. It is done if there is such a transaction, or if the
   * connection still has its protocol control block.
   */
  datatype Op =
    | Accepting | Arriving(i: nat) | Finishing(i: nat) | Acquiring(i: nat) | Getting(i: nat)
    | Text(j: nat, text: seq<char>) | Stack(j: nat, chain: seq<seq<char>>) | File(j: nat, file: seq<char>)
    | Committing(j: nat, keep: bool) | Deferring(j: nat) | Discarding(j: nat)
    | Spinning | Acking(i: nat, len: nat) | Losing(i: nat)

  predicate OnConnection(op: Op) {
    op.Arriving? || op.Finishing? || op.Acquiring? || op.Getting? || op.Acking? || op.Losing?
  }

  predicate Writes(op: Op) { op.Text? || op.Stack? || op.File? }

  predicate OnTransaction(op: Op) { op.Committing? || op.Deferring? || op.Discarding? }

  /** The output with something put in somewhere. */
  ghost predicate Inserted(before: seq<char>, more: seq<char>, after: seq<char>) {
    exists a: nat | a <= |before| :: after == before[..a] + more + before[a..]
  }

  ghost predicate Present(n: Net, known: seq<C>, i: nat) { i < |known| && known[i] in n.connected }

  ghost function Unacked(n: Net, c: C): nat { if InWindow(n, c) then n.outstanding else 0 }

  /** The step that an operation on a connection takes. */
  ghost function ConnectionStep(n: Net, c: C, op: Op): Step
    requires OnConnection(op)
  {
    match op
    case Arriving(i) => Received(c)
    case Finishing(i) => ClosedGracefully(c)
    case Acquiring(i) => AcquireFor(c)
    case Getting(i) => GetFor(c)
    case Acking(i, len) => Acknowledged(c, Min(len, Unacked(n, c)))
    case Losing(i) => Lost(c)
  }

  ghost function TransactionStep(t: T, op: Op): Step
    requires OnTransaction(op)
  {
    match op
    case Committing(j, keep) => CommitOf(t, keep)
    case Deferring(j) => DeferOf(t)
    case Discarding(j) => DiscardOf(t)
  }

  /** What an operation does to the output of a transaction of a connection that is still there. */
  ghost predicate Writing(before: seq<char>, op: Op, after: seq<char>)
    requires Writes(op)
  {
    match op
    case Text(j, text) => Inserted(before, text, after)
    case Stack(j, chain) => Inserted(before, ChainBytes(chain), after) || after == before
    case File(j, file) => exists a: nat | a <= |before| :: after == before[..a] + file
  }

  /** What may become of an operation: nothing, or a step. */
  ghost predicate Meets(n: Net, known: seq<C>, op: Op, s: Option<Step>) {
    if OnConnection(op) then s == if Present(n, known, op.i) then Some(ConnectionStep(n, known[op.i], op)) else None
    else if op.Accepting? then s.Some? && s.value.Accepted?
    else if op.Spinning? then
      if MaySend(n) && Unannounced(n) then s.Some? && s.value.SendOne? else s.None?
    else if op.j >= |n.ready| then s.None?
    else
      var t := n.ready[op.j];
      if OnTransaction(op) then s == Some(TransactionStep(t, op))
      else if t !in n.owner || n.owner[t] !in n.connected then s.None?
      else
        && s.Some? && s.value.WriteTo? && s.value.t == t && t in n.pending
        && Writing(n.pending[t], op, s.value.bytes)
  }

  ghost predicate Possible(n: Net, s: Option<Step>) { s.Some? ==> Enabled(n, s.value) }

  ghost function Became(n: Net, s: Option<Step>): (m: Net)
    requires Good(n) && Possible(n, s)
    ensures Good(m) && m.place.Keys == n.place.Keys
  {
    hide *;
    if s.None? then n
    else
      PossibleSome(n, s);
      StepKeeps(n, s.value);
      StepConserves(n, s.value);
      Next(n, s.value)
  }

  lemma {:induction false} PossibleSome(n: Net, s: Option<Step>)
    requires Possible(n, s) && s.Some?
    ensures Enabled(n, s.value)
  {
  }

  // ---------------------------------------------------------------- what the TCP stack is given

  type Delivery = (C, seq<char>)

  /** The bytes that a step gives to the TCP stack, with the connection they are for. */
  ghost function Delivered(n: Net, s: Step): seq<Delivery> {
    if s.SendOne? && HeadReady(Rotate(n)) && s.k <= |HeadOutput(n)|
    then [(Rotate(n).owner[Rotate(n).writing[0]], HeadOutput(n)[..s.k])] else []
  }

  ghost function Deliveries(n: Net, steps: seq<Step>): seq<Delivery>
    requires Good(n) && Runs(n, steps)
    decreases |steps|
  {
    if steps == [] then []
    else
      StepKeeps(n, steps[0]);
      Delivered(n, steps[0]) + Deliveries(Next(n, steps[0]), steps[1..])
  }

  function BytesFor(log: seq<Delivery>, c: C): seq<char> {
    if log == [] then [] else (if log[0].0 == c then log[0].1 else []) + BytesFor(log[1..], c)
  }

  lemma {:induction false} BytesForJoin(a: seq<Delivery>, b: seq<Delivery>, c: C)
    ensures BytesFor(a + b, c) == BytesFor(a, c) + BytesFor(b, c)
  {
    if a == [] {
      assert a + b == b;
    } else {
      BytesForJoin(a[1..], b, c);
      assert (a + b)[1..] == a[1..] + b;
      Joins(if a[0].0 == c then a[0].1 else [], BytesFor(a[1..], c), BytesFor(b, c));
    }
  }

  /** What is delivered for a connection over a run is what the steps of the run give it. */
  lemma {:induction false} DeliveriesAreGifts(n: Net, steps: seq<Step>, c: C)
    requires Good(n) && Runs(n, steps)
    ensures BytesFor(Deliveries(n, steps), c) == Gifts(n, steps, c)
    decreases |steps|
  {
    hide Good, Enabled, Next, Delivered, Given, BytesFor;
    if steps == [] {
      NothingFor(c);
    } else {
      StepKeeps(n, steps[0]);
      var m := Next(n, steps[0]);
      DeliveriesAreGifts(m, steps[1..], c);
      DeliveredIsGiven(n, steps[0], c);
      BytesForJoin(Delivered(n, steps[0]), Deliveries(m, steps[1..]), c);
    }
  }

  lemma {:induction false} NothingFor(c: C)
    ensures BytesFor([], c) == []
  {
  }

  lemma {:induction false} DeliveredIsGiven(n: Net, s: Step, c: C)
    requires Good(n) && Enabled(n, s)
    ensures BytesFor(Delivered(n, s), c) == Given(n, s, c)
  {
    hide Good, Rotate, NoGoodbye;
    if s.SendOne? {
      RotateRest(n);
      SendEnabled(n, s.k);
      OneFor(Rotate(n).owner[Rotate(n).writing[0]], HeadOutput(n)[..s.k], c);
    }
  }

  lemma {:induction false} OneFor(d: C, bytes: seq<char>, c: C)
    ensures BytesFor([(d, bytes)], c) == if d == c then bytes else []
  {
    assert [(d, bytes)][1..] == [];
    assert BytesFor([(d, bytes)], c) == (if d == c then bytes else []) + BytesFor([], c);
  }

  ghost function DeliveredBy(n: Net, s: Option<Step>): seq<Delivery> { if s.None? then [] else Delivered(n, s.value) }

  // ---------------------------------------------------------------- which connections are open

  /** Only accepting a connection opens one. */
  lemma {:induction false} OpenConnections(n: Net, s: Step)
    requires Good(n) && Enabled(n, s)
    ensures Next(n, s).queue.Keys <= n.queue.Keys + if s.Accepted? then {s.c} else {}
  {
    hide *;
    EachStepIs(n, s);
    RotateRest(n);
    match s {
      case Accepted(c) => AcceptConnections(n, c);
      case CommitOf(t, keep) => CommitConnections(n, t, keep);
      case DiscardOf(t) => DiscardConnections(n, t);
      case SendOne(k) => SendConnections(Rotate(n), k);
      case Lost(c) => CloseConnections(n, c);
      case _ => QuietConnections(n, s);
    }
  }

  lemma {:induction false} AcceptConnections(n: Net, c: C)
    ensures Accept(n, c).queue.Keys <= n.queue.Keys + {c}
  {
  }

  lemma {:induction false} CloseConnections(n: Net, c: C)
    requires c in n.queue
    ensures Close(n, c).queue.Keys <= n.queue.Keys
  {
    hide GiveUp, CloseQueue;
    GiveUpRest(n, Of(n, c));
    assert Close(n, c).queue == n.queue - {c};
  }

  lemma {:induction false} DiscardConnections(n: Net, t: T)
    requires t in n.owner && n.owner[t] in n.queue
    ensures Discard(n, t).queue.Keys <= n.queue.Keys
  {
    hide GiveUp, Close;
    GiveUpRest(n, {t});
    CloseConnections(GiveUp(n, {t}), n.owner[t]);
  }

  lemma {:induction false} CommitConnections(n: Net, t: T, keep: bool)
    requires t in n.owner && n.owner[t] in n.queue && t in n.pending && n.owner[t] in n.promised
    ensures Commit(n, t, keep).queue.Keys <= n.queue.Keys
  {
    hide GiveUp, Discard, Minus;
    GiveUpRest(n, Of(n, n.owner[t]) - {t});
    DiscardConnections(n, t);
  }

  lemma {:induction false} SendConnections(n: Net, k: nat)
    requires HeadReady(n) && k <= |n.pending[n.writing[0]]|
    ensures SendHead(n, k).queue.Keys <= n.queue.Keys
  {
    hide Close, SendHead;
    if n.writing[0] in n.closing {
      CloseConnections(n, n.owner[n.writing[0]]);
      ClosesHead(n, k);
    } else {
      SentKeys(n, k);
    }
  }

  lemma {:induction false} ClosesHead(n: Net, k: nat)
    requires HeadReady(n) && k <= |n.pending[n.writing[0]]| && n.writing[0] in n.closing
    ensures SendHead(n, k) == Close(n, n.owner[n.writing[0]])
  {
    hide Close;
  }

  lemma {:induction false} QuietConnections(n: Net, s: Step)
    requires Good(n) && Enabled(n, s) && !(s.Accepted? || s.CommitOf? || s.DiscardOf? || s.SendOne? || s.Lost?)
    ensures Next(n, s).queue == n.queue
  {
    hide Good, Enabled, Next, DeferOrder, Only, Minus;
    EachStepIs(n, s);
  }

  // ---------------------------------------------------------------- one operation in memory

  /** The transaction at some place in the ready list. */
  method NthReady(w: Network, j: nat) returns (t: NetworkTransaction?)
    requires w.Repr()
    ensures t == At(w.net.ready, j)
  {
    hide *;
    ReprParts(w);
    t := w.readyTransactions;
    var k := 0;
    ListStarts(t, w.net.ready);
    while k < j && t != null
      invariant k <= j && t == At(w.net.ready, k)
      decreases j - k
    {
      ListGoesOn(w.readyTransactions, w.net.ready, k);
      t := t.next;
      k := k + 1;
    }
    BeyondEnd(w.net.ready, k, j);
  }

  lemma {:induction false} ListStarts(head: NetworkTransaction?, items: seq<T>)
    requires List(head, items)
    ensures head == At(items, 0)
  {
  }

  lemma {:induction false} ListGoesOn(head: NetworkTransaction?, items: seq<T>, k: nat)
    requires List(head, items) && At(items, k) != null
    ensures k < |items| && At(items, k) == items[k] && At(items, k).next == At(items, k + 1)
  {
    assert items[k].next == At(items, k + 1);
  }

  lemma {:induction false} BeyondEnd(items: seq<T>, k: nat, j: nat)
    requires k <= j && (k == j || At(items, k) == null)
    ensures At(items, j) == At(items, k)
  {
  }

  /** Whether a ready transaction announces the end of a connection. */
  method GoodbyeQueued(w: Network, c: ConnectionState) returns (queued: bool)
    requires w.Repr() && Good(w.net)
    ensures queued <==> !NoGoodbye(w.net, c)
  {
    hide *;
    ReprParts(w);
    var t := w.readyTransactions;
    var k := 0;
    ListStarts(t, w.net.ready);
    NoneYet(w.net, c);
    while t != null
      invariant k <= |w.net.ready| && t == At(w.net.ready, k) && NoneBefore(w.net, c, k)
      decreases |w.net.ready| - k
    {
      ListGoesOn(w.readyTransactions, w.net.ready, k);
      ReadyIn(w.net, k);
      DiscardFacts(w.net, t);
      if t.cs == c && t.status == Disconnected {
        SomeGoodbye(w.net, c, t);
        return true;
      }
      OneMore(w.net, c, k);
      t := t.next;
      k := k + 1;
    }
    NoneAtAll(w.net, c, k);
    return false;
  }

  ghost predicate NoneBefore(n: Net, c: C, k: nat) {
    forall i | 0 <= i < k && i < |n.ready| :: !(Owns(n, n.ready[i], c) && Is(n, n.ready[i], Disconnected))
  }

  lemma {:induction false} NoneYet(n: Net, c: C)
    ensures NoneBefore(n, c, 0)
  {
  }

  lemma {:induction false} ReadyIn(n: Net, k: nat)
    requires k < |n.ready|
    ensures n.ready[k] in n.ready
  {
  }

  lemma {:induction false} SomeGoodbye(n: Net, c: C, t: T)
    requires t in n.ready && t in n.owner && n.owner[t] == c && Is(n, t, Disconnected)
    ensures !NoGoodbye(n, c)
  {
  }

  lemma {:induction false} OneMore(n: Net, c: C, k: nat)
    requires NoneBefore(n, c, k) && k < |n.ready| && n.ready[k] in n.owner
    requires n.owner[n.ready[k]] != c || !Is(n, n.ready[k], Disconnected)
    ensures NoneBefore(n, c, k + 1)
  {
  }

  lemma {:induction false} NoneAtAll(n: Net, c: C, k: nat)
    requires NoneBefore(n, c, k) && At(n.ready, k) == null
    ensures NoGoodbye(n, c)
  {
  }

  /** The connection for which data would be sent next, if that can happen now. */
  method NextSender(w: Network) returns (c: ConnectionState?)
    requires w.Repr() && Good(w.net)
    ensures c != null <==> MaySend(w.net) && Unannounced(w.net)
    ensures c != null ==> HeadReady(Rotate(w.net)) && c == Rotate(w.net).owner[Rotate(w.net).writing[0]]
  {
    hide *;
    ghost var n := w.net;
    ReprParts(w);
    Idle(n, w.freeTransactions, w.readyTransactions, w.writingTransactions, w.sendingConnection, w.sentDataOutstanding);
    NotSending(n);
    if w.writingTransactions == null || w.sendingConnection != null {
      return null;
    }
    WritingHead(n, w.freeTransactions, w.readyTransactions, w.writingTransactions);
    var t := if w.writingTransactions.next == null then w.writingTransactions else w.writingTransactions.next;
    SenderFacts(n, t);
    c := t.cs;
    if t.closeRequested {
      var queued := GoodbyeQueued(w, c);
      if queued {
        return null;
      }
    }
  }

  lemma {:induction false} NotSending(n: Net)
    ensures !MaySend(n) ==> Unannounced(n)
  {
  }

  lemma {:induction false} WritingHead(n: Net, free: NetworkTransaction?, ready: NetworkTransaction?,
                                       writing: NetworkTransaction?)
    requires Lists(free, ready, writing, n) && n.writing != []
    ensures writing != null && Rotate(n).writing != []
    ensures Rotate(n).writing[0] == if writing.next == null then writing else writing.next
  {
    hide List, Apart, Rotate;
    ListStarts(writing, n.writing);
    ListGoesOn(writing, n.writing, 0);
    RotatedHead(n);
  }

  lemma {:induction false} RotatedHead(n: Net)
    requires n.writing != []
    ensures Rotate(n).writing != []
    ensures Rotate(n).writing[0] == if |n.writing| < 2 then n.writing[0] else n.writing[1]
  {
    var rotated := n.writing[1..] + [n.writing[0]];
    assert |n.writing| >= 2 ==> rotated[0] == n.writing[1];
  }

  lemma {:induction false} SenderFacts(n: Net, t: T)
    requires Good(n) && AllMatch(n) && n.writing != [] && Rotate(n).writing != [] && t == Rotate(n).writing[0]
    ensures HeadReady(Rotate(n)) && t in n.owner && t.cs == n.owner[t] && Rotate(n).owner == n.owner
    ensures MaySend(n) ==> (Unannounced(n) <==> (t.closeRequested ==> NoGoodbye(n, n.owner[t])))
  {
    hide Good, Matches, Rotate, HeadReady, NoGoodbye;
    var m := Rotate(n);
    RotateRest(n);
    RotateGood(n);
    HeadIsReady(m);
    Parts(n);
    Held(n);
    RotatedHead(n);
    assert t in n.writing;
    assert In(n, t, Place.Writing) && Matches(n, t);
    MatchesOwner(n, t);
    RotatedGoodbye(n, n.owner[t]);
  }

  lemma {:induction false} RotatedGoodbye(n: Net, c: C)
    ensures NoGoodbye(Rotate(n), c) <==> NoGoodbye(n, c)
  {
    hide Rotate;
    RotateRest(n);
  }

  /** An operation on a connection that still has its protocol control block. */
  method PerformOnConnection(w: Network, c: ConnectionState, op: Op)
    requires w.Repr() && Good(w.net) && OnConnection(op) && c in w.net.connected && c in w.net.queue
    modifies w, w.net.place.Keys, c
    ensures w.Repr() && Good(w.net) && Gone(old(w.net.queue.Keys), w.net)
    ensures Enabled(old(w.net), ConnectionStep(old(w.net), c, op))
    ensures w.net == Next(old(w.net), ConnectionStep(old(w.net), c, op))
  {
    hide Network.Repr, Good, Enabled, Next, Min, Unacked, Gone;
    ghost var n := w.net;
    ConnectionEnabled(w.net, c, op);
    match op {
      case Arriving(i) =>
        var _ := w.ReceiveInput(c);
      case Finishing(i) =>
        var _ := w.ConnectionClosedGracefully(c);
      case Acquiring(i) =>
        var _ := w.AcquireTransaction(c);
      case Getting(i) =>
        var _ := w.GetTransaction(c);
      case Acking(i, len) =>
        var unacked := Outstanding(w, c);
        ConnSent(w, c, Min(len, unacked));
      case Losing(i) =>
        ConnectionLost(w, c);
    }
    if op.Losing? {
      LostIs(n, c);
      ClosedKeys(n, c);
      OneGone(n.queue.Keys, w.net, c);
    } else {
      QuietConnections(n, ConnectionStep(n, c, op));
      NoneGone(n.queue.Keys, w.net);
    }
  }

  lemma {:induction false} ConnectionEnabled(n: Net, c: C, op: Op)
    requires Good(n) && OnConnection(op) && c in n.connected && c in n.queue
    ensures Enabled(n, ConnectionStep(n, c, op))
  {
    hide Valid, Streams, Goodbyes;
    assert Acked(n, c);
  }

  /** How much of what was sent to a connection is not acknowledged. */
  method Outstanding(w: Network, c: ConnectionState) returns (unacked: nat)
    requires w.Repr()
    ensures unacked == Unacked(w.net, c)
  {
    hide *;
    ReprParts(w);
    WindowFacts(w.net, w.sendingConnection, w.sentDataOutstanding, c);
    unacked := if w.sendingConnection == c then w.sentDataOutstanding else 0;
    UnackedIs(w.net, c);
  }

  lemma {:induction false} UnackedIs(n: Net, c: C)
    ensures Unacked(n, c) == if InWindow(n, c) then n.outstanding else 0
  {
  }

  /** An operation of a client on a ready transaction. */
  method PerformOnTransaction(w: Network, t: NetworkTransaction, op: Op)
    requires w.Repr() && Good(w.net) && OnTransaction(op) && t in w.net.ready
    modifies w, w.net.place.Keys, w.net.queue.Keys
    ensures w.Repr() && Good(w.net) && Gone(old(w.net.queue.Keys), w.net)
    ensures Enabled(old(w.net), TransactionStep(t, op))
    ensures w.net == Next(old(w.net), TransactionStep(t, op))
  {
    hide Network.Repr, Good, Enabled, Next, Gone;
    ghost var n := w.net;
    TransactionEnabled(w.net, t, op);
    ReadyOwned(w.net, t);
    match op {
      case Committing(j, keep) =>
        CommitTransaction(w, t, keep);
      case Deferring(j) =>
        QuietConnections(n, DeferOf(t));
        DeferTransaction(w, t);
        NoneGone(n.queue.Keys, w.net);
      case Discarding(j) =>
        DiscardTransaction(w, t);
    }
  }

  lemma {:induction false} TransactionEnabled(n: Net, t: T, op: Op)
    requires OnTransaction(op) && t in n.ready
    ensures Enabled(n, TransactionStep(t, op))
  {
  }

  /** Gives a ready transaction more output, if its connection is still there. */
  method PerformWrite(w: Network, t: NetworkTransaction, op: Op) returns (ghost bytes: seq<char>)
    requires w.Repr() && Good(w.net) && Writes(op) && t in w.net.ready
    modifies w, w.net.place.Keys
    ensures w.Repr() && Good(w.net) && t in old(w.net).owner && t in old(w.net).pending
    ensures old(w.net).owner[t] !in old(w.net).connected ==> w.net == old(w.net)
    ensures old(w.net).owner[t] in old(w.net).connected ==>
      w.net == Output(old(w.net), t, bytes) && Writing(old(w.net).pending[t], op, bytes)
  {
    hide *;
    ghost var n := w.net;
    WriteFacts(w, t);
    IsWrite(op);
    match op {
      case Text(j, text) =>
        bytes := OutputOf(t.sendBuffer + [text], t.sendStack, t.fileBeingSent);
        TextWrites(t.sendBuffer, t.sendStack, t.fileBeingSent, op);
        WriteText(w, t, text);
      case Stack(j, chain) =>
        bytes := if chain != [] && |t.sendStack| < OUTPUT_STACK_DEPTH
                 then OutputOf(t.sendBuffer, t.sendStack + [chain], t.fileBeingSent) else n.pending[t];
        StackWrites(t.sendBuffer, t.sendStack, t.fileBeingSent, op);
        WriteChain(w, t, chain);
      case File(j, file) =>
        bytes := OutputOf(t.sendBuffer, t.sendStack, Some(file));
        FileWrites(t.sendBuffer, t.sendStack, t.fileBeingSent, op);
        SetFileToWrite(w, t, file);
    }
  }

  lemma {:induction false} WriteFacts(w: Network, t: T)
    requires w.Repr() && Good(w.net) && t in w.net.ready
    ensures t in w.net.place && t in w.net.owner && t in w.net.pending && t.cs == w.net.owner[t]
    ensures t.cs.isConnected <==> w.net.owner[t] in w.net.connected
    ensures OutputOf(t.sendBuffer, t.sendStack, t.fileBeingSent) == w.net.pending[t]
    ensures Output(w.net, t, w.net.pending[t]) == w.net
  {
    hide *;
    var n := w.net;
    ReprParts(w);
    ReadyOwned(n, t);
    ReadyMatches(n, t);
    DiscardFacts(n, t);
    ServedConnected(n, n.owner[t]);
    OutputSame(n, t);
  }

  lemma {:induction false} IsWrite(op: Op)
    ensures Writes(op) <==> op.Text? || op.Stack? || op.File?
    ensures OnConnection(op) || OnTransaction(op) || Writes(op) || op.Accepting? || op.Spinning?
    ensures op.Spinning? ==> !OnConnection(op)
  {
  }

  lemma {:induction false} ServedConnected(n: Net, c: C)
    requires AllServe(n) && c in n.queue
    ensures c.isConnected <==> c in n.connected
  {
    assert Serves(n, c);
  }

  lemma {:induction false} OutputSame(n: Net, t: T)
    requires t in n.pending
    ensures Output(n, t, n.pending[t]) == n
  {
    assert n.pending[t := n.pending[t]] == n.pending;
  }

  lemma {:induction false} PutIn(a: seq<char>, more: seq<char>, b: seq<char>)
    ensures Inserted(a + b, more, a + more + b)
  {
    var before := a + b;
    assert before[..|a|] == a && before[|a|..] == b;
    assert a + more + b == before[..|a|] + more + before[|a|..];
  }

  lemma {:induction false} TextWrites(chain: seq<seq<char>>, stack: seq<seq<seq<char>>>, file: Option<seq<char>>,
                                      op: Op)
    requires op.Text?
    ensures Writing(OutputOf(chain, stack, file), op, OutputOf(chain + [op.text], stack, file))
  {
    hide ChainBytes, StackBytes, FileBytes, Inserted;
    ChainGrows(chain, op.text);
    var a, b, c := ChainBytes(chain), StackBytes(stack), FileBytes(file);
    Joins(a, b, c);
    Joins(a + op.text, b, c);
    PutIn(a, op.text, b + c);
  }

  lemma {:induction false} StackWrites(chain: seq<seq<char>>, stack: seq<seq<seq<char>>>, file: Option<seq<char>>,
                                       op: Op)
    requires op.Stack?
    ensures Writing(OutputOf(chain, stack, file), op, OutputOf(chain, stack + [op.chain], file))
    ensures Writing(OutputOf(chain, stack, file), op, OutputOf(chain, stack, file))
  {
    hide ChainBytes, StackBytes, FileBytes, Inserted;
    StackGrows(stack, op.chain);
    Joins(ChainBytes(chain), StackBytes(stack), ChainBytes(op.chain));
    PutIn(ChainBytes(chain) + StackBytes(stack), ChainBytes(op.chain), FileBytes(file));
  }

  lemma {:induction false} FileWrites(chain: seq<seq<char>>, stack: seq<seq<seq<char>>>, file: Option<seq<char>>,
                                      op: Op)
    requires op.File?
    ensures Writing(OutputOf(chain, stack, file), op, OutputOf(chain, stack, Some(op.file)))
  {
    hide ChainBytes, StackBytes;
    var a := ChainBytes(chain) + StackBytes(stack);
    var before := OutputOf(chain, stack, file);
    assert before[..|a|] == a;
    assert OutputOf(chain, stack, Some(op.file)) == before[..|a|] + op.file;
  }

  lemma {:induction false} ChainGrows(chain: seq<seq<char>>, text: seq<char>)
    ensures ChainBytes(chain + [text]) == ChainBytes(chain) + text
  {
    if chain == [] {
      assert chain + [text] == [text] && [text][1..] == [];
      assert ChainBytes([text]) == text + ChainBytes([]);
    } else {
      ChainGrows(chain[1..], text);
      assert (chain + [text])[1..] == chain[1..] + [text];
      Joins(chain[0], ChainBytes(chain[1..]), text);
    }
  }

  lemma {:induction false} StackGrows(stack: seq<seq<seq<char>>>, chain: seq<seq<char>>)
    ensures StackBytes(stack + [chain]) == StackBytes(stack) + ChainBytes(chain)
  {
    hide ChainBytes;
    if stack == [] {
      assert stack + [chain] == [chain] && [chain][1..] == [];
      assert StackBytes([chain]) == ChainBytes(chain) + StackBytes([]);
    } else {
      StackGrows(stack[1..], chain);
      assert (stack + [chain])[1..] == stack[1..] + [chain];
      Joins(ChainBytes(stack[0]), StackBytes(stack[1..]), ChainBytes(chain));
    }
  }

  /** Sends something, if that can happen now. */
  method PerformSpin(w: Network) returns (given: seq<Delivery>, ghost s: Option<Step>)
    requires w.Repr() && Good(w.net)
    modifies w, w.net.place.Keys, w.net.queue.Keys
    ensures w.Repr() && Good(w.net) && Gone(old(w.net.queue.Keys), w.net)
    ensures Meets(old(w.net), [], Spinning, s) && Possible(old(w.net), s)
    ensures w.net == Became(old(w.net), s) && given == DeliveredBy(old(w.net), s)
  {
    hide *;
    ghost var n := w.net;
    var c := NextSender(w);
    given, s := [], None;
    NothingSpun(n);
    NoneGone(n.queue.Keys, n);
    if c != null {
      var written := Spin(w);
      given, s := [(c, written)], Some(SendOne(|written|));
      SpunIs(n, c, written);
    }
  }

  lemma {:induction false} NothingSpun(n: Net)
    requires Good(n)
    ensures Possible(n, None) && Became(n, None) == n && DeliveredBy(n, None) == []
    ensures !(MaySend(n) && Unannounced(n)) ==> Meets(n, [], Spinning, None)
  {
    hide Good, MaySend, Unannounced;
  }

  lemma {:induction false} SpunIs(n: Net, c: C, written: seq<char>)
    requires Good(n) && MaySend(n) && Unannounced(n) && Enabled(n, SendOne(|written|)) && written <= HeadOutput(n)
    requires HeadReady(Rotate(n)) && c == Rotate(n).owner[Rotate(n).writing[0]]
    ensures var s := Some(SendOne(|written|));
      && Meets(n, [], Spinning, s) && Possible(n, s) && Became(n, s) == Next(n, s.value)
      && DeliveredBy(n, s) == [(c, written)]
  {
    hide Good, Rotate, HeadReady, HeadOutput, Next, Unannounced, Enabled;
    assert HeadOutput(n)[..|written|] == written;
  }

  // ---------------------------------------------------------------- any operation

  function OpenedBy(s: Option<Step>): seq<C> { if s.Some? && s.value.Accepted? then [s.value.c] else [] }

  /** All open connections are known, and those that are not open have no protocol control block. */
  ghost predicate Known(n: Net, known: seq<C>)
    reads known`isConnected
  {
    && (forall c | c in n.queue :: c in known)
    && forall i | 0 <= i < |known| :: known[i] in n.queue || !known[i].isConnected
  }

  lemma {:induction false} StillKnown(n: Net, m: Net, known: seq<C>)
    requires forall c | c in n.queue :: c in known
    requires forall i | 0 <= i < |known| && known[i] !in n.queue :: !known[i].isConnected
    requires m.queue.Keys <= n.queue.Keys && Gone(n.queue.Keys, m)
    ensures Known(m, known)
  {
    assert forall c | c in m.queue :: c in m.queue.Keys && c in n.queue.Keys;
  }

  lemma {:induction false} NoMoreOpen(n: Net, s: Option<Step>)
    requires Good(n) && Possible(n, s) && OpenedBy(s) == []
    ensures Became(n, s).queue.Keys <= n.queue.Keys
  {
    hide Good, Enabled, Next;
    if s.Some? {
      OpenConnections(n, s.value);
    }
  }

  /** A connection that is not open is accepted, if there is a transaction for it. */
  method PerformAccept(w: Network, c: ConnectionState, ghost conns: seq<ConnectionState>)
    requires w.Repr() && Good(w.net) && Known(w.net, conns) && c !in w.net.queue && c !in conns && !c.isConnected
    modifies w, w.net.place.Keys, c
    ensures w.Repr() && Good(w.net) && w.net == Accept(old(w.net), c) && Known(w.net, conns + [c])
  {
    hide *;
    ghost var n := w.net;
    AcceptIs(n, conns, c);
    var r := w.ConnectionAccepted(c);
    NewKnown(n, conns, c);
  }

  lemma {:induction false} AcceptIs(n: Net, known: seq<C>, c: C)
    requires Good(n) && c !in n.queue
    ensures var s := Some(Accepted(c));
      && Enabled(n, s.value) && Possible(n, s) && Meets(n, known, Accepting, s) && OpenedBy(s) == [c]
      && Became(n, s) == Next(n, s.value) && DeliveredBy(n, s) == []
      && Next(n, s.value) == Accept(n, c)
  {
    hide Good, Accept;
    EachStepIs(n, Accepted(c));
  }

  lemma {:induction false} NewKnown(n: Net, known: seq<C>, c: C)
    requires Known(n, known) && (n.free == [] ==> !c.isConnected)
    ensures Known(Accept(n, c), known + [c])
  {
  }

  /** An operation on a known connection, if that has its protocol control block. */
  method PerformAt(w: Network, op: Op, conns: seq<ConnectionState>) returns (ghost s: Option<Step>)
    requires w.Repr() && Good(w.net) && Known(w.net, conns) && OnConnection(op)
    modifies w, w.net.place.Keys, w.net.queue.Keys
    ensures w.Repr() && Good(w.net) && Gone(old(w.net.queue.Keys), w.net)
    ensures Meets(old(w.net), conns, op, s) && Possible(old(w.net), s) && OpenedBy(s) == []
    ensures w.net == Became(old(w.net), s) && DeliveredBy(old(w.net), s) == []
  {
    hide *;
    ghost var n := w.net;
    s := None;
    ReprParts(w);
    NothingDone(n);
    NoneGone(n.queue.Keys, n);
    OnConnectionIs(op);
    if op.i >= |conns| {
      AbsentMeets(n, conns, op);
      return;
    }
    var c := conns[op.i];
    PresentIs(n, conns, op.i);
    if !c.isConnected {
      AbsentMeets(n, conns, op);
      return;
    }
    PresentMeets(n, conns, op);
    s := Some(ConnectionStep(n, c, op));
    PerformOnConnection(w, c, op);
    StepTaken(n, ConnectionStep(n, c, op));
  }

  lemma {:induction false} OnConnectionIs(op: Op)
    requires OnConnection(op)
    ensures op.Arriving? || op.Finishing? || op.Acquiring? || op.Getting? || op.Acking? || op.Losing?
  {
  }

  lemma {:induction false} NothingDone(n: Net)
    requires Good(n)
    ensures Possible(n, None) && Became(n, None) == n && DeliveredBy(n, None) == [] && OpenedBy(None) == []
  {
    hide Good;
  }

  lemma {:induction false} PresentIs(n: Net, known: seq<C>, i: nat)
    requires Good(n) && AllServe(n) && Known(n, known) && i < |known|
    ensures known[i].isConnected <==> Present(n, known, i)
  {
    hide Streams, Windowed, Goodbyes, NoRepeats, Inside, Placed, Queued;
    if known[i] in n.queue {
      ServedConnected(n, known[i]);
    }
  }

  lemma {:induction false} AbsentMeets(n: Net, known: seq<C>, op: Op)
    requires OnConnection(op) && (op.i >= |known| || !Present(n, known, op.i))
    ensures Meets(n, known, op, None)
  {
  }

  lemma {:induction false} PresentMeets(n: Net, known: seq<C>, op: Op)
    requires Good(n) && OnConnection(op) && Present(n, known, op.i)
    ensures op.i < |known| && known[op.i] in n.connected && known[op.i] in n.queue
    ensures var s := Some(ConnectionStep(n, known[op.i], op));
      && Meets(n, known, op, s) && OpenedBy(s) == [] && DeliveredBy(n, s) == []
  {
    hide Good, Next, Enabled;
    ConnectedOpen(n, known[op.i]);
  }

  lemma {:induction false} StepTaken(n: Net, s: Step)
    requires Good(n) && Enabled(n, s)
    ensures Possible(n, Some(s)) && Became(n, Some(s)) == Next(n, s)
  {
    hide Good, Next, Enabled;
  }

  /** An operation on a ready transaction, if there is one at that place. */
  method PerformFor(w: Network, op: Op) returns (ghost s: Option<Step>)
    requires w.Repr() && Good(w.net) && (OnTransaction(op) || Writes(op))
    modifies w, w.net.place.Keys, w.net.queue.Keys
    ensures w.Repr() && Good(w.net) && Gone(old(w.net.queue.Keys), w.net)
    ensures Meets(old(w.net), [], op, s) && Possible(old(w.net), s) && OpenedBy(s) == []
    ensures w.net == Became(old(w.net), s) && DeliveredBy(old(w.net), s) == []
  {
    hide *;
    ghost var n := w.net;
    s := None;
    NothingDone(n);
    NoneGone(n.queue.Keys, n);
    ForIs(n, op);
    var t := NthReady(w, op.j);
    if t == null {
      return;
    }
    if OnTransaction(op) {
      s := Some(TransactionStep(t, op));
      PerformOnTransaction(w, t, op);
      StepTaken(n, TransactionStep(t, op));
    } else {
      ghost var bytes := PerformWrite(w, t, op);
      WriteMeets(n, t, op, bytes);
      s := if n.owner[t] in n.connected then Some(WriteTo(t, bytes)) else None;
      NoneGone(n.queue.Keys, w.net);
    }
  }

  lemma {:induction false} ForIs(n: Net, op: Op)
    requires Good(n) && (OnTransaction(op) || Writes(op))
    ensures op.Text? || op.Stack? || op.File? || op.Committing? || op.Deferring? || op.Discarding?
    ensures At(n.ready, op.j) == null ==> Meets(n, [], op, None)
    ensures OnTransaction(op) <==> !Writes(op)
    ensures var t := At(n.ready, op.j); t != null ==>
      t in n.ready && (OnTransaction(op) ==>
        var s := Some(TransactionStep(t, op));
        Meets(n, [], op, s) && OpenedBy(s) == [] && DeliveredBy(n, s) == [])
  {
    hide Good, Next, Enabled, Writing;
  }

  lemma {:induction false} WriteMeets(n: Net, t: T, op: Op, bytes: seq<char>)
    requires Good(n) && Writes(op) && t == At(n.ready, op.j) && t in n.owner && t in n.pending
    requires n.owner[t] in n.connected ==> Writing(n.pending[t], op, bytes)
    ensures t in n.ready
    ensures var s := if n.owner[t] in n.connected then Some(WriteTo(t, bytes)) else None;
      && Meets(n, [], op, s) && Possible(n, s) && OpenedBy(s) == [] && DeliveredBy(n, s) == []
      && Became(n, s) == if n.owner[t] in n.connected then Output(n, t, bytes) else n
    ensures Output(n, t, bytes).queue == n.queue
  {
    hide Good, Writing;
  }

  /** An operation on what it names, if it is there. */
  method Perform(w: Network, op: Op, conns: seq<ConnectionState>)
    returns (given: seq<Delivery>, more: seq<ConnectionState>, ghost s: Option<Step>)
    requires w.Repr() && Good(w.net) && Known(w.net, conns)
    modifies w, w.net.place.Keys, w.net.queue.Keys
    ensures w.Repr() && Good(w.net) && Meets(old(w.net), conns, op, s) && Possible(old(w.net), s)
    ensures w.net == Became(old(w.net), s) && given == DeliveredBy(old(w.net), s)
    ensures more == OpenedBy(s) && fresh(more) && Known(w.net, conns + more)
  {
    hide *;
    ghost var n := w.net;
    IsWrite(op);
    given, more := [], [];
    if op.Accepting? {
      var c := new ConnectionState(null);
      PerformAccept(w, c, conns);
      more, s := [c], Some(Accepted(c));
      AcceptIs(n, conns, c);
      return;
    }
    KnownAll(n, conns);
    if op.Spinning? {
      given, s := PerformSpin(w);
    } else if OnConnection(op) {
      s := PerformAt(w, op, conns);
    } else {
      s := PerformFor(w, op);
    }
    MeetsAll(n, conns, op, s);
    NoMoreOpen(n, s);
    StillKnown(n, w.net, conns);
    assert conns + [] == conns;
  }

  lemma {:induction false} KnownAll(n: Net, known: seq<C>)
    requires Known(n, known)
    ensures forall c | c in n.queue :: c in known
    ensures forall i | 0 <= i < |known| && known[i] !in n.queue :: !known[i].isConnected
  {
  }

  /** Only operations on connections name one. */
  lemma {:induction false} MeetsAll(n: Net, known: seq<C>, op: Op, s: Option<Step>)
    requires !op.Accepting? && Meets(n, if OnConnection(op) then known else [], op, s)
    ensures Meets(n, known, op, s) && OpenedBy(s) == []
  {
    hide Writing, Unannounced, MaySend;
  }

  // ---------------------------------------------------------------- whole runs

  /** The steps that operations took. */
  ghost function Made(outcomes: seq<Option<Step>>): seq<Step> {
    if outcomes == [] then []
    else
      var last := outcomes[|outcomes| - 1];
      Made(outcomes[..|outcomes| - 1]) + if last.Some? then [last.value] else []
  }

  /** The connections accepted so far. */
  ghost function Accepts(outcomes: seq<Option<Step>>): seq<C> {
    if outcomes == [] then []
    else Accepts(outcomes[..|outcomes| - 1]) + OpenedBy(outcomes[|outcomes| - 1])
  }

  /** Each operation had an outcome that it may have in the state it found. */
  ghost predicate Follows(n: Net, ops: seq<Op>, outcomes: seq<Option<Step>>)
    requires Good(n)
    decreases |ops|
  {
    |ops| == |outcomes| && (ops == [] ||
      var most := outcomes[..|ops| - 1];
      Follows(n, ops[..|ops| - 1], most) && Runs(n, Made(most)) &&
        Meets(After(n, Made(most)), Accepts(most), ops[|ops| - 1], outcomes[|ops| - 1]))
  }

  /** A run with one more step. */
  lemma {:induction false} RunsOn(n: Net, steps: seq<Step>, s: Step)
    requires Good(n) && Runs(n, steps) && Enabled(After(n, steps), s)
    ensures Runs(n, steps + [s]) && After(n, steps + [s]) == Next(After(n, steps), s)
    ensures Deliveries(n, steps + [s]) == Deliveries(n, steps) + Delivered(After(n, steps), s)
    decreases |steps|
  {
    hide Good, Enabled, Next, Delivered;
    if steps == [] {
      OneStep(n, s);
      assert steps + [s] == [s];
    } else {
      StepKeeps(n, steps[0]);
      var m := Next(n, steps[0]);
      RunsOn(m, steps[1..], s);
      assert (steps + [s])[0] == steps[0] && (steps + [s])[1..] == steps[1..] + [s];
    }
  }

  lemma {:induction false} OneStep(n: Net, s: Step)
    requires Good(n) && Enabled(n, s)
    ensures Runs(n, [s]) && After(n, [s]) == Next(n, s) && Deliveries(n, [s]) == Delivered(n, s)
  {
    hide Good, Enabled, Next, Delivered;
    StepKeeps(n, s);
    StepConserves(n, s);
    assert [s][1..] == [];
    assert Runs(Next(n, s), []);
  }

  lemma {:induction false} NothingYet(n: Net)
    requires Good(n)
    ensures Made([]) == [] && Runs(n, []) && After(n, []) == n && Deliveries(n, []) == []
    ensures Follows(n, [], []) && Accepts([]) == []
  {
    hide Good;
  }

  lemma {:induction false} GoesOn(n: Net, ops: seq<Op>, outcomes: seq<Option<Step>>, op: Op, s: Option<Step>)
    requires Good(n) && Follows(n, ops, outcomes) && Runs(n, Made(outcomes))
    requires Meets(After(n, Made(outcomes)), Accepts(outcomes), op, s) && Possible(After(n, Made(outcomes)), s)
    ensures Follows(n, ops + [op], outcomes + [s]) && Runs(n, Made(outcomes + [s]))
    ensures After(n, Made(outcomes + [s])) == Became(After(n, Made(outcomes)), s)
    ensures Deliveries(n, Made(outcomes + [s]))
         == Deliveries(n, Made(outcomes)) + DeliveredBy(After(n, Made(outcomes)), s)
    ensures Accepts(outcomes + [s]) == Accepts(outcomes) + OpenedBy(s)
  {
    hide Good, Enabled, Next, Delivered, Meets, Runs, After, Deliveries, OpenedBy;
    assert (outcomes + [s])[..|outcomes|] == outcomes && (ops + [op])[..|ops|] == ops;
    if s.Some? {
      RunsOn(n, Made(outcomes), s.value);
      assert Made(outcomes + [s]) == Made(outcomes) + [s.value];
    } else {
      assert Made(outcomes + [s]) == Made(outcomes);
    }
  }

  /**
   * Starts the network and performs any operations on it, in any order. The network has then made the steps of the
   * operations, one for each that found what it names, and is where these lead; and for every connection the TCP stack
   * was given exactly the bytes that the steps of the run give it.
   */
  method Run(ops: seq<Op>)
    returns (w: Network, conns: seq<ConnectionState>, log: seq<Delivery>, ghost all: seq<T>,
             ghost outcomes: seq<Option<Step>>)
    ensures NoDup(all) && |all| == NETWORK_TRANSACTION_COUNT && Good(Start(all))
    ensures Follows(Start(all), ops, outcomes) && Runs(Start(all), Made(outcomes)) && conns == Accepts(outcomes)
    ensures w.Repr() && w.net == After(Start(all), Made(outcomes)) && log == Deliveries(Start(all), Made(outcomes))
    ensures forall i | 0 <= i < |conns| ::
      BytesFor(log, conns[i]) == Gifts(Start(all), Made(outcomes), conns[i])
  {
    hide *;
    w := new Network();
    conns, log, outcomes, all := [], [], [], w.net.free;
    ghost var n := w.net;
    StartKnown(n);
    NothingYet(n);
    var i := 0;
    assert ops[..0] == [];
    while i < |ops|
      invariant 0 <= i <= |ops| && fresh(w) && fresh(w.net.place.Keys) && fresh(conns)
      invariant w.Repr() && Good(w.net) && Known(w.net, conns)
      invariant Follows(n, ops[..i], outcomes) && Runs(n, Made(outcomes)) && conns == Accepts(outcomes)
      invariant w.net == After(n, Made(outcomes)) && log == Deliveries(n, Made(outcomes))
    {
      KnownAll(w.net, conns);
      ghost var s;
      var given, more;
      given, more, s := Perform(w, ops[i], conns);
      GoesOn(n, ops[..i], outcomes, ops[i], s);
      assert ops[..i + 1] == ops[..i] + [ops[i]];
      outcomes, conns, log := outcomes + [s], conns + more, log + given;
      i := i + 1;
    }
    assert ops[..i] == ops;
    forall i | 0 <= i < |conns| ensures BytesFor(log, conns[i]) == Gifts(n, Made(outcomes), conns[i]) {
      DeliveriesAreGifts(n, Made(outcomes), conns[i]);
    }
  }

  lemma {:induction false} StartKnown(n: Net)
    requires Good(n) && n == Start(n.free)
    ensures Known(n, []) && NoDup(n.free) && n.place.Keys == (set t | t in n.free)
  {
  }
}
