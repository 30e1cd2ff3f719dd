/** How connections end: kept alive, closed after the last answer, or left by the client. */
module TransactionEnds {
  import opened Basics
  import opened Options
  import opened Transactions
  import opened TransactionFlow
  import opened TransactionTurns

  // ---------------------------------------------------------------- the client leaves

  /** A connection that is not open has nothing to be dealt with or sent. */
  lemma {:induction false} NothingLeft(n: Net, c: C)
    requires Good(n) && c !in n.queue
    ensures forall x | x in n.ready || x in n.writing :: !Owns(n, x, c)
  {
    Held(n);
  }

  lemma {:induction false} GracefulIs(n: Net, c: C)
    requires Good(n) && Enabled(n, ClosedGracefully(c)) && n.free != []
    ensures var m, t := Next(n, ClosedGracefully(c)), n.free[0];
      && Good(m) && m.ready == n.ready + [t] && Owns(m, t, c) && Is(m, t, Disconnected) && c !in m.connected
      && c in n.queue && m.queue == n.queue && (n.queue[c] != [] ==> n.queue[c][0] in m.closing)
  {
    hide Good, Enabled, Next;
    StepKeeps(n, ClosedGracefully(c));
    EachStepIs(n, ClosedGracefully(c));
    if n.queue[c] != [] {
      var head := n.queue[c][..1];
      assert head[0] == n.queue[c][0];
    }
  }

  lemma {:induction false} DiscardedQueue(n: Net, t: T)
    requires Good(n) && Enabled(n, DiscardOf(t))
    ensures Good(Next(n, DiscardOf(t))) && t in n.owner && n.owner[t] in n.queue
    ensures Next(n, DiscardOf(t)).queue == if Is(n, t, Disconnected) then n.queue - {n.owner[t]} else n.queue
  {
    hide Good, Enabled, Next, GiveUp, Close;
    StepKeeps(n, DiscardOf(t));
    EachStepIs(n, DiscardOf(t));
    GiveUpRest(n, {t});
    ClosedQueue(GiveUp(n, {t}), n.owner[t]);
  }

  /**
   * A client that closes its connection is announced: the last ready transaction says so, the transaction that is being
   * sent is asked to close the connection, and when the announcement is discarded the connection is closed and has
   * nothing left in the ready and writing lists.
   */
  lemma {:induction false} GoodbyeCloses(n: Net, c: C)
    requires Good(n) && Enabled(n, ClosedGracefully(c)) && n.free != []
    ensures var m, t := Next(n, ClosedGracefully(c)), n.free[0];
      && Good(m) && m.ready == n.ready + [t] && Owns(m, t, c) && c !in m.connected
      && c in n.queue && (n.queue[c] != [] ==> n.queue[c][0] in m.closing) && Enabled(m, DiscardOf(t))
    ensures var m, t := Next(n, ClosedGracefully(c)), n.free[0];
      var e := Next(m, DiscardOf(t));
      e.queue == n.queue - {c} && forall x | x in e.ready || x in e.writing :: !Owns(e, x, c)
  {
    hide Good, Next;
    GracefulIs(n, c);
    var m, t := Next(n, ClosedGracefully(c)), n.free[0];
    assert t in m.ready;
    DiscardedQueue(m, t);
    NothingLeft(Next(m, DiscardOf(t)), c);
  }

  // ---------------------------------------------------------------- the last answer

  /** A commit that does not keep the connection alive is the last: the others that are ready for it are given up, and
      it is not to persist. One that does leaves them. */
  lemma {:induction false} CommitEnds(n: Net, t: T, keep: bool)
    requires Good(n) && Enabled(n, CommitOf(t, keep)) && t in n.owner && n.owner[t] in n.connected
    ensures var m, c := Next(n, CommitOf(t, keep)), n.owner[t];
      && (c in m.persist <==> keep) && c in n.queue && c in m.queue && m.queue[c] == n.queue[c] + [t]
      && (forall x | x in m.ready :: Owns(m, x, c) ==> keep && x in n.ready && x != t)
      && forall x | x in n.ready && x != t && (keep || !Owns(n, x, c)) :: x in m.ready
  {
    hide Good, Enabled, Next, Discard, Minus, Only, Freed;
    EachStepIs(n, CommitOf(t, keep));
    var c := n.owner[t];
    HasMinus(n.ready, {t});
    if !keep {
      var s := Of(n, c) - {t};
      GiveUpRest(n, s);
      HasMinus(n.ready, s);
      HasMinus(Minus(n.ready, s), {t});
    }
  }

  // ---------------------------------------------------------------- kept alive

  /** A connection that is kept alive: nothing ready or queued for it has been asked to close it. */
  ghost predicate Kept(n: Net, c: C) {
    && c in n.connected && c in n.persist && c in n.queue
    && (forall t | t in n.ready :: t !in n.closing) && forall t | t in n.queue[c] :: t !in n.closing
  }

  /** A step by which the client leaves, or the last answer is committed. */
  ghost predicate Departs(n: Net, s: Step, c: C) {
    || s == ClosedGracefully(c) || s == Lost(c)
    || (s.CommitOf? && Owns(n, s.t, c) && !s.keep)
  }

  /** What keeps a connection alive through a step. */
  lemma {:induction false} StillKept(n: Net, m: Net, c: C, added: set<T>, asked: set<T>)
    requires Kept(n, c) && c in m.connected && c in m.persist && c in m.queue
    requires forall t | t in m.ready :: t in n.ready || t in added
    requires forall t | t in m.queue[c] :: t in n.queue[c] || t in n.ready
    requires forall t | t in m.closing :: t !in added && (t in n.closing || t in asked)
    requires forall t | t in asked :: t !in n.ready && t !in n.queue[c]
    ensures Kept(m, c)
  {
  }

  lemma {:induction false} AsideKept(n: Net, s: Step, c: C)
    requires Good(n) && Enabled(n, s) && Kept(n, c) && !Departs(n, s, c) && Aside(s) && !s.ClosedGracefully?
    ensures Kept(Next(n, s), c)
  {
    hide Good, Enabled, Next, Kept, DeferOrder, Minus, Only, Receive, Accept, Acquire;
    EachStepIs(n, s);
    KeptIs(n, c);
    match s {
      case Accepted(d) => AcceptKept(n, d, c);
      case Received(d) => ReceiveKept(n, d, Receiving, c);
      case AcquireFor(d) => AcquireKept(n, d, c);
      case GetFor(d) =>
        GetReady(n, d);
        ReadyKept(n, Next(n, s), c);
      case DeferOf(t) =>
        OfReady(n, t);
        DeferReady(n, t);
        ReadyKept(n, Next(n, s), c);
      case WriteTo(t, bytes) => ReadyKept(n, Next(n, s), c);
      case Acknowledged(d, len) => ReadyKept(n, Next(n, s), c);
    }
  }

  lemma {:induction false} ReadyKept(n: Net, m: Net, c: C)
    requires Kept(n, c) && m.connected == n.connected && m.persist == n.persist && m.queue == n.queue
    requires m.closing == n.closing && forall t | t in m.ready :: t in n.ready
    ensures Kept(m, c)
  {
  }

  lemma {:induction false} OfReady(n: Net, t: T)
    ensures Enabled(n, DeferOf(t)) || (exists keep :: Enabled(n, CommitOf(t, keep))) ==> t in n.ready
  {
  }

  lemma {:induction false} KeptIs(n: Net, c: C)
    requires Kept(n, c)
    ensures c in n.connected && c in n.persist && c in n.queue
    ensures (forall t | t in n.ready :: t !in n.closing) && forall t | t in n.queue[c] :: t !in n.closing
  {
  }

  lemma {:induction false} AcceptKept(n: Net, d: C, c: C)
    requires Kept(n, c) && Enabled(n, Accepted(d))
    ensures Kept(Accept(n, d), c)
  {
    hide Kept;
    KeptIs(n, c);
    if n.free != [] {
      StillKept(n, Accept(n, d), c, {n.free[0]}, {});
    }
  }

  lemma {:induction false} ReceiveKept(n: Net, d: C, s: Status, c: C)
    requires Kept(n, c)
    ensures Kept(Receive(n, d, s), c)
  {
    hide Kept;
    KeptIs(n, c);
    if n.free != [] {
      StillKept(n, Receive(n, d, s), c, {n.free[0]}, {});
    }
  }

  lemma {:induction false} AcquireKept(n: Net, d: C, c: C)
    requires Kept(n, c)
    ensures Kept(Acquire(n, d), c)
  {
    hide Kept;
    KeptIs(n, c);
    if Acquire(n, d) != n {
      StillKept(n, Acquire(n, d), c, {n.free[0]}, {});
    }
  }

  lemma {:induction false} GetReady(n: Net, d: C)
    ensures forall t | t in Get(n, d).ready :: t in n.ready
  {
    hide Minus, Only;
    HasMinus(n.ready, Of(n, d));
    var mine := Only(n.ready, Of(n, d));
    if mine != [] {
      assert mine[0] in mine;
      HasMinus(n.ready, {mine[0]});
    }
  }

  lemma {:induction false} DeferReady(n: Net, t: T)
    requires t in n.owner && Good(n) && t in n.ready
    ensures forall x | x in Defer(n, t).ready :: x in n.ready
  {
    hide Good, DeferOrder;
    ListsTidy(n);
    DeferOrderHolds(n.ready, t, Of(n, n.owner[t]));
  }

  lemma {:induction false} CloseKept(n: Net, d: C, c: C)
    requires Kept(n, c) && d in n.queue && d != c
    ensures Kept(Close(n, d), c)
  {
    hide Kept, Close, Minus;
    KeptIs(n, c);
    ClosedRest(n, d);
    HasMinus(n.ready, Of(n, d));
    StillKept(n, Close(n, d), c, {}, {});
  }

  lemma {:induction false} ClosedRest(n: Net, d: C)
    requires d in n.queue
    ensures var m := Close(n, d);
      && m.queue == n.queue - {d} && m.connected == n.connected - {d} && m.persist == n.persist
      && m.closing == n.closing && m.ready == Minus(n.ready, Of(n, d))
  {
    hide Minus, Only, Unqueued;
    GiveUpRest(n, Of(n, d));
    UnqueuedRest(GiveUp(n, Of(n, d)), d);
    UnqueuedFlags(GiveUp(n, Of(n, d)), d);
  }

  lemma {:induction false} UnqueuedFlags(n: Net, c: C)
    ensures Unqueued(n, c).persist == n.persist && Unqueued(n, c).closing == n.closing
  {
  }

  lemma {:induction false} GiveUpKept(n: Net, some: set<T>, c: C)
    requires Kept(n, c)
    ensures Kept(GiveUp(n, some), c)
  {
    hide Kept, Minus, Only;
    KeptIs(n, c);
    HasMinus(n.ready, some);
    StillKept(n, GiveUp(n, some), c, {}, {});
  }

  lemma {:induction false} DiscardKept(n: Net, t: T, c: C)
    requires Good(n) && Enabled(n, DiscardOf(t)) && Kept(n, c)
    ensures Kept(Next(n, DiscardOf(t)), c)
  {
    hide Good, Enabled, Next, Kept, GiveUp, Close;
    EachStepIs(n, DiscardOf(t));
    GiveUpKept(n, {t}, c);
    GiveUpRest(n, {t});
    KeptIs(n, c);
    if Is(n, t, Disconnected) {
      GoodbyeGone(n, t);
      CloseKept(GiveUp(n, {t}), n.owner[t], c);
    }
  }

  /** An announcement belongs to a connection that the client has left. */
  lemma {:induction false} GoodbyeGone(n: Net, t: T)
    requires Good(n) && Enabled(n, DiscardOf(t)) && Is(n, t, Disconnected)
    ensures t in n.owner && n.owner[t] !in n.connected
  {
    hide Valid, Streams, Windowed;
  }

  lemma {:induction false} CommitKept(n: Net, t: T, keep: bool, c: C)
    requires Good(n) && Enabled(n, CommitOf(t, keep)) && Kept(n, c) && !Departs(n, CommitOf(t, keep), c)
    ensures Kept(Next(n, CommitOf(t, keep)), c)
  {
    hide Good, Enabled, Next, Kept, GiveUp, Discard, Minus, Enqueue;
    EachStepIs(n, CommitOf(t, keep));
    var d := n.owner[t];
    if d !in n.connected {
      ReadyDiscards(n, t);
      DiscardKept(n, t, c);
      EachStepIs(n, DiscardOf(t));
    } else {
      var g := if keep then n else GiveUp(n, Of(n, d) - {t});
      GiveUpRest(n, Of(n, d) - {t});
      GiveUpKept(n, Of(n, d) - {t}, c);
      OfReady(n, t);
      KeptIs(n, c);
      GiveUpData(n, Of(n, d) - {t});
      HasMinus(n.ready, Of(n, d) - {t});
      EnqueueKept(g, t, c);
      KeptIs(Enqueue(g, t), c);
      StillKept(Enqueue(g, t), Next(n, CommitOf(t, keep)), c, {}, {});
    }
  }

  lemma {:induction false} EnqueueKept(n: Net, t: T, c: C)
    requires t in n.owner && n.owner[t] in n.queue && t in n.pending && n.owner[t] in n.promised && t in n.ready
    requires Kept(n, c)
    ensures Kept(Enqueue(n, t), c)
  {
    hide Kept, Minus;
    KeptIs(n, c);
    HasMinus(n.ready, {t});
    StillKept(n, Enqueue(n, t), c, {}, {});
  }

  lemma {:induction false} GracefulKept(n: Net, d: C, c: C)
    requires Good(n) && Enabled(n, ClosedGracefully(d)) && Kept(n, c) && d != c
    ensures Kept(Next(n, ClosedGracefully(d)), c)
  {
    hide Good, Enabled, Next, Kept;
    EachStepIs(n, ClosedGracefully(d));
    KeptIs(n, c);
    if n.free != [] {
      var asked := Elements(n.queue[d][..if n.queue[d] == [] then 0 else 1]);
      HeadAsked(n, d, c);
      StillKept(n, Next(n, ClosedGracefully(d)), c, {n.free[0]}, asked - {n.free[0]});
    }
  }

  /** The first transaction of a connection is neither free nor ready, nor in the queue of another one. */
  lemma {:induction false} HeadAsked(n: Net, d: C, c: C)
    requires Good(n) && d in n.queue && c in n.queue && c != d
    ensures n.queue[d] != [] ==>
      var t := n.queue[d][0]; t !in n.free && t !in n.ready && t !in n.queue[c]
    ensures Elements(n.queue[d][..if n.queue[d] == [] then 0 else 1])
         == if n.queue[d] == [] then {} else {n.queue[d][0]}
  {
    hide Streams, Windowed, Goodbyes;
    assert n.queue[d] != [] ==> n.queue[d][..1] == [n.queue[d][0]];
    if n.queue[d] != [] {
      var t := n.queue[d][0];
      FirstWrites(n, d);
      Held(n);
      assert t in n.place && Placed(n, t);
      assert t in n.queue[c] ==> Queued(n, c, t);
    }
  }

  lemma {:induction false} SendKept(n: Net, k: nat, c: C)
    requires Good(n) && Enabled(n, SendOne(k)) && Kept(n, c)
    ensures Kept(Next(n, SendOne(k)), c)
  {
    hide Good, Enabled, Next, Rotate, Kept, HeadReady;
    EachStepIs(n, SendOne(k));
    SendEnabled(n, k);
    RotateGood(n);
    RotateKept(n, c);
    HeadReadyIs(Rotate(n));
    HeadIsReady(Rotate(n));
    HeadKept(Rotate(n), k, c);
  }

  lemma {:induction false} RotateKept(n: Net, c: C)
    requires Kept(n, c)
    ensures Kept(Rotate(n), c)
  {
  }

  lemma {:induction false} HeadKept(n: Net, k: nat, c: C)
    requires Good(n) && HeadReady(n) && k <= |n.pending[n.writing[0]]| && Kept(n, c)
    requires First(n.queue[n.owner[n.writing[0]]], n.writing[0])
    ensures Kept(SendHead(n, k), c)
  {
    hide Good, Kept, Close, Written, Finish;
    KeptIs(n, c);
    var t, m := n.writing[0], SendHead(n, k);
    var d := n.owner[t];
    assert t in n.queue[d];
    if t in n.closing {
      CloseKept(n, d, c);
    } else if k > 0 {
      WrittenFlags(n, k);
      StillKept(n, m, c, {}, {});
    } else if d !in n.persist && |n.queue[d]| == 1 {
      HeadAsked(n, d, c);
      StillKept(n, m, c, {}, {t});
    } else {
      FinishFlags(n);
      StillKept(n, m, c, {}, {});
    }
  }

  lemma {:induction false} WrittenFlags(n: Net, k: nat)
    requires HeadReady(n) && k <= |n.pending[n.writing[0]]|
    ensures var m := Written(n, k);
      && m.queue == n.queue && m.connected == n.connected && m.persist == n.persist && m.closing == n.closing
      && m.ready == n.ready
  {
  }

  lemma {:induction false} FinishFlags(n: Net)
    requires HeadQueued(n)
    ensures var m, c := Finish(n), n.owner[n.writing[0]];
      && m.queue == n.queue[c := n.queue[c][1..]] && m.connected == n.connected && m.persist == n.persist
      && m.closing == n.closing && m.ready == n.ready
  {
  }

  lemma {:induction false} KeptStep(n: Net, s: Step, c: C)
    requires Good(n) && Enabled(n, s) && Kept(n, c) && !Departs(n, s, c)
    ensures Kept(Next(n, s), c)
  {
    hide Good, Enabled, Next, Kept, Close;
    match s {
      case SendOne(k) => SendKept(n, k, c);
      case CommitOf(t, keep) => CommitKept(n, t, keep, c);
      case DiscardOf(t) => DiscardKept(n, t, c);
      case Lost(d) =>
        EachStepIs(n, s);
        CloseKept(n, d, c);
      case ClosedGracefully(d) => GracefulKept(n, d, c);
      case _ => AsideKept(n, s, c);
    }
  }

  /** Nothing ends a connection in a run. */
  ghost predicate NobodyLeaves(n: Net, steps: seq<Step>, c: C)
    requires Good(n) && Runs(n, steps)
    decreases |steps|
  {
    steps == [] ||
    (StepKeeps(n, steps[0]);
     !Departs(n, steps[0], c) && NobodyLeaves(Next(n, steps[0]), steps[1..], c))
  }

  /**
   * A connection that is kept alive stays open: over every run in which its client does not leave and every answer on
   * it keeps it alive, whatever happens on other connections and however often something is sent.
   */
  lemma {:induction false} KeptAlive(n: Net, steps: seq<Step>, c: C)
    requires Good(n) && Runs(n, steps) && Kept(n, c) && NobodyLeaves(n, steps, c)
    ensures Kept(After(n, steps), c) && c in After(n, steps).queue && StaysOpen(n, steps, c)
    decreases |steps|
  {
    hide Good, Enabled, Next, Kept, Departs;
    KeptIs(n, c);
    if steps != [] {
      StepKeeps(n, steps[0]);
      KeptStep(n, steps[0], c);
      KeptAlive(Next(n, steps[0]), steps[1..], c);
    }
    KeptIs(After(n, steps), c);
  }

  // ---------------------------------------------------------------- from start-up on

  /** Only transactions that are being sent have been asked to close a connection. */
  ghost predicate Unasked(n: Net) { forall t | t in n.ready :: t !in n.closing }

  lemma {:induction false} StillUnasked(n: Net, m: Net, added: set<T>, asked: set<T>)
    requires Unasked(n) && forall t | t in m.ready :: t in n.ready || t in added
    requires forall t | t in m.closing :: t !in added && (t in n.closing || t in asked)
    requires forall t | t in asked :: t !in n.ready
    ensures Unasked(m)
  {
  }

  lemma {:induction false} AsideUnasked(n: Net, s: Step)
    requires Good(n) && Enabled(n, s) && Unasked(n) && Aside(s) && !s.ClosedGracefully?
    ensures Unasked(Next(n, s))
  {
    hide Good, Enabled, Next, Unasked, DeferOrder, Minus, Only, Receive, Accept, Acquire, Get, Defer;
    EachStepIs(n, s);
    match s {
      case Accepted(d) => JoinUnasked(n, d, Connected);
      case Received(d) => JoinUnasked(n, d, Receiving);
      case AcquireFor(d) => AcquireUnasked(n, d);
      case GetFor(d) =>
        GetReady(n, d);
        GetCloses(n, d);
        StillUnasked(n, Next(n, s), {}, {});
      case DeferOf(t) =>
        OfReady(n, t);
        DeferReady(n, t);
        DeferCloses(n, t);
        StillUnasked(n, Next(n, s), {}, {});
      case WriteTo(t, bytes) => StillUnasked(n, Next(n, s), {}, {});
      case Acknowledged(d, len) => StillUnasked(n, Next(n, s), {}, {});
    }
  }

  lemma {:induction false} GetCloses(n: Net, d: C)
    ensures Get(n, d).closing == n.closing
  {
    hide Minus, Only;
  }

  lemma {:induction false} DeferCloses(n: Net, t: T)
    requires t in n.owner
    ensures Defer(n, t).closing == n.closing
  {
    hide DeferOrder;
  }

  lemma {:induction false} JoinUnasked(n: Net, d: C, s: Status)
    requires Unasked(n)
    ensures Unasked(Receive(n, d, s)) && Unasked(Accept(n, d))
  {
    hide Unasked;
    if n.free != [] {
      StillUnasked(n, Receive(n, d, s), {n.free[0]}, {});
      StillUnasked(n, Accept(n, d), {n.free[0]}, {});
    }
  }

  lemma {:induction false} AcquireUnasked(n: Net, d: C)
    requires Unasked(n)
    ensures Unasked(Acquire(n, d))
  {
    hide Unasked;
    if Acquire(n, d) != n {
      StillUnasked(n, Acquire(n, d), {n.free[0]}, {});
    }
  }

  lemma {:induction false} GracefulUnasked(n: Net, d: C)
    requires Good(n) && Enabled(n, ClosedGracefully(d)) && Unasked(n)
    ensures Unasked(Next(n, ClosedGracefully(d)))
  {
    hide Good, Enabled, Next, Unasked;
    EachStepIs(n, ClosedGracefully(d));
    if n.free != [] {
      var asked := Elements(n.queue[d][..if n.queue[d] == [] then 0 else 1]);
      HeadApart(n, d);
      assert n.queue[d] != [] ==> n.queue[d][..1] == [n.queue[d][0]];
      StillUnasked(n, Next(n, ClosedGracefully(d)), {n.free[0]}, asked - {n.free[0]});
    }
  }

  lemma {:induction false} HeadApart(n: Net, d: C)
    requires Good(n) && d in n.queue
    ensures n.queue[d] != [] ==> n.queue[d][0] !in n.free && n.queue[d][0] !in n.ready
  {
    if n.queue[d] != [] {
      FirstWrites(n, d);
      Held(n);
    }
  }

  lemma {:induction false} CloseUnasked(n: Net, d: C)
    requires Unasked(n) && d in n.queue
    ensures Unasked(Close(n, d))
  {
    hide Unasked, Close, Minus;
    ClosedRest(n, d);
    HasMinus(n.ready, Of(n, d));
    StillUnasked(n, Close(n, d), {}, {});
  }

  lemma {:induction false} GiveUpUnasked(n: Net, some: set<T>)
    requires Unasked(n)
    ensures Unasked(GiveUp(n, some))
  {
    hide Unasked, Minus, Only;
    HasMinus(n.ready, some);
    StillUnasked(n, GiveUp(n, some), {}, {});
  }

  lemma {:induction false} DiscardUnasked(n: Net, t: T)
    requires Unasked(n) && t in n.owner && n.owner[t] in n.queue
    ensures Unasked(Discard(n, t))
  {
    hide Unasked, GiveUp, Close;
    GiveUpUnasked(n, {t});
    GiveUpRest(n, {t});
    if Is(n, t, Disconnected) {
      CloseUnasked(GiveUp(n, {t}), n.owner[t]);
    }
  }

  lemma {:induction false} CommitUnasked(n: Net, t: T, keep: bool)
    requires Unasked(n) && t in n.owner && n.owner[t] in n.queue && t in n.pending && n.owner[t] in n.promised
    ensures Unasked(Commit(n, t, keep))
  {
    hide Unasked, GiveUp, Discard, Minus;
    DiscardUnasked(n, t);
    var some := Of(n, n.owner[t]) - {t};
    GiveUpUnasked(n, some);
    GiveUpRest(n, some);
    GiveUpData(n, some);
    var g := if keep then n else GiveUp(n, some);
    HasMinus(g.ready, {t});
    if n.owner[t] in n.connected {
      StillUnasked(g, Commit(n, t, keep), {}, {});
    }
  }

  lemma {:induction false} SendUnasked(n: Net, k: nat)
    requires Good(n) && Enabled(n, SendOne(k)) && Unasked(n)
    ensures Unasked(Next(n, SendOne(k)))
  {
    hide Good, Enabled, Next, Rotate, HeadReady, Unasked, Close, Written, Finish;
    EachStepIs(n, SendOne(k));
    SendEnabled(n, k);
    RotateGood(n);
    RotateRest(n);
    var r := Rotate(n);
    HeadReadyIs(r);
    HeadIsReady(r);
    StillUnasked(n, r, {}, {});
    var c := r.owner[r.writing[0]];
    HeadApart(r, c);
    CloseUnasked(r, c);
    WrittenFlags(r, k);
    FinishFlags(r);
    StillUnasked(r, Written(r, k), {}, {});
    StillUnasked(r, Finish(r), {}, {});
    StillUnasked(r, r.(closing := r.closing + {r.writing[0]}), {}, {r.writing[0]});
  }

  lemma {:induction false} UnaskedStep(n: Net, s: Step)
    requires Good(n) && Enabled(n, s) && Unasked(n)
    ensures Unasked(Next(n, s))
  {
    hide Good, Enabled, Next, Unasked, Close, Discard, Commit;
    EachStepIs(n, s);
    match s {
      case SendOne(k) => SendUnasked(n, k);
      case CommitOf(t, keep) => CommitUnasked(n, t, keep);
      case DiscardOf(t) => DiscardUnasked(n, t);
      case Lost(d) => CloseUnasked(n, d);
      case ClosedGracefully(d) => GracefulUnasked(n, d);
      case _ => AsideUnasked(n, s);
    }
  }

  lemma {:induction false} UnaskedOverRuns(n: Net, steps: seq<Step>)
    requires Good(n) && Runs(n, steps) && Unasked(n)
    ensures Unasked(After(n, steps))
    decreases |steps|
  {
    hide Good, Enabled, Next, Unasked;
    if steps != [] {
      StepKeeps(n, steps[0]);
      UnaskedStep(n, steps[0]);
      UnaskedOverRuns(Next(n, steps[0]), steps[1..]);
    }
  }

  lemma {:induction false} KeptWhenAccepted(n: Net, c: C)
    requires Good(n) && Enabled(n, Accepted(c)) && n.free != [] && Unasked(n)
    ensures Kept(Next(n, Accepted(c)), c)
  {
    hide Good, Enabled, Next;
    EachStepIs(n, Accepted(c));
  }

  /**
   * From the moment it is accepted, at any time after start-up, a connection stays open until its client leaves or an
   * answer is committed on it that does not keep it alive, whatever happens on other connections and however often
   * something is sent.
   */
  lemma {:induction false} OpenUntilItEnds(all: seq<T>, before: seq<Step>, c: C, steps: seq<Step>)
    requires NoDup(all) && Good(Start(all)) && Runs(Start(all), before)
    requires Enabled(After(Start(all), before), Accepted(c)) && After(Start(all), before).free != []
    requires var n := Next(After(Start(all), before), Accepted(c));
      Good(n) && Runs(n, steps) && NobodyLeaves(n, steps, c)
    ensures var n := Next(After(Start(all), before), Accepted(c));
      StaysOpen(n, steps, c) && c in After(n, steps).connected
  {
    hide Good, Enabled, Next, Runs, Kept, Unasked, NobodyLeaves, StaysOpen;
    NoneAsked(all);
    UnaskedOverRuns(Start(all), before);
    var n := Next(After(Start(all), before), Accepted(c));
    KeptWhenAccepted(After(Start(all), before), c);
    KeptAlive(n, steps, c);
    KeptIs(After(n, steps), c);
  }

  lemma {:induction false} NoneAsked(all: seq<T>)
    ensures Unasked(Start(all))
  {
  }
}
