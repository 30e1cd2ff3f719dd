/** The order in which connections are served: who has a turn, and how long the others wait. */
module TransactionTurns {
  import opened Basics
  import opened Options
  import opened Transactions
  import opened TransactionFlow

  // ---------------------------------------------------------------- the connections that wait to be served

  /** The connections that have something in the writing list, in the order of the list. */
  ghost function Line(n: Net): (line: seq<C>)
    requires Good(n)
    ensures |line| == |n.writing|
    ensures forall i | 0 <= i < |line| :: Owns(n, n.writing[i], line[i])
  {
    WritersOwned(n);
    seq(|n.writing|, i requires 0 <= i < |n.writing| => n.owner[n.writing[i]])
  }

  lemma {:induction false} WritersOwned(n: Net)
    requires Good(n)
    ensures forall i | 0 <= i < |n.writing| ::
      && n.writing[i] in n.owner && n.owner[n.writing[i]] in n.queue
      && First(n.queue[n.owner[n.writing[i]]], n.writing[i]) && n.writing[i] in n.place
  {
    Held(n);
    assert forall i | 0 <= i < |n.writing| :: n.writing[i] in n.writing;
  }

  /** A connection is in line exactly while it has transactions in its queue, and then once. */
  lemma {:induction false} InLine(n: Net)
    requires Good(n)
    ensures NoDup(Line(n))
    ensures forall c :: c in Line(n) <==> c in n.queue && n.queue[c] != []
  {
    hide Streams, Windowed, Goodbyes, Placed;
    WritersOwned(n);
    var line := Line(n);
    forall i, j | 0 <= i < j < |line| ensures line[i] != line[j] {
      assert n.writing[i] != n.writing[j];
    }
    forall c | c in n.queue && n.queue[c] != [] ensures c in line {
      FirstWrites(n, c);
      var i :| 0 <= i < |n.writing| && n.writing[i] == n.queue[c][0];
      assert line[i] == c;
    }
  }

  lemma {:induction false} FirstWrites(n: Net, c: C)
    requires Good(n) && c in n.queue && n.queue[c] != []
    ensures n.queue[c][0] in n.writing && Owns(n, n.queue[c][0], c)
  {
    hide Streams, Windowed, Goodbyes;
    var t := n.queue[c][0];
    assert t in n.queue[c] && Queued(n, c, t);
    assert t in n.place && Placed(n, t);
  }

  // ---------------------------------------------------------------- what a step does to the line

  /** One connection has left the line. */
  ghost predicate Without(line: seq<C>, after: seq<C>) {
    exists i: nat | i < |line| :: after == line[..i] + line[i + 1..]
  }

  /** One has joined it at the end. */
  ghost predicate JoinedLine(line: seq<C>, after: seq<C>) {
    |after| == |line| + 1 && after[..|line|] == line && after[|line|] !in line
  }

  /** The line after a turn: the first goes to the end, and the next one is served. */
  ghost function Turned(line: seq<C>): seq<C> { if |line| < 2 then line else line[1..] + [line[0]] }

  /** The writing list determines the line. */
  lemma {:induction false} SameLine(n: Net, m: Net)
    requires Good(n) && Good(m) && m.writing == n.writing
    requires forall t | t in n.writing && t in n.owner :: t in m.owner && m.owner[t] == n.owner[t]
    ensures Line(m) == Line(n)
  {
    hide Good;
    WritersOwned(n);
    forall i | 0 <= i < |n.writing| ensures Line(m)[i] == Line(n)[i] {
      assert n.writing[i] in n.writing;
    }
  }

  /** With one transaction less in it, one connection less is in line. */
  lemma {:induction false} LessLine(n: Net, m: Net, k: nat)
    requires Good(n) && Good(m) && m.owner == n.owner && k < |n.writing|
    requires m.writing == n.writing[..k] + n.writing[k + 1..]
    ensures Line(m) == Line(n)[..k] + Line(n)[k + 1..]
  {
    hide Good;
  }

  lemma {:induction false} CloseWriting(n: Net, c: C)
    requires c in n.queue
    ensures var m, q := Close(n, c), n.queue[c];
      m.owner == n.owner && m.writing == if q == [] then n.writing else Minus(n.writing, {q[0]})
  {
    hide Minus, Only, Unqueued;
    GiveUpRest(n, Of(n, c));
    UnqueuedRest(GiveUp(n, Of(n, c)), c);
  }

  /** A connection that closes leaves the line, if it is in it. */
  lemma {:induction false} CloseLine(n: Net, c: C)
    requires c in n.queue && Good(n) && Good(Close(n, c))
    ensures if n.queue[c] == [] then Line(Close(n, c)) == Line(n) else Without(Line(n), Line(Close(n, c)))
  {
    hide Good, Close, Minus;
    CloseWriting(n, c);
    var m := Close(n, c);
    if n.queue[c] == [] {
      SameLine(n, m);
    } else {
      FirstWrites(n, c);
      WritingTidy(n);
      var t := n.queue[c][0];
      var k :| 0 <= k < |n.writing| && n.writing[k] == t;
      MinusOne(n.writing, t, k);
      LessLine(n, m, k);
    }
  }

  lemma {:induction false} WritingTidy(n: Net)
    requires Good(n)
    ensures NoDup(n.writing)
  {
  }

  lemma {:induction false} GiveUpLine(n: Net, some: set<T>)
    requires Good(n)
    ensures Good(GiveUp(n, some)) && Line(GiveUp(n, some)) == Line(n)
  {
    hide Good;
    GiveUpGood(n, some);
    GiveUpWriting(n, some);
    SameLine(n, GiveUp(n, some));
  }

  lemma {:induction false} GiveUpWriting(n: Net, some: set<T>)
    ensures GiveUp(n, some).writing == n.writing && GiveUp(n, some).owner == n.owner
    ensures GiveUp(n, some).queue == n.queue
  {
    hide Minus, Only;
  }

  /** A step that touches neither the queues nor the writing list. */
  predicate Aside(s: Step) { !(s.CommitOf? || s.DiscardOf? || s.SendOne? || s.Lost?) }

  lemma {:induction false} AsideLine(n: Net, s: Step)
    requires Good(n) && Enabled(n, s) && Aside(s)
    ensures Good(Next(n, s)) && Line(Next(n, s)) == Line(n)
  {
    hide Good, Enabled, Next;
    StepKeeps(n, s);
    AsideWriting(n, s);
    SameLine(n, Next(n, s));
  }

  /** The writing list is the same, and so are the owners of what is in it. */
  ghost predicate WritesAlike(n: Net, m: Net) {
    && m.writing == n.writing
    && forall t | t in n.writing && t in n.owner :: t in m.owner && m.owner[t] == n.owner[t]
  }

  lemma {:induction false} AsideWriting(n: Net, s: Step)
    requires Good(n) && Enabled(n, s) && Aside(s)
    ensures WritesAlike(n, Next(n, s))
  {
    hide Good, Enabled, Next, DeferOrder, Only, Minus, Receive, Accept, Graceful, Acquire, WritesAlike;
    EachStepIs(n, s);
    NotFree(n);
    match s {
      case Accepted(c) => JoinWriting(n, c, Connected);
      case Received(c) => JoinWriting(n, c, Receiving);
      case ClosedGracefully(c) => JoinWriting(n, c, Disconnected);
      case AcquireFor(c) => AcquireWriting(n, c);
      case _ => OtherWriting(n, s);
    }
  }

  lemma {:induction false} JoinWriting(n: Net, c: C, s: Status)
    requires n.free != [] ==> n.free[0] !in n.writing
    ensures WritesAlike(n, Receive(n, c, s)) && WritesAlike(n, Accept(n, c))
    ensures c in n.queue ==> WritesAlike(n, Graceful(n, c))
  {
  }

  lemma {:induction false} AcquireWriting(n: Net, c: C)
    requires n.free != [] ==> n.free[0] !in n.writing
    ensures WritesAlike(n, Acquire(n, c))
  {
  }

  lemma {:induction false} OtherWriting(n: Net, s: Step)
    requires Good(n) && Enabled(n, s) && (s.GetFor? || s.WriteTo? || s.DeferOf? || s.Acknowledged?)
    ensures WritesAlike(n, Next(n, s))
  {
    hide Good, Enabled, Next, Get, Defer, Output, Acknowledge, WritesAlike;
    EachStepIs(n, s);
    match s {
      case GetFor(c) => GetWriting(n, c);
      case WriteTo(t, bytes) => OutputWriting(n, t, bytes);
      case DeferOf(t) => DeferWriting(n, t);
      case Acknowledged(c, len) => AckWriting(n, c, len);
    }
  }

  lemma {:induction false} GetWriting(n: Net, c: C)
    ensures WritesAlike(n, Get(n, c))
  {
    hide Only, Minus;
  }

  lemma {:induction false} OutputWriting(n: Net, t: T, bytes: seq<char>)
    ensures WritesAlike(n, Output(n, t, bytes))
  {
  }

  lemma {:induction false} DeferWriting(n: Net, t: T)
    requires t in n.owner
    ensures WritesAlike(n, Defer(n, t))
  {
    hide DeferOrder;
  }

  lemma {:induction false} AckWriting(n: Net, c: C, len: nat)
    requires c in n.acked
    ensures WritesAlike(n, Acknowledge(n, c, len))
  {
  }

  lemma {:induction false} NotFree(n: Net)
    requires Good(n)
    ensures n.free != [] ==> n.free[0] !in n.writing && n.free[0] !in n.ready
  {
    Held(n);
    assert n.free != [] ==> n.free[0] in n.free;
  }

  lemma {:induction false} DiscardLine(n: Net, t: T)
    requires Good(n) && Enabled(n, DiscardOf(t))
    ensures var m := Next(n, DiscardOf(t)); Good(m) && (Line(m) == Line(n) || Without(Line(n), Line(m)))
  {
    hide Good, Enabled, Next, GiveUp, Close, Without;
    StepKeeps(n, DiscardOf(t));
    EachStepIs(n, DiscardOf(t));
    GiveUpLine(n, {t});
    GiveUpWriting(n, {t});
    if Is(n, t, Disconnected) {
      CloseLine(GiveUp(n, {t}), n.owner[t]);
    }
  }

  lemma {:induction false} LostLine(n: Net, c: C)
    requires Good(n) && Enabled(n, Lost(c))
    ensures var m := Next(n, Lost(c)); Good(m) && (Line(m) == Line(n) || Without(Line(n), Line(m)))
  {
    hide Good, Enabled, Next, Close, Without;
    StepKeeps(n, Lost(c));
    EachStepIs(n, Lost(c));
    CloseLine(n, c);
  }

  /** A committed transaction joins the line for its connection, unless that is in line already. */
  lemma {:induction false} CommitLine(n: Net, t: T, keep: bool)
    requires Good(n) && Enabled(n, CommitOf(t, keep))
    ensures var m := Next(n, CommitOf(t, keep));
      Good(m) && (Line(m) == Line(n) || Without(Line(n), Line(m)) || JoinedLine(Line(n), Line(m)))
  {
    hide Good, Enabled, Next, GiveUp, Discard, Enqueue, Without, JoinedLine;
    StepKeeps(n, CommitOf(t, keep));
    EachStepIs(n, CommitOf(t, keep));
    var c := n.owner[t];
    if c !in n.connected {
      ReadyDiscards(n, t);
      DiscardLine(n, t);
      EachStepIs(n, DiscardOf(t));
    } else {
      CommitWriting(n, t, keep);
      var m := Next(n, CommitOf(t, keep));
      if n.queue[c] == [] {
        MoreLine(n, m, t);
      } else {
        SameLine(n, m);
      }
    }
  }

  lemma {:induction false} ReadyDiscards(n: Net, t: T)
    ensures t in n.ready <==> Enabled(n, DiscardOf(t))
  {
  }

  lemma {:induction false} CommitWriting(n: Net, t: T, keep: bool)
    requires Good(n) && Enabled(n, CommitOf(t, keep)) && t in n.owner && n.owner[t] in n.connected
    ensures n.owner[t] in n.queue
    ensures var m := Next(n, CommitOf(t, keep));
      m.owner == n.owner && m.writing == n.writing + if n.queue[n.owner[t]] == [] then [t] else []
  {
    hide Good, Enabled, Next, GiveUp, Discard, Minus;
    EachStepIs(n, CommitOf(t, keep));
    GiveUpWriting(n, Of(n, n.owner[t]) - {t});
    assert n.writing + [] == n.writing;
  }

  lemma {:induction false} MoreLine(n: Net, m: Net, t: T)
    requires Good(n) && Good(m) && m.owner == n.owner && m.writing == n.writing + [t]
    requires t in n.owner && n.owner[t] in n.queue && n.queue[n.owner[t]] == []
    ensures JoinedLine(Line(n), Line(m))
  {
    hide Good;
    InLine(n);
    assert Line(m)[..|n.writing|] == Line(n);
    assert m.writing[|n.writing|] == t;
  }

  lemma {:induction false} RotateLine(n: Net)
    requires Good(n)
    ensures Good(Rotate(n)) && Line(Rotate(n)) == Turned(Line(n))
  {
    hide Good;
    RotateGood(n);
    RotateRest(n);
    RotateWriting(n);
  }

  lemma {:induction false} RotateWriting(n: Net)
    ensures Rotate(n).writing == if |n.writing| < 2 then n.writing else n.writing[1..] + [n.writing[0]]
  {
  }

  /** A turn: the connection that is served stays first, or leaves. */
  lemma {:induction false} SendLine(n: Net, k: nat)
    requires Good(n) && Enabled(n, SendOne(k))
    ensures var m, line := Next(n, SendOne(k)), Turned(Line(n));
      Good(m) && line != [] && (Line(m) == line || Line(m) == line[1..])
  {
    hide Good, Enabled, Next, Rotate, HeadReady, Turned;
    StepKeeps(n, SendOne(k));
    EachStepIs(n, SendOne(k));
    SendEnabled(n, k);
    RotateLine(n);
    HeadReadyIs(Rotate(n));
    HeadLine(Rotate(n), k);
  }

  lemma {:induction false} HeadLine(n: Net, k: nat)
    requires Good(n) && HeadReady(n) && k <= |n.pending[n.writing[0]]| && Good(SendHead(n, k))
    ensures Line(n) != [] && (Line(SendHead(n, k)) == Line(n) || Line(SendHead(n, k)) == Line(n)[1..])
  {
    hide Good, Close, Finish, Written, Line;
    var t, m := n.writing[0], SendHead(n, k);
    var c := n.owner[t];
    if t in n.closing {
      HeadCloseLine(n);
    } else if k > 0 {
      WrittenWriting(n, k);
      SameLine(n, m);
    } else if c !in n.persist && |n.queue[c]| == 1 {
      SameLine(n, m);
    } else {
      FinishLine(n);
    }
  }

  lemma {:induction false} HeadCloseLine(n: Net)
    requires Good(n) && HeadReady(n) && Good(Close(n, n.owner[n.writing[0]]))
    ensures Line(n) != [] && Line(Close(n, n.owner[n.writing[0]])) == Line(n)[1..]
  {
    hide Good, Close, Line, Minus;
    var t, c := n.writing[0], n.owner[n.writing[0]];
    HeadIsReady(n);
    CloseWriting(n, c);
    WritingTidy(n);
    MinusOne(n.writing, t, 0);
    LessLine(n, Close(n, c), 0);
    assert Line(n)[..0] + Line(n)[1..] == Line(n)[1..];
  }

  lemma {:induction false} WrittenWriting(n: Net, k: nat)
    requires HeadReady(n) && k <= |n.pending[n.writing[0]]|
    ensures Written(n, k).writing == n.writing && Written(n, k).owner == n.owner
  {
  }

  lemma {:induction false} FinishWriting(n: Net)
    requires HeadQueued(n)
    ensures var rest := n.queue[n.owner[n.writing[0]]][1..];
      && Finish(n).writing == (if rest == [] then [] else [rest[0]]) + n.writing[1..] && Finish(n).owner == n.owner
  {
  }

  lemma {:induction false} FinishLine(n: Net)
    requires Good(n) && HeadReady(n) && Good(Finish(n))
    ensures Line(Finish(n)) == Line(n) || Line(Finish(n)) == Line(n)[1..]
  {
    hide Good, Finish;
    FinishWriting(n);
    var m, c := Finish(n), n.owner[n.writing[0]];
    var rest := n.queue[c][1..];
    if rest == [] {
      assert m.writing == n.writing[1..] == n.writing[..0] + n.writing[1..];
      LessLine(n, m, 0);
      assert Line(n)[..0] + Line(n)[1..] == Line(n)[1..];
    } else {
      QueueOwned(n, c, 1);
      assert n.queue[c][1] == rest[0];
      assert forall i | 0 <= i < |n.writing| :: Line(m)[i] == Line(n)[i];
    }
  }

  lemma {:induction false} QueueOwned(n: Net, c: C, i: nat)
    requires Good(n) && c in n.queue && i < |n.queue[c]|
    ensures Owns(n, n.queue[c][i], c)
  {
    hide Streams, Windowed, Goodbyes;
    assert n.queue[c][i] in n.queue[c] && Queued(n, c, n.queue[c][i]);
  }

  /** What any step does to the line. */
  lemma {:induction false} StepLine(n: Net, s: Step)
    requires Good(n) && Enabled(n, s)
    ensures var m := Next(n, s); Good(m)
    ensures s.SendOne? ==>
      var m, line := Next(n, s), Turned(Line(n)); line != [] && (Line(m) == line || Line(m) == line[1..])
    ensures !s.SendOne? ==>
      var m := Next(n, s); Line(m) == Line(n) || Without(Line(n), Line(m)) || JoinedLine(Line(n), Line(m))
  {
    hide *;
    match s {
      case SendOne(k) => SendLine(n, k);
      case CommitOf(t, keep) => CommitLine(n, t, keep);
      case DiscardOf(t) => DiscardLine(n, t);
      case Lost(c) => LostLine(n, c);
      case _ =>
        IsAside(s);
        AsideLine(n, s);
    }
  }

  lemma {:induction false} IsAside(s: Step)
    ensures Aside(s) <==> !(s.CommitOf? || s.DiscardOf? || s.SendOne? || s.Lost?)
  {
  }

  // ---------------------------------------------------------------- how long a connection waits

  /** Where a connection is in the line. */
  ghost function Spot(line: seq<C>, c: C): (i: nat)
    requires c in line
    ensures i < |line| && line[i] == c
  {
    if line[0] == c then 0 else 1 + Spot(line[1..], c)
  }

  lemma {:induction false} SpotIs(line: seq<C>, c: C, i: nat)
    requires NoDup(line) && i < |line| && line[i] == c
    ensures Spot(line, c) == i
  {
    if i > 0 {
      assert line[0] != c;
      SpotIs(line[1..], c, i - 1);
    }
  }

  /** A connection has a turn when something is sent and it is second in line, or alone. */
  ghost predicate HasTurn(n: Net, s: Step, c: C)
    requires Good(n)
  {
    s.SendOne? && var line := Line(n); line != [] && c == if |line| == 1 then line[0] else line[1]
  }

  /** A bound on how often something is sent before it has one, if no connection leaves and at most so many are in
      line. */
  ghost function Wait(line: seq<C>, c: C, most: nat): nat
    requires c in line
  {
    if Spot(line, c) == 0 then most else Spot(line, c)
  }

  /** The position of a connection after a turn of another one. */
  lemma {:induction false} TurnedSpot(line: seq<C>, c: C)
    requires NoDup(line) && c in line
    ensures NoDup(Turned(line)) && c in Turned(line) && |Turned(line)| == |line|
    ensures Spot(Turned(line), c) == if Spot(line, c) == 0 then |line| - 1 else Spot(line, c) - 1
  {
    var p, after := Spot(line, c), Turned(line);
    if |line| >= 2 {
      assert forall i | 0 <= i < |line| - 1 :: after[i] == line[i + 1];
      assert after[|line| - 1] == line[0];
      forall i, j | 0 <= i < j < |after| ensures after[i] != after[j] {
      }
      SpotIs(after, c, if p == 0 then |line| - 1 else p - 1);
    }
  }

  lemma {:induction false} JoinedSpot(line: seq<C>, after: seq<C>, c: C)
    requires NoDup(line) && NoDup(after) && c in line && JoinedLine(line, after)
    ensures c in after && Spot(after, c) == Spot(line, c)
  {
    var p := Spot(line, c);
    assert after[p] == after[..|line|][p];
    SpotIs(after, c, p);
  }

  /** One step brings the turn of a waiting connection nearer, if something is sent; only when a connection leaves the
      line may the others have to wait for longer. */
  lemma {:induction false} WaitStep(n: Net, s: Step, c: C, most: nat)
    requires Good(n) && Enabled(n, s) && !HasTurn(n, s, c) && c in Line(n) && |Line(n)| <= most
    requires Good(Next(n, s)) && c in Line(Next(n, s)) && |Line(Next(n, s))| <= most
    ensures var m := Next(n, s);
      (if s.SendOne? then 1 else 0) + Wait(Line(m), c, most)
      <= Wait(Line(n), c, most) + if |Line(m)| < |Line(n)| then most else 0
  {
    hide Good, Enabled, Next, Line, Turned, Spot, Without;
    var m := Next(n, s);
    var line, after := Line(n), Line(m);
    InLine(n);
    InLine(m);
    StepLine(n, s);
    if s.SendOne? {
      TurnedSpot(line, c);
    } else if Without(line, after) {
      Shorter(line, after);
    } else if JoinedLine(line, after) {
      JoinedSpot(line, after, c);
    }
  }

  /**
   * When something is sent and a connection has no turn, it is passed over exactly if it was first in line: then it is
   * last, and otherwise it moves up, by one if the connection that was served stays in line and by two if that leaves.
   */
  lemma {:induction false} PassedOverIfFirst(n: Net, k: nat, c: C)
    requires Good(n) && Enabled(n, SendOne(k)) && c in Line(n) && !HasTurn(n, SendOne(k), c)
    ensures Good(Next(n, SendOne(k))) && c in Line(Next(n, SendOne(k)))
    ensures var line, after := Line(n), Line(Next(n, SendOne(k)));
      Spot(after, c) == if Spot(line, c) == 0 then |after| - 1 else Spot(line, c) - 1 - (|line| - |after|)
  {
    hide Good, Enabled, Next, Line, Turned, Spot, Without;
    var line := Line(n);
    InLine(n);
    StepLine(n, SendOne(k));
    TurnedSpot(line, c);
    SecondIs(line, c);
    FewerSpot(Turned(line), c);
  }

  /** Without the first of a line, the others are one further on. */
  lemma {:induction false} FewerSpot(line: seq<C>, c: C)
    requires NoDup(line) && c in line
    ensures Spot(line, c) > 0 ==> c in line[1..] && Spot(line[1..], c) == Spot(line, c) - 1
  {
  }

  lemma {:induction false} Shorter(line: seq<C>, after: seq<C>)
    requires Without(line, after)
    ensures |after| == |line| - 1
  {
  }

  // ---------------------------------------------------------------- over whole runs

  ghost function Sends(steps: seq<Step>): nat {
    if steps == [] then 0 else (if steps[0].SendOne? then 1 else 0) + Sends(steps[1..])
  }

  /** How often a connection has a turn in a run. */
  ghost function Turns(n: Net, steps: seq<Step>, c: C): nat
    requires Good(n) && Runs(n, steps)
    decreases |steps|
  {
    if steps == [] then 0
    else
      StepKeeps(n, steps[0]);
      (if HasTurn(n, steps[0], c) then 1 else 0) + Turns(Next(n, steps[0]), steps[1..], c)
  }

  /** How often some connection leaves the line. */
  ghost function Leavings(n: Net, steps: seq<Step>): nat
    requires Good(n) && Runs(n, steps)
    decreases |steps|
  {
    if steps == [] then 0
    else
      StepKeeps(n, steps[0]);
      var m := Next(n, steps[0]);
      (if |Line(m)| < |Line(n)| then 1 else 0) + Leavings(m, steps[1..])
  }

  /** A connection is in line throughout, with no more than so many. */
  ghost predicate StaysInLine(n: Net, steps: seq<Step>, c: C, most: nat)
    requires Good(n) && Runs(n, steps)
    decreases |steps|
  {
    && c in Line(n) && |Line(n)| <= most
    && (steps == [] || (StepKeeps(n, steps[0]); StaysInLine(Next(n, steps[0]), steps[1..], c, most)))
  }

  lemma {:induction false} WaitsAtFirst(n: Net, steps: seq<Step>, c: C, most: nat)
    requires Good(n) && Runs(n, steps) && StaysInLine(n, steps, c, most)
    ensures c in Line(n) && |Line(n)| <= most && c in Line(After(n, steps)) && |Line(After(n, steps))| <= most
    decreases |steps|
  {
    hide Good, Enabled, Next, Line;
    if steps != [] {
      StepKeeps(n, steps[0]);
      WaitsAtFirst(Next(n, steps[0]), steps[1..], c, most);
    }
  }

  /** However long the run is, a connection that waits without a turn sees no more sent than this. */
  lemma {:induction false} WaitOverRun(n: Net, steps: seq<Step>, c: C, most: nat)
    requires Good(n) && Runs(n, steps) && StaysInLine(n, steps, c, most) && Turns(n, steps, c) == 0
    ensures c in Line(n) && c in Line(After(n, steps))
    ensures Sends(steps) + Wait(Line(After(n, steps)), c, most)
         <= Wait(Line(n), c, most) + most * Leavings(n, steps)
    decreases |steps|
  {
    hide Good, Enabled, Next, Line, Wait, HasTurn;
    WaitsAtFirst(n, steps, c, most);
    if steps != [] {
      StepKeeps(n, steps[0]);
      var m := Next(n, steps[0]);
      WaitsAtFirst(m, steps[1..], c, most);
      WaitStep(n, steps[0], c, most);
      WaitOverRun(m, steps[1..], c, most);
      var more := if |Line(m)| < |Line(n)| then 1 else 0;
      Distributes(most, more, Leavings(m, steps[1..]));
    }
  }

  lemma {:induction false} Distributes(k: nat, a: nat, b: nat)
    ensures k * (a + b) == k * a + k * b && k * 1 == k && k * 0 == 0
  {
  }

  /**
   * Every connection in line has its turn: in any run in which it stays in line, with at most so many connections in
   * it, it has one as soon as something has been sent that often, and once more as often for each connection that
   * leaves the line meanwhile. Others may join all the time.
   */
  lemma {:induction false} EveryoneHasATurn(n: Net, steps: seq<Step>, c: C, most: nat)
    requires Good(n) && Runs(n, steps) && StaysInLine(n, steps, c, most)
    requires Sends(steps) >= most * (Leavings(n, steps) + 1)
    ensures Turns(n, steps, c) > 0
  {
    hide Good, Enabled, Next, Line, StaysInLine, Turns, Runs, After, Leavings, Sends;
    if Turns(n, steps, c) == 0 {
      WaitOverRun(n, steps, c, most);
      Distributes(most, Leavings(n, steps), 1);
      WaitsAtFirst(n, steps, c, most);
    }
  }

  /** There are never more connections in line than transactions. */
  lemma {:induction false} LineShort(n: Net)
    requires Good(n)
    ensures |Line(n)| <= |n.place|
  {
    hide Good, Line;
    WritersOwned(n);
    WritingTidy(n);
    Fewer(n.writing, n.place.Keys);
  }

  lemma {:induction false} Fewer(items: seq<T>, s: set<T>)
    requires NoDup(items) && forall i | 0 <= i < |items| :: items[i] in s
    ensures |items| <= |s|
  {
    if items != [] {
      var most, t := items[..|items| - 1], items[|items| - 1];
      Fewer(most, s - {t});
    }
  }

  /** A connection is in line throughout a run. */
  ghost predicate InLineThroughout(n: Net, steps: seq<Step>, c: C)
    requires Good(n) && Runs(n, steps)
    decreases |steps|
  {
    c in Line(n) && (steps == [] || (StepKeeps(n, steps[0]); InLineThroughout(Next(n, steps[0]), steps[1..], c)))
  }

  lemma {:induction false} LineStaysShort(n: Net, steps: seq<Step>, c: C, most: nat)
    requires Good(n) && Runs(n, steps) && InLineThroughout(n, steps, c) && |n.place| == most
    ensures StaysInLine(n, steps, c, most)
    decreases |steps|
  {
    hide Good, Enabled, Next, Line;
    LineShort(n);
    if steps != [] {
      StepKeeps(n, steps[0]);
      StepConserves(n, steps[0]);
      var m := Next(n, steps[0]);
      assert |m.place| == |m.place.Keys| && |n.place| == |n.place.Keys|;
      LineStaysShort(m, steps[1..], c, most);
    }
  }

  /** So with as many transactions as there are, no run can pass a connection over for longer than that. */
  lemma {:induction false} ServedWithin(n: Net, steps: seq<Step>, c: C)
    requires Good(n) && Runs(n, steps) && InLineThroughout(n, steps, c)
    requires Sends(steps) >= |n.place| * (Leavings(n, steps) + 1)
    ensures Turns(n, steps, c) > 0
  {
    hide Good, Enabled, Next, Line, StaysInLine, Turns, Runs, Leavings, Sends, InLineThroughout;
    LineStaysShort(n, steps, c, |n.place|);
    EveryoneHasATurn(n, steps, c, |n.place|);
  }

  // ---------------------------------------------------------------- while nobody joins or leaves

  /** Nobody joins or leaves the line. */
  ghost predicate Steady(n: Net, steps: seq<Step>)
    requires Good(n) && Runs(n, steps)
    decreases |steps|
  {
    steps == [] ||
    (StepKeeps(n, steps[0]);
     var m := Next(n, steps[0]);
     |Line(m)| == |Line(n)| && Steady(m, steps[1..]))
  }

  /** How many others are served before a connection. */
  ghost function Before(line: seq<C>, c: C): nat
    requires c in line
  {
    if Spot(line, c) == 0 then |line| - 1 else Spot(line, c) - 1
  }

  lemma {:induction false} SteadyStep(n: Net, s: Step, c: C)
    requires Good(n) && Enabled(n, s) && c in Line(n) && Good(Next(n, s)) && |Line(Next(n, s))| == |Line(n)|
    ensures c in Line(Next(n, s))
    ensures Before(Line(Next(n, s)), c) + (if s.SendOne? then 1 else 0)
         == Before(Line(n), c) + if HasTurn(n, s, c) then |Line(n)| else 0
  {
    hide Good, Enabled, Next, Line, Turned, Spot, Without;
    var line, after := Line(n), Line(Next(n, s));
    InLine(n);
    StepLine(n, s);
    if s.SendOne? {
      TurnedSpot(line, c);
      SecondIs(line, c);
    } else if Without(line, after) {
      Shorter(line, after);
    }
  }

  lemma {:induction false} SecondIs(line: seq<C>, c: C)
    requires NoDup(line) && c in line
    ensures |line| == 1 ==> Spot(line, c) == 0
    ensures |line| > 1 ==> (c == line[1] <==> Spot(line, c) == 1)
  {
    if |line| > 1 && c == line[1] {
      SpotIs(line, c, 1);
    }
  }

  /**
   * While nobody joins or leaves, turns are shared out equally: a connection has had exactly as many as rounds have
   * been completed since those before it in line were served.
   */
  lemma {:induction false} TurnsAreShared(n: Net, steps: seq<Step>, c: C)
    requires Good(n) && Runs(n, steps) && Steady(n, steps) && c in Line(n)
    ensures c in Line(After(n, steps)) && |Line(After(n, steps))| == |Line(n)|
    ensures |Line(n)| * Turns(n, steps, c) + Before(Line(n), c) == Sends(steps) + Before(Line(After(n, steps)), c)
    decreases |steps|
  {
    hide Good, Enabled, Next, Line, Before, HasTurn;
    if steps != [] {
      StepKeeps(n, steps[0]);
      var m := Next(n, steps[0]);
      SteadyStep(n, steps[0], c);
      TurnsAreShared(m, steps[1..], c);
      Distributes(|Line(n)|, if HasTurn(n, steps[0], c) then 1 else 0, Turns(m, steps[1..], c));
    }
  }

  /** So each has exactly one turn when as much has been sent as there are connections in line. */
  lemma {:induction false} OneTurnEach(n: Net, steps: seq<Step>, c: C)
    requires Good(n) && Runs(n, steps) && Steady(n, steps) && c in Line(n) && Sends(steps) == |Line(n)|
    ensures Turns(n, steps, c) == 1
  {
    hide Good, Enabled, Next, Line, Steady, Turns, Runs, After, Sends;
    TurnsAreShared(n, steps, c);
    OneShare(|Line(n)|, Turns(n, steps, c), Before(Line(n), c), Before(Line(After(n, steps)), c));
  }

  lemma {:induction false} OneShare(size: nat, turns: nat, start: nat, end: nat)
    requires start < size && end < size && size * turns + start == size + end
    ensures turns == 1
  {
    assert size * turns == 2 * size + size * (turns - 2);
  }

  // ---------------------------------------------------------------- what a turn brings

  /**
   * A connection that has its turn is given the next bytes of its first transaction; if that has none left it is asked
   * to close the connection, or the next transaction takes its place; and if it was asked to, the connection is closed.
   * No other connection is given anything.
   */
  lemma {:induction false} TurnServes(n: Net, k: nat, c: C)
    requires Good(n) && Enabled(n, SendOne(k)) && HasTurn(n, SendOne(k), c)
    ensures c in n.queue && n.queue[c] != [] && n.queue[c][0] in n.pending
    ensures var m, t := Next(n, SendOne(k)), n.queue[c][0];
      if t in n.closing then c !in m.queue
      else if n.pending[t] != [] then
        0 < k <= |n.pending[t]| && Given(n, SendOne(k), c) == n.pending[t][..k] && t in m.pending
        && m.pending[t] == n.pending[t][k..]
      else if c !in n.persist && |n.queue[c]| == 1 then t in m.closing && c in m.queue && m.queue[c] == n.queue[c]
      else c in m.queue && m.queue[c] == n.queue[c][1..] && t in m.free
    ensures forall d | d != c :: Given(n, SendOne(k), d) == []
    ensures var m := Next(n, SendOne(k)); forall d | d in n.queue && d != c :: d in m.queue && m.queue[d] == n.queue[d]
  {
    hide Good, Enabled, Next, Rotate, HeadReady, Line, Close, Written, Finish;
    EachStepIs(n, SendOne(k));
    SendEnabled(n, k);
    RotateLine(n);
    RotateRest(n);
    RotatePersists(n);
    var r := Rotate(n);
    HeadIsReady(r);
    HeadReadyIs(r);
    var t := r.writing[0];
    assert Owns(r, t, Line(r)[0]) && Line(r)[0] == c;
    assert t == n.queue[c][0];
    if t in n.closing {
      ClosedQueue(r, c);
    } else if k > 0 {
      WrittenPending(r, k);
    } else if !(c !in n.persist && |n.queue[c]| == 1) {
      FinishedQueue(r);
    }
  }

  lemma {:induction false} RotatePersists(n: Net)
    ensures Rotate(n).persist == n.persist && Rotate(n).closing == n.closing
  {
  }

  lemma {:induction false} ClosedQueue(n: Net, c: C)
    requires c in n.queue
    ensures Close(n, c).queue == n.queue - {c}
  {
    hide GiveUp, CloseQueue;
    GiveUpRest(n, Of(n, c));
  }

  lemma {:induction false} WrittenPending(n: Net, k: nat)
    requires HeadReady(n) && k <= |n.pending[n.writing[0]]|
    ensures n.writing[0] in Written(n, k).pending && Written(n, k).queue == n.queue
    ensures Written(n, k).pending[n.writing[0]] == n.pending[n.writing[0]][k..]
  {
  }

  lemma {:induction false} FinishedQueue(n: Net)
    requires HeadQueued(n)
    ensures var t := n.writing[0]; var c := n.owner[t];
      Finish(n).queue == n.queue[c := n.queue[c][1..]] && t in Finish(n).free
  {
  }
}
