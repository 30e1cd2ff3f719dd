/** Runs in which a connection waits for longer than one round, or for ever. */
module TransactionStarving {
  import opened Basics
  import opened Options
  import opened Transactions
  import opened TransactionFlow
  import opened TransactionTurns

  // ---------------------------------------------------------------- the steps of such runs

  /** A request arrives on a connection. */
  lemma {:induction false} RequestArrives(n: Net, d: C)
    requires Good(n) && d in n.queue && n.free != []
    ensures Enabled(n, Received(d)) && Good(Next(n, Received(d)))
    ensures var m, t := Next(n, Received(d)), n.free[0];
      && m.free == n.free[1..] && m.ready == n.ready + [t] && m.writing == n.writing && m.queue == n.queue
      && m.connected == n.connected && m.persist == n.persist && m.closing == n.closing - {t} && m.window == n.window
      && m.pending == n.pending[t := []] && m.owner == n.owner[t := d]
  {
    hide Good, Next;
    EachStepIs(n, Received(d));
    StepKeeps(n, Received(d));
  }

  /** A connection is accepted. */
  lemma {:induction false} ConnectionOpens(n: Net, d: C)
    requires Good(n) && d !in n.queue && n.free != []
    ensures Enabled(n, Accepted(d)) && Good(Next(n, Accepted(d)))
    ensures var m, t := Next(n, Accepted(d)), n.free[0];
      && m.free == n.free[1..] && m.ready == n.ready + [t] && m.writing == n.writing && m.queue == n.queue[d := []]
      && m.connected == n.connected + {d} && m.persist == n.persist + {d} && m.closing == n.closing - {t}
      && m.window == n.window && m.pending == n.pending[t := []] && m.owner == n.owner[t := d]
  {
    hide Good, Next;
    EachStepIs(n, Accepted(d));
    StepKeeps(n, Accepted(d));
  }

  /** The answer to it, to a connection that is not in line and is kept alive. */
  lemma {:induction false} AnswerJoins(n: Net, t: T, d: C)
    requires Good(n) && t in n.ready && Owns(n, t, d) && d in n.connected && d in n.queue && n.queue[d] == []
    ensures Enabled(n, CommitOf(t, true)) && Good(Next(n, CommitOf(t, true)))
    ensures var m := Next(n, CommitOf(t, true));
      && m.free == n.free && m.writing == n.writing + [t] && m.queue == n.queue[d := [t]]
      && m.connected == n.connected && m.persist == n.persist + {d} && m.closing == n.closing && m.window == n.window
      && m.pending == n.pending && m.owner == n.owner
  {
    hide Good, Next, Minus;
    EachStepIs(n, CommitOf(t, true));
    StepKeeps(n, CommitOf(t, true));
    assert n.queue[d] + [t] == [t];
  }

  /** The second in line has nothing left to send, and leaves. */
  lemma {:induction false} SecondLeaves(n: Net, d: C)
    requires Good(n) && |n.writing| >= 2 && Owns(n, n.writing[1], d) && n.window == None && n.writing[1] !in n.closing
    requires n.writing[1] in n.pending && n.pending[n.writing[1]] == []
    requires d in n.persist && d in n.queue && |n.queue[d]| == 1
    ensures Enabled(n, SendOne(0)) && Good(Next(n, SendOne(0)))
    ensures var m, t := Next(n, SendOne(0)), n.writing[1];
      && m.free == [t] + n.free && m.writing == n.writing[2..] + [n.writing[0]] && m.queue == n.queue[d := []]
      && m.connected == n.connected && m.persist == n.persist && m.closing == n.closing && m.window == None
      && m.pending == n.pending && m.owner == n.owner
  {
    hide Good, Enabled, Next, Rotate, HeadReady, SendHead, Finish;
    TurnEnabled(n, 0);
    EachStepIs(n, SendOne(0));
    StepKeeps(n, SendOne(0));
    RotateRest(n);
    RotateRests(n);
    var r := Rotate(n);
    HeadReadyIs(r);
    FinishesHead(r);
    FinishIs(r, d);
  }

  /** The second in line may be served. */
  lemma {:induction false} TurnEnabled(n: Net, k: nat)
    requires Good(n) && |n.writing| >= 2 && n.window == None && n.writing[1] !in n.closing && n.writing[1] in n.pending
    requires k <= TCP_WND && k <= |n.pending[n.writing[1]]| && (k == 0 ==> n.pending[n.writing[1]] == [])
    ensures Enabled(n, SendOne(k))
  {
    hide Good, Rotate, HeadReady, NoGoodbye;
    RotateGood(n);
    RotateRest(n);
    RotateRests(n);
    HeadIsReady(Rotate(n));
  }

  lemma {:induction false} RotateRests(n: Net)
    ensures var r := Rotate(n);
      && (|n.writing| >= 2 ==> r.writing == n.writing[1..] + [n.writing[0]] && r.writing[0] == n.writing[1])
      && r.free == n.free && r.connected == n.connected && r.persist == n.persist && r.window == n.window
      && r.acked == n.acked
  {
    if |n.writing| >= 2 {
      assert (n.writing[1..] + [n.writing[0]])[0] == n.writing[1];
    }
  }

  lemma {:induction false} FinishesHead(n: Net)
    requires HeadReady(n) && n.writing[0] !in n.closing && n.owner[n.writing[0]] in n.persist
    ensures SendHead(n, 0) == Finish(n)
  {
    hide Finish;
  }

  lemma {:induction false} FinishIs(n: Net, d: C)
    requires HeadReady(n) && n.owner[n.writing[0]] == d && |n.queue[d]| == 1
    ensures var m := Finish(n);
      && m.free == [n.writing[0]] + n.free && m.writing == n.writing[1..] && m.queue == n.queue[d := []]
      && m.connected == n.connected && m.persist == n.persist && m.closing == n.closing && m.window == n.window
      && m.pending == n.pending && m.owner == n.owner
  {
    assert n.queue[d][1..] == [];
  }

  // ---------------------------------------------------------------- runs

  /** A run in which a connection stays in line, with at most so many, and something is sent so often, but never to
      it. */
  ghost predicate PassedOver(n: Net, steps: seq<Step>, c: C, most: nat, sends: nat) {
    && Good(n) && Runs(n, steps) && StaysInLine(n, steps, c, most) && Turns(n, steps, c) == 0 && Sends(steps) == sends
  }

  lemma {:induction false} NoStep(n: Net, c: C, most: nat)
    requires Good(n) && c in Line(n) && |Line(n)| <= most
    ensures PassedOver(n, [], c, most, 0) && After(n, []) == n
  {
    hide Good, Line;
  }

  /** One more step in front. */
  lemma {:induction false} StepBefore(n: Net, s: Step, steps: seq<Step>, c: C, most: nat, sends: nat)
    requires Good(n) && Enabled(n, s) && PassedOver(Next(n, s), steps, c, most, sends)
    requires c in Line(n) && |Line(n)| <= most && !HasTurn(n, s, c)
    ensures PassedOver(n, [s] + steps, c, most, sends + if s.SendOne? then 1 else 0)
    ensures After(n, [s] + steps) == After(Next(n, s), steps)
  {
    hide Good, Line, Enabled, Next, HasTurn;
    var all := [s] + steps;
    assert all[0] == s && all[1..] == steps;
  }

  /** Only one connection is in line; another one, with nothing in its queue, can still be answered. */
  ghost predicate Alone(n: Net, c: C, d: C) {
    && Good(n) && n.window == None && |n.writing| == 1 && Owns(n, n.writing[0], c) && c != d
    && d in n.connected && d in n.queue && n.queue[d] == [] && n.free != []
  }

  lemma {:induction false} AloneInLine(n: Net, c: C, d: C)
    requires Alone(n, c, d)
    ensures Line(n) == [c] && c in Line(n)
  {
    hide Good;
  }

  /** A request of the other one, an empty answer to it, and the turn that this answer has. */
  lemma {:induction false} EmptyAnswer(n: Net, c: C, d: C)
    requires Alone(n, c, d)
    ensures Enabled(n, Received(d))
    ensures var a, t := Next(n, Received(d)), n.free[0];
      Good(a) && Enabled(a, CommitOf(t, true)) && Line(a) == [c]
    ensures var a, t := Next(n, Received(d)), n.free[0]; var b := Next(a, CommitOf(t, true));
      Good(b) && Enabled(b, SendOne(0)) && Line(b) == [c, d]
    ensures var a, t := Next(n, Received(d)), n.free[0]; var b := Next(a, CommitOf(t, true));
      var m := Next(b, SendOne(0));
      Alone(m, c, d) && m.writing == n.writing && Unsent(m) == Unsent(n)
  {
    hide Good, Enabled, Next, Line;
    var t, x := n.free[0], n.writing[0];
    NotFree(n);
    RequestArrives(n, d);
    var a := Next(n, Received(d));
    assert t in a.ready;
    AnswerJoins(a, t, d);
    var b := Next(a, CommitOf(t, true));
    assert b.writing == [x, t];
    SecondLeaves(b, d);
    var m := Next(b, SendOne(0));
    assert b.writing[2..] + [x] == [x];
    assert Line(a) == [c];
    assert Line(b) == [c, d];
  }

  /** What the first in line has still to send. */
  ghost function Unsent(n: Net): seq<char> {
    if n.writing != [] && n.writing[0] in n.pending then n.pending[n.writing[0]] else []
  }

  /**
   * A connection can be passed over for ever. While one client sends requests that are answered with nothing, another
   * one that is waiting for its data gets none of it, however often something is sent.
   */
  lemma {:induction false} NeverServed(n: Net, c: C, d: C, sends: nat) returns (steps: seq<Step>)
    requires Alone(n, c, d)
    ensures PassedOver(n, steps, c, 2, sends)
    ensures Alone(After(n, steps), c, d) && Unsent(After(n, steps)) == Unsent(n)
    decreases sends
  {
    hide Good, Enabled, Next, Line, Alone, PassedOver, Runs, After, Unsent;
    AloneInLine(n, c, d);
    AloneGood(n, c, d);
    if sends == 0 {
      steps := [];
      NoStep(n, c, 2);
    } else {
      EmptyAnswer(n, c, d);
      var t := n.free[0];
      var a := Next(n, Received(d));
      var b := Next(a, CommitOf(t, true));
      var m := Next(b, SendOne(0));
      var rest := NeverServed(m, c, d, sends - 1);
      NotToFirst(b, c, d);
      StepBefore(b, SendOne(0), rest, c, 2, sends - 1);
      StepBefore(a, CommitOf(t, true), [SendOne(0)] + rest, c, 2, sends);
      StepBefore(n, Received(d), [CommitOf(t, true)] + ([SendOne(0)] + rest), c, 2, sends);
      steps := [Received(d)] + ([CommitOf(t, true)] + ([SendOne(0)] + rest));
    }
  }

  lemma {:induction false} AloneGood(n: Net, c: C, d: C)
    requires Alone(n, c, d)
    ensures Good(n) && n.free != [] && c != d
  {
  }

  lemma {:induction false} NotToFirst(n: Net, c: C, d: C)
    requires Good(n) && Line(n) == [c, d] && c != d
    ensures !HasTurn(n, SendOne(0), c) && c in Line(n)
  {
  }

  /** A connection is accepted, and what it asks for is committed. */
  lemma {:induction false} NewInLine(n: Net, d: C, bytes: seq<char>) returns (m: Net, steps: seq<Step>)
    requires Good(n) && d !in n.queue && n.free != [] && n.window == None
    ensures Runs(n, steps) && m == After(n, steps) && Sends(steps) == 0 && Good(m)
    ensures var t := n.free[0];
      && t !in n.writing && m.writing == n.writing + [t] && m.queue == n.queue[d := [t]] && m.free == n.free[1..]
      && m.pending == n.pending[t := bytes] && m.owner == n.owner[t := d] && m.closing == n.closing - {t}
      && m.persist == n.persist + {d} && m.connected == n.connected + {d} && m.window == None
  {
    hide *;
    var t := n.free[0];
    NotFree(n);
    var a, b;
    a, b, m := NewSteps(n, d, bytes);
    steps := [Accepted(d), WriteTo(t, bytes), CommitOf(t, true)];
    ThreeSteps(n, steps);
  }

  lemma {:induction false} NewSteps(n: Net, d: C, bytes: seq<char>) returns (a: Net, b: Net, m: Net)
    requires Good(n) && d !in n.queue && n.free != [] && n.window == None
    ensures Enabled(n, Accepted(d)) && a == Next(n, Accepted(d)) && Good(a)
    ensures var t := n.free[0];
      && Enabled(a, WriteTo(t, bytes)) && b == Next(a, WriteTo(t, bytes)) && Good(b)
      && Enabled(b, CommitOf(t, true)) && m == Next(b, CommitOf(t, true)) && Good(m)
    ensures var t := n.free[0];
      && m.writing == n.writing + [t] && m.queue == n.queue[d := [t]] && m.free == n.free[1..]
      && m.pending == n.pending[t := bytes] && m.owner == n.owner[t := d] && m.closing == n.closing - {t}
      && m.persist == n.persist + {d} && m.connected == n.connected + {d} && m.window == None
  {
    hide Good, Enabled, Next;
    var t := n.free[0];
    ConnectionOpens(n, d);
    a := Next(n, Accepted(d));
    assert t in a.ready;
    Writes(a, t, bytes);
    b := Next(a, WriteTo(t, bytes));
    AnswerJoins(b, t, d);
    m := Next(b, CommitOf(t, true));
    assert n.pending[t := []][t := bytes] == n.pending[t := bytes];
    assert n.queue[d := []][d := [t]] == n.queue[d := [t]];
    assert n.persist + {d} + {d} == n.persist + {d};
  }

  lemma {:induction false} Writes(n: Net, t: T, bytes: seq<char>)
    requires Good(n) && t in n.ready
    ensures Enabled(n, WriteTo(t, bytes)) && Good(Next(n, WriteTo(t, bytes)))
    ensures Next(n, WriteTo(t, bytes)) == n.(pending := n.pending[t := bytes])
  {
    hide Good, Next;
    EachStepIs(n, WriteTo(t, bytes));
    StepKeeps(n, WriteTo(t, bytes));
  }

  lemma {:induction false} ThreeSteps(n: Net, steps: seq<Step>)
    requires Good(n) && |steps| == 3 && Enabled(n, steps[0]) && !steps[0].SendOne? && !steps[1].SendOne?
    requires !steps[2].SendOne?
    requires Good(Next(n, steps[0])) && Enabled(Next(n, steps[0]), steps[1])
    requires Good(Next(Next(n, steps[0]), steps[1])) && Enabled(Next(Next(n, steps[0]), steps[1]), steps[2])
    requires Good(Next(Next(Next(n, steps[0]), steps[1]), steps[2]))
    ensures Runs(n, steps) && Sends(steps) == 0 && After(n, steps) == Next(Next(Next(n, steps[0]), steps[1]), steps[2])
  {
    hide Good, Enabled, Next;
    var a := Next(n, steps[0]);
    var b := Next(a, steps[1]);
    var m := Next(b, steps[2]);
    assert steps[1..][0] == steps[1] && steps[1..][1..][0] == steps[2] && steps[1..][1..][1..] == [];
    assert Runs(m, []) && After(m, []) == m;
    StepConserves(n, steps[0]);
    StepConserves(a, steps[1]);
    StepConserves(b, steps[2]);
    assert Runs(b, steps[2..]) && After(b, steps[2..]) == m by {
      assert steps[2..][0] == steps[2] && steps[2..][1..] == [];
    }
    assert steps[1..][1..] == steps[2..];
    assert Runs(a, steps[1..]) && After(a, steps[1..]) == m;
    assert steps[2..][1..] == [];
    assert Sends(steps[2..]) == Sends([]) && Sends(steps[1..]) == Sends(steps[2..]);
    assert Sends(steps) == Sends(steps[1..]);
  }

  /** Two runs, one after the other. */
  lemma {:induction false} RunsJoin(n: Net, a: seq<Step>, b: seq<Step>)
    requires Good(n) && Runs(n, a) && Runs(After(n, a), b)
    ensures Runs(n, a + b) && After(n, a + b) == After(After(n, a), b)
    decreases |a|
  {
    hide Good, Enabled, Next;
    if a == [] {
      assert a + b == b;
    } else {
      StepKeeps(n, a[0]);
      RunsJoin(Next(n, a[0]), a[1..], b);
      assert (a + b)[0] == a[0] && (a + b)[1..] == a[1..] + b;
    }
  }

  /** That connection may have been waiting since start-up. */
  lemma {:induction false} StarvesFromStart(all: seq<T>, c: C, d: C, bytes: seq<char>, sends: nat)
    returns (before: seq<Step>, steps: seq<Step>)
    requires NoDup(all) && |all| >= 3 && c != d
    ensures Good(Start(all)) && Runs(Start(all), before)
    ensures var n := After(Start(all), before);
      && PassedOver(n, steps, c, 2, sends) && Unsent(n) == bytes && Unsent(After(n, steps)) == bytes
  {
    hide Good, Enabled, Next, Line, Runs, After, PassedOver, Start, Alone;
    StartGood(all);
    StartIs(all);
    var s := Start(all);
    var n, first := NewInLine(s, c, bytes);
    var m := OpensAlone(n, c, d);
    AloneGood(m, c, d);
    OneRun(n, Accepted(d));
    RunsJoin(s, first, [Accepted(d)]);
    before := first + [Accepted(d)];
    steps := NeverServed(m, c, d, sends);
  }

  lemma {:induction false} OpensAlone(n: Net, c: C, d: C) returns (m: Net)
    requires Good(n) && n.window == None && |n.writing| == 1 && Owns(n, n.writing[0], c) && c != d && d !in n.queue
    requires |n.free| >= 2
    ensures Enabled(n, Accepted(d)) && m == Next(n, Accepted(d)) && Alone(m, c, d) && Unsent(m) == Unsent(n)
  {
    hide Good, Enabled, Next;
    NotFree(n);
    ConnectionOpens(n, d);
    m := Next(n, Accepted(d));
  }

  lemma {:induction false} StartIs(all: seq<T>)
    ensures var n := Start(all);
      n.free == all && n.ready == [] && n.writing == [] && n.queue == map[] && n.window == None && n.closing == {}
  {
  }

  lemma {:induction false} OneRun(n: Net, s: Step)
    requires Good(n) && Enabled(n, s) && Good(Next(n, s))
    ensures Runs(n, [s]) && After(n, [s]) == Next(n, s)
  {
    hide Good, Enabled, Next;
    StepConserves(n, s);
    assert [s][1..] == [];
    assert Runs(Next(n, s), []);
  }

  // ---------------------------------------------------------------- a round that skips one

  /** Three in line, of which the second has something to send, less than a window, and the third nothing. */
  ghost predicate ThreeInLine(n: Net, c: C, a: C, b: C) {
    && Good(n) && n.window == None && |n.writing| == 3 && c != a && c != b && a != b
    && Owns(n, n.writing[0], c) && Owns(n, n.writing[1], a) && Owns(n, n.writing[2], b)
    && n.closing == {} && a in n.persist && b in n.persist && a in n.queue && |n.queue[a]| == 1
    && b in n.queue && |n.queue[b]| == 1
    && n.writing[1] in n.pending && 0 < |n.pending[n.writing[1]]| <= TCP_WND
    && n.writing[2] in n.pending && n.pending[n.writing[2]] == []
  }

  /** The second in line is given all it has to send. */
  lemma {:induction false} SecondServed(n: Net, a: C, k: nat)
    requires Good(n) && |n.writing| >= 2 && Owns(n, n.writing[1], a) && n.window == None && n.writing[1] !in n.closing
    requires n.writing[1] in n.pending && 0 < k <= TCP_WND && k == |n.pending[n.writing[1]]|
    ensures Enabled(n, SendOne(k)) && Good(Next(n, SendOne(k)))
    ensures var m, t := Next(n, SendOne(k)), n.writing[1];
      && m.writing == n.writing[1..] + [n.writing[0]] && m.queue == n.queue && m.persist == n.persist
      && m.closing == n.closing && m.window == Some(a) && m.outstanding == k && m.pending == n.pending[t := []]
      && m.owner == n.owner
  {
    hide Good, Enabled, Next, Rotate, HeadReady, SendHead, Written;
    TurnEnabled(n, k);
    EachStepIs(n, SendOne(k));
    StepKeeps(n, SendOne(k));
    RotateRest(n);
    RotateRests(n);
    var r := Rotate(n);
    HeadReadyIs(r);
    WritesHead(r, k);
    assert n.pending[n.writing[1]][k..] == [];
  }

  lemma {:induction false} WritesHead(n: Net, k: nat)
    requires HeadReady(n) && n.writing[0] !in n.closing && 0 < k <= |n.pending[n.writing[0]]|
    ensures var m, t := SendHead(n, k), n.writing[0];
      && m.writing == n.writing && m.queue == n.queue && m.persist == n.persist && m.closing == n.closing
      && m.window == Some(n.owner[t]) && m.outstanding == k && m.pending == n.pending[t := n.pending[t][k..]]
      && m.owner == n.owner
  {
    hide Close, Finish;
  }

  /** And the client acknowledges it. */
  lemma {:induction false} AllAcknowledged(n: Net, a: C)
    requires Good(n) && n.window == Some(a)
    ensures Enabled(n, Acknowledged(a, n.outstanding)) && Good(Next(n, Acknowledged(a, n.outstanding)))
    ensures var m := Next(n, Acknowledged(a, n.outstanding));
      && m.writing == n.writing && m.queue == n.queue && m.persist == n.persist && m.closing == n.closing
      && m.window == None && m.pending == n.pending && m.owner == n.owner
  {
    hide Valid, Streams, Goodbyes, Next;
    assert Acked(n, a);
    var s := Acknowledged(a, n.outstanding);
    EachStepIs(n, s);
    StepKeeps(n, s);
  }

  /**
   * A round can skip a connection although nobody joins the line: three connections are in line, something is sent
   * three times, and the first of them has no turn, because it was first in line when the third one left.
   */
  lemma {:induction false} SkippedInRound(n: Net, c: C, a: C, b: C) returns (steps: seq<Step>)
    requires ThreeInLine(n, c, a, b)
    ensures |Line(n)| == 3 && PassedOver(n, steps, c, 3, 3) && forall i | 0 <= i < |steps| :: !steps[i].CommitOf?
  {
    hide *;
    var k, n1, n2, n3, n4 := SkippingSteps(n, c, a, b);
    NoStep(n4, c, 3);
    NotServed(n3, SendOne(0), c);
    StepBefore(n3, SendOne(0), [], c, 3, 0);
    NotServed(n2, SendOne(0), c);
    StepBefore(n2, SendOne(0), [SendOne(0)] + [], c, 3, 1);
    NotServed(n1, Acknowledged(a, k), c);
    StepBefore(n1, Acknowledged(a, k), [SendOne(0)] + ([SendOne(0)] + []), c, 3, 2);
    NotServed(n, SendOne(k), c);
    StepBefore(n, SendOne(k), [Acknowledged(a, k)] + ([SendOne(0)] + ([SendOne(0)] + [])), c, 3, 2);
    steps := [SendOne(k)] + ([Acknowledged(a, k)] + ([SendOne(0)] + ([SendOne(0)] + [])));
  }

  /** There may be such three soon after start-up. */
  lemma {:induction false} ThreeFromStart(all: seq<T>, c: C, a: C, b: C, bytes: seq<char>, file: seq<char>)
    returns (before: seq<Step>)
    requires NoDup(all) && |all| >= 3 && c != a && c != b && a != b && 0 < |bytes| <= TCP_WND
    ensures Good(Start(all)) && Runs(Start(all), before) && ThreeInLine(After(Start(all), before), c, a, b)
  {
    hide Good, Enabled, Next, Line, Runs, After, Start, ThreeInLine, NoDup, Sends;
    StartGood(all);
    StartIs(all);
    var s := Start(all);
    var n1, r1 := NewInLine(s, c, file);
    var n2, r2 := NewInLine(n1, a, bytes);
    var n3, r3 := NewInLine(n2, b, []);
    assert n1.free[0] == all[1] && n2.free[0] == all[2];
    Different(all);
    ThreeAre(s, n3, all[0], all[1], all[2], c, a, b, bytes, file);
    RunsJoin(s, r1, r2);
    RunsJoin(s, r1 + r2, r3);
    before := r1 + r2 + r3;
  }

  lemma {:induction false} Different(all: seq<T>)
    requires NoDup(all) && |all| >= 3
    ensures all[0] != all[1] && all[0] != all[2] && all[1] != all[2]
  {
  }

  lemma {:induction false} ThreeAre(s: Net, n: Net, x: T, y: T, z: T, c: C, a: C, b: C, bytes: seq<char>,
                                    file: seq<char>)
    requires x != y && x != z && y != z && c != a && c != b && a != b && 0 < |bytes| <= TCP_WND
    requires Good(n) && n.window == None && n.writing == s.writing + [x] + [y] + [z] && s.writing == []
    requires n.queue == s.queue[c := [x]][a := [y]][b := [z]] && n.owner == s.owner[x := c][y := a][z := b]
    requires n.pending == s.pending[x := file][y := bytes][z := []] && n.persist == s.persist + {c} + {a} + {b}
    requires s.closing == {} && n.closing == s.closing - {x} - {y} - {z}
    ensures ThreeInLine(n, c, a, b)
  {
    hide Good;
    assert n.writing == [x, y, z];
  }

  lemma {:induction false} SkippingSteps(n: Net, c: C, a: C, b: C) returns (k: nat, n1: Net, n2: Net, n3: Net, n4: Net)
    requires ThreeInLine(n, c, a, b)
    ensures c != a && c != b
    ensures Good(n) && Enabled(n, SendOne(k)) && Line(n) == [c, a, b] && n1 == Next(n, SendOne(k))
    ensures Good(n1) && Enabled(n1, Acknowledged(a, k)) && Line(n1) == [a, b, c] && n2 == Next(n1, Acknowledged(a, k))
    ensures Good(n2) && Enabled(n2, SendOne(0)) && Line(n2) == [a, b, c] && n3 == Next(n2, SendOne(0))
    ensures Good(n3) && Enabled(n3, SendOne(0)) && Line(n3) == [c, a] && n4 == Next(n3, SendOne(0))
    ensures Good(n4) && Line(n4) == [c]
  {
    hide Good, Enabled, Next, Line;
    k := |n.pending[n.writing[1]]|;
    SecondServed(n, a, k);
    n1 := Next(n, SendOne(k));
    AllAcknowledged(n1, a);
    n2 := Next(n1, Acknowledged(a, k));
    assert n2.writing == [n.writing[1], n.writing[2], n.writing[0]];
    SecondLeaves(n2, b);
    n3 := Next(n2, SendOne(0));
    assert n3.writing == [n.writing[0], n.writing[1]];
    SecondLeaves(n3, a);
    n4 := Next(n3, SendOne(0));
    assert n4.writing == [n.writing[0]];
    LineOf(n, [c, a, b]);
    LineOf(n1, [a, b, c]);
    LineOf(n2, [a, b, c]);
    LineOf(n3, [c, a]);
    LineOf(n4, [c]);
  }

  lemma {:induction false} LineOf(n: Net, line: seq<C>)
    requires Good(n) && |n.writing| == |line| && forall i | 0 <= i < |line| :: Owns(n, n.writing[i], line[i])
    ensures Line(n) == line
  {
    hide Good;
  }

  lemma {:induction false} NotServed(n: Net, s: Step, c: C)
    requires Good(n) && |Line(n)| >= 2 && (s.SendOne? ==> Line(n)[1] != c)
    ensures !HasTurn(n, s, c)
  {
    hide Good, Line;
  }
}
