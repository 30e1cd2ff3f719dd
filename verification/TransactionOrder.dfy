/** The order in which the requests of a connection are dealt with. */
module TransactionOrder {
  import opened Basics
  import opened Options
  import opened Transactions
  import opened TransactionFlow
  import opened TransactionTurns

  /** The ready transactions of a connection, in the order of the ready list. */
  ghost function ReadyOf(n: Net, c: C): seq<T> { Only(n.ready, Of(n, c)) }

  lemma {:induction false} OnlyAgree(items: seq<T>, a: set<T>, b: set<T>)
    requires forall i | 0 <= i < |items| :: items[i] in a <==> items[i] in b
    ensures Only(items, a) == Only(items, b)
  {
    if items != [] {
      OnlyAgree(items[..|items| - 1], a, b);
    }
  }

  /** A step by which something arrives on a connection. */
  ghost predicate Arrives(s: Step, d: C) { s == Received(d) || s == Accepted(d) || s == ClosedGracefully(d) }

  lemma {:induction false} ArrivalIs(n: Net, s: Step, d: C)
    requires Good(n) && Enabled(n, s) && Arrives(s, d) && n.free != []
    ensures var m, t := Next(n, s), n.free[0];
      Good(m) && m.ready == n.ready + [t] && m.owner == n.owner[t := d] && t !in n.ready
  {
    hide Good, Enabled, Next;
    StepKeeps(n, s);
    EachStepIs(n, s);
    NotFree(n);
  }

  /** What arrives on a connection is dealt with after everything else on it; other connections are not affected. */
  lemma {:induction false} ArrivesLast(n: Net, s: Step, d: C, c: C)
    requires Good(n) && Enabled(n, s) && Arrives(s, d) && n.free != []
    ensures ReadyOf(Next(n, s), c) == ReadyOf(n, c) + if d == c then [n.free[0]] else []
  {
    hide Good, Enabled, Next, Arrives, Only;
    ArrivalIs(n, s, d);
    var m, t := Next(n, s), n.free[0];
    OnlyJoins(n.ready, [t], Of(m, c));
    OnlySingle(t, Of(m, c));
    forall i | 0 <= i < |n.ready| ensures n.ready[i] in Of(n, c) <==> n.ready[i] in Of(m, c) {
      assert n.ready[i] in n.ready;
    }
    OnlyAgree(n.ready, Of(n, c), Of(m, c));
  }

  /** Looking for a request of a connection finds the one that came first, and leaves the order of each connection's
      requests as it was. */
  lemma {:induction false} OldestFirst(n: Net, d: C, c: C)
    requires Good(n) && Enabled(n, GetFor(d))
    ensures var m := Next(n, GetFor(d));
      && ReadyOf(m, c) == ReadyOf(n, c)
      && (ReadyOf(n, d) != [] ==> m.ready != [] && m.ready[0] == ReadyOf(n, d)[0])
  {
    hide Good, Enabled, Next, Only, Minus;
    EachStepIs(n, GetFor(d));
    var m, mine := Next(n, GetFor(d)), ReadyOf(n, d);
    if mine != [] {
      var x := mine[0];
      OnlyJoins([x], Minus(n.ready, {x}), Of(n, c));
      OnlySingle(x, Of(n, c));
      HasMinus(n.ready, Of(n, d));
      assert x in mine;
      if c == d {
        ListsTidy(n);
        FirstOfSame(n.ready, x, Of(n, c));
      } else {
        OnlyMinus(n.ready, {x}, Of(n, c));
      }
    }
  }
}
