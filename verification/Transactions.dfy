/** Network transactions and the singly linked lists they move between. */
module Transactions {
  import opened Basics
  import opened Options

  datatype Status = Released | Connected | Receiving | Sending | Disconnected | Deferred | Acquired

  class ConnectionState {
    var isConnected: bool  // it has a protocol control block
    var sendingTransaction: NetworkTransaction?
    var persistConnection: bool
    var next: ConnectionState?

    constructor (n: ConnectionState?)
      ensures next == n && sendingTransaction == null && !isConnected
    {
      isConnected, sendingTransaction, persistConnection, next := false, null, true, n;
    }
  }

  class NetworkTransaction {
    var cs: ConnectionState?
    var next: NetworkTransaction?
    var nextWrite: NetworkTransaction?
    var status: Status
    var closeRequested: bool
    var sendBuffer: seq<seq<char>>       // the unread bytes of each buffer of the chain being sent
    var sendStack: seq<seq<seq<char>>>   // chains to be sent after it
    var fileBeingSent: Option<seq<char>> // what is left of the file to be sent at the end

    constructor (n: NetworkTransaction?)
      ensures next == n && status == Released && !closeRequested && sendStack == []
    {
      next, cs, nextWrite, status, closeRequested := n, null, null, Released, false;
      sendBuffer, sendStack, fileBeingSent := [], [], None;
    }
  }

  function At(items: seq<NetworkTransaction>, i: nat): NetworkTransaction? { if i < |items| then items[i] else null }

  ghost predicate Linked(items: seq<NetworkTransaction>)
    reads items`next
  {
    forall i {:trigger items[i].next} | 0 <= i < |items| :: items[i].next == At(items, i + 1)
  }

  /** A list in memory. */
  ghost predicate List(head: NetworkTransaction?, items: seq<NetworkTransaction>)
    reads items`next
  {
    NoDup(items) && Linked(items) && head == At(items, 0)
  }

  /** A list without the members of a set, and only those. */
  ghost function Minus(items: seq<NetworkTransaction>, s: set<NetworkTransaction>): seq<NetworkTransaction> {
    if items == [] then []
    else Minus(items[..|items| - 1], s) + if items[|items| - 1] in s then [] else [items[|items| - 1]]
  }

  ghost function Only(items: seq<NetworkTransaction>, s: set<NetworkTransaction>): seq<NetworkTransaction> {
    if items == [] then []
    else Only(items[..|items| - 1], s) + if items[|items| - 1] in s then [items[|items| - 1]] else []
  }

  /** Adds a transaction at the end of a list. */
  method AppendTransaction(head: NetworkTransaction?, r: NetworkTransaction, ghost items: seq<NetworkTransaction>)
    returns (head': NetworkTransaction?)
    requires List(head, items) && r !in items
    modifies r`next, items`next
    ensures List(head', items + [r])
  {
    r.next := null;
    if head == null {
      head' := r;
    } else {
      head' := head;
      var item := head;
      ghost var k := 0;
      while item.next != null
        invariant k < |items| && item == items[k] && Linked(items)
        decreases |items| - k
      {
        item := item.next;
        k := k + 1;
      }
      item.next := r;
    }
  }

  method PrependTransaction(head: NetworkTransaction?, r: NetworkTransaction, ghost items: seq<NetworkTransaction>)
    returns (head': NetworkTransaction)
    requires List(head, items) && r !in items
    modifies r`next
    ensures head' == r && List(head', [r] + items)
  {
    r.next := head;
    head' := r;
    assert forall i | 0 < i <= |items| :: ([r] + items)[i] == items[i - 1];
  }

  /** Takes a transaction out of a list, if it is there. */
  method Unlink(head: NetworkTransaction?, t: NetworkTransaction, ghost items: seq<NetworkTransaction>)
    returns (head': NetworkTransaction?)
    requires List(head, items)
    modifies items`next
    ensures List(head', Minus(items, {t}))
    ensures t !in items ==> head' == head && Minus(items, {t}) == items
    ensures old(t.next) == t.next
  {
    var previous: NetworkTransaction? := null;
    var item := head;
    head' := head;
    ghost var k := 0;
    while item != null && item != t
      invariant k <= |items| && item == At(items, k) && previous == if k == 0 then null else items[k - 1]
      invariant forall i | 0 <= i < k :: items[i] != t
      decreases |items| - k
    {
      previous := item;
      item := item.next;
      k := k + 1;
    }
    MinusOne(items, t, k);
    if item == t {
      if previous == null { head' := t.next; } else { previous.next := t.next; }
      assert forall i | k <= i < |items| - 1 :: Minus(items, {t})[i] == items[i + 1];
    }
  }

  lemma {:induction false} MinusJoins(a: seq<NetworkTransaction>, b: seq<NetworkTransaction>,
                                      s: set<NetworkTransaction>)
    ensures Minus(a + b, s) == Minus(a, s) + Minus(b, s)
  {
    if b == [] {
      assert a + b == a;
    } else {
      var init, x := b[..|b| - 1], b[|b| - 1];
      MinusJoins(a, init, s);
      assert (a + b)[..|a + b| - 1] == a + init && (a + b)[|a + b| - 1] == x;
    }
  }

  lemma {:induction false} OnlyJoins(a: seq<NetworkTransaction>, b: seq<NetworkTransaction>, s: set<NetworkTransaction>)
    ensures Only(a + b, s) == Only(a, s) + Only(b, s)
  {
    if b == [] {
      assert a + b == a;
    } else {
      var init, x := b[..|b| - 1], b[|b| - 1];
      OnlyJoins(a, init, s);
      assert (a + b)[..|a + b| - 1] == a + init && (a + b)[|a + b| - 1] == x;
    }
  }

  lemma {:induction false} MinusNone(items: seq<NetworkTransaction>, s: set<NetworkTransaction>)
    requires forall i | 0 <= i < |items| :: items[i] !in s
    ensures Minus(items, s) == items && Only(items, s) == []
  {
    if items != [] {
      MinusNone(items[..|items| - 1], s);
      assert items == items[..|items| - 1] + [items[|items| - 1]];
    }
  }

  lemma {:induction false} MinusOne(items: seq<NetworkTransaction>, t: NetworkTransaction, k: nat)
    requires NoDup(items) && k <= |items| && (forall i | 0 <= i < k :: items[i] != t) && (k < |items| ==> items[k] == t)
    ensures Minus(items, {t}) == items[..k] + (if k < |items| then items[k + 1..] else [])
    ensures k == |items| ==> t !in items && Minus(items, {t}) == items
  {
    hide Minus, Only;
    if k < |items| {
      MinusNone(items[..k], {t});
      MinusNone(items[k + 1..], {t});
      MinusSelf(t);
      MinusJoins(items[..k], [t], {t});
      MinusJoins(items[..k] + [t], items[k + 1..], {t});
      assert items == items[..k] + [t] + items[k + 1..];
    } else {
      MinusNone(items, {t});
      assert items[..k] == items;
    }
  }

  lemma {:induction false} MinusSelf(t: NetworkTransaction)
    ensures Minus([t], {t}) == [] && Only([t], {t}) == [t]
  {
    var one := [t];
    assert one[..0] == [] && Minus(one, {t}) == Minus(one[..0], {t}) && Only(one, {t}) == Only(one[..0], {t}) + [t];
  }

  // ---------------------------------------------------------------- deferring a transaction

  /** The members of a list that belong to the same connection as t. */
  ghost predicate SameConnection(items: seq<NetworkTransaction>, t: NetworkTransaction, same: set<NetworkTransaction>)
    reads items`cs, t`cs
  {
    t in items && forall i | 0 <= i < |items| :: items[i] in same <==> items[i].cs == t.cs
  }

  /** The ready list after transaction t, one of the connection `same`, has been deferred: the other connections'
      transactions in their old order, then t, then the rest of its connection in their old order. */
  ghost function DeferOrder(items: seq<NetworkTransaction>, t: NetworkTransaction,
                            same: set<NetworkTransaction>): seq<NetworkTransaction> {
    Minus(items, same) + [t] + Only(Minus(items, {t}), same)
  }

  /** How far the second loop of `DeferInList` has got: `passed` is dealt with, `rest` is not. */
  ghost function Partway(passed: seq<NetworkTransaction>, rest: seq<NetworkTransaction>, t: NetworkTransaction,
                         same: set<NetworkTransaction>): seq<NetworkTransaction> {
    Minus(passed, same) + rest + [t] + Only(passed, same)
  }

  /** Moves a transaction, and then the others of its connection, to the end of the list. */
  method DeferInList(head: NetworkTransaction?, t: NetworkTransaction, ghost items: seq<NetworkTransaction>,
                     ghost same: set<NetworkTransaction>)
    returns (head': NetworkTransaction?)
    requires List(head, items) && SameConnection(items, t, same)
    modifies items`next
    ensures List(head', DeferOrder(items, t, same))
  {
    hide *;
    ghost var others := Minus(items, {t});
    TInSame(items, t, same);
    head' := Unlink(head, t, items);
    OthersOf(items, t);
    head' := AppendTransaction(head', t, others);
    ghost var k := 0;
    var item: NetworkTransaction?, previous: NetworkTransaction? := head', null;
    PartwayStarts(head', others, t, same);
    while item != t
      invariant k <= |others| && item == (others[k..] + [t])[0] && previous == LastOf(Minus(others[..k], same))
      invariant List(head', Partway(others[..k], others[k..], t, same))
      decreases |others| - k
    {
      PartwayItem(head', others, k, t, same);
      SameOrNot(items, t, same, k);
      ghost var before, after := Minus(others[..k], same), others[k + 1..] + [t] + Only(others[..k], same);
      InItems(items, t, same, k);
      if item.cs == t.cs {
        var nextItem := item.next;
        head' := MoveToEnd(head', previous, item, before, after);
        item := nextItem;
      } else {
        previous := item;
        item := item.next;
      }
      PartwayStep(others, k, t, same);
      k := k + 1;
    }
    AllPassed(items, t, k);
    PartwayEnds(items, others, k, t, same);
  }

  ghost function LastOf(items: seq<NetworkTransaction>): NetworkTransaction? {
    if items == [] then null else items[|items| - 1]
  }

  method MoveToEnd(head: NetworkTransaction?, previous: NetworkTransaction?, item: NetworkTransaction,
                   ghost before: seq<NetworkTransaction>, ghost after: seq<NetworkTransaction>)
    returns (head': NetworkTransaction?)
    requires List(head, before + [item] + after) && previous == LastOf(before) && after != []
    modifies before`next, item`next, after`next
    ensures List(head', before + after + [item])
  {
    ghost var all, rest, m := before + [item] + after, before + after, |before|;
    assert forall i | 0 <= i < |rest| :: rest[i] == all[if i < m then i else i + 1];
    assert all[m] == item && item.next == all[m + 1];
    head' := head;
    if previous == null {
      head' := item.next;
    } else {
      assert previous == all[m - 1];
      previous.next := item.next;
    }
    forall i, j | 0 <= i < j < |rest| ensures rest[i] != rest[j] {
      assert all[if i < m then i else i + 1] != all[if j < m then j else j + 1];
    }
    forall i | 0 <= i < |rest| ensures rest[i].next == At(rest, i + 1) {
      var k := if i < m then i else i + 1;
      assert all[k] == rest[i];
    }
    assert rest[0] == all[if m == 0 then 1 else 0];
    head' := AppendTransaction(head', item, rest);
  }

  lemma {:induction false} OthersOf(items: seq<NetworkTransaction>, t: NetworkTransaction)
    ensures t !in Minus(items, {t}) && forall i | 0 <= i < |Minus(items, {t})| :: Minus(items, {t})[i] in items
  {
    MinusIn(items, {t});
  }

  lemma {:induction false} MinusIn(items: seq<NetworkTransaction>, s: set<NetworkTransaction>)
    ensures forall i | 0 <= i < |Minus(items, s)| :: Minus(items, s)[i] in items && Minus(items, s)[i] !in s
    ensures forall i | 0 <= i < |Only(items, s)| :: Only(items, s)[i] in items && Only(items, s)[i] in s
  {
    if items != [] {
      var init, x := items[..|items| - 1], items[|items| - 1];
      MinusIn(init, s);
      assert items == init + [x];
    }
  }

  lemma {:induction false} PartwayStarts(head: NetworkTransaction?, others: seq<NetworkTransaction>,
                                         t: NetworkTransaction, same: set<NetworkTransaction>)
    requires List(head, others + [t])
    ensures List(head, Partway(others[..0], others[0..], t, same))
    ensures head == (others[0..] + [t])[0] && LastOf(Minus(others[..0], same)) == null
  {
    assert others[..0] == [] && others[0..] == others;
    assert Partway([], others, t, same) == others + [t];
  }

  lemma {:induction false} PartwayItem(head: NetworkTransaction?, others: seq<NetworkTransaction>, k: nat,
                                       t: NetworkTransaction, same: set<NetworkTransaction>)
    requires k <= |others| && List(head, Partway(others[..k], others[k..], t, same)) && (others[k..] + [t])[0] != t
    ensures k < |others| && (others[k..] + [t])[0] == others[k] && others[k].next == (others[k + 1..] + [t])[0]
    ensures var before, after := Minus(others[..k], same), others[k + 1..] + [t] + Only(others[..k], same);
            Partway(others[..k], others[k..], t, same) == before + [others[k]] + after && after != []
  {
    hide Minus, Only;
    var before, rest := Minus(others[..k], same), others[k + 1..] + [t];
    var after := rest + Only(others[..k], same);
    assert others[k..] == [others[k]] + others[k + 1..];
    var all := before + [others[k]] + after;
    assert Partway(others[..k], others[k..], t, same) == all;
    assert all[|before|] == others[k] && all[|before| + 1] == after[0] == rest[0];
  }

  lemma {:induction false} PartwayStep(others: seq<NetworkTransaction>, k: nat, t: NetworkTransaction,
                                       same: set<NetworkTransaction>)
    requires k < |others|
    ensures var before, x := Minus(others[..k], same), others[k];
            var after := others[k + 1..] + [t] + Only(others[..k], same);
            if x in same then
              && Partway(others[..k + 1], others[k + 1..], t, same) == before + after + [x]
              && LastOf(Minus(others[..k + 1], same)) == LastOf(before)
            else
              && Partway(others[..k + 1], others[k + 1..], t, same) == before + [x] + after
              && LastOf(Minus(others[..k + 1], same)) == x
  {
    assert others[..k + 1][..k] == others[..k];
    var x, m, o := others[k], Minus(others[..k], same), Only(others[..k], same);
    assert Minus(others[..k + 1], same) == m + if x in same then [] else [x];
    assert Only(others[..k + 1], same) == o + if x in same then [x] else [];
    StepJoins(m, x, others[k + 1..], t, o);
  }

  lemma {:induction false} StepJoins(m: seq<NetworkTransaction>, x: NetworkTransaction, rest: seq<NetworkTransaction>,
                                     t: NetworkTransaction, o: seq<NetworkTransaction>)
    ensures m + rest + [t] + (o + [x]) == m + (rest + [t] + o) + [x]
    ensures (m + [x]) + rest + [t] + o == m + [x] + (rest + [t] + o)
    ensures m + [] == m && o + [] == o
  {
  }

  lemma {:induction false} SameOrNot(items: seq<NetworkTransaction>, t: NetworkTransaction,
                                     same: set<NetworkTransaction>, k: nat)
    requires SameConnection(items, t, same) && k < |Minus(items, {t})|
    ensures Minus(items, {t})[k] in same <==> Minus(items, {t})[k].cs == t.cs
  {
    MinusIn(items, {t});
  }

  lemma {:induction false} TInSame(items: seq<NetworkTransaction>, t: NetworkTransaction, same: set<NetworkTransaction>)
    requires SameConnection(items, t, same)
    ensures t in same && t in items
  {
  }

  lemma {:induction false} InItems(items: seq<NetworkTransaction>, t: NetworkTransaction,
                                   same: set<NetworkTransaction>, k: nat)
    requires t in items && k < |Minus(items, {t})|
    ensures var others := Minus(items, {t});
            var before, after := Minus(others[..k], same), others[k + 1..] + [t] + Only(others[..k], same);
            && (forall i | 0 <= i < |before| :: before[i] in items) && others[k] in items
            && (forall i | 0 <= i < |after| :: after[i] in items)
  {
    hide Minus, Only;
    var others := Minus(items, {t});
    MinusIn(items, {t});
    MinusIn(others[..k], same);
    forall x | x in others ensures x in items {
      var i :| 0 <= i < |others| && others[i] == x;
    }
  }

  lemma {:induction false} AllPassed(items: seq<NetworkTransaction>, t: NetworkTransaction, k: nat)
    requires k <= |Minus(items, {t})| && (Minus(items, {t})[k..] + [t])[0] == t
    ensures k == |Minus(items, {t})|
  {
    OthersOf(items, t);
  }

  lemma {:induction false} PartwayEnds(items: seq<NetworkTransaction>, others: seq<NetworkTransaction>, k: nat,
                                       t: NetworkTransaction, same: set<NetworkTransaction>)
    requires t in same && others == Minus(items, {t}) && k == |others|
    ensures Partway(others[..k], others[k..], t, same) == DeferOrder(items, t, same)
  {
    hide Only;
    MinusMinus(items, {t}, same);
    assert others[..k] == others && others[k..] == [];
    assert Minus(others, same) + [] == Minus(others, same);
  }

  lemma {:induction false} MinusMinus(items: seq<NetworkTransaction>, a: set<NetworkTransaction>,
                                      b: set<NetworkTransaction>)
    requires a <= b
    ensures Minus(Minus(items, a), b) == Minus(items, b)
  {
    if items != [] {
      var init, x := items[..|items| - 1], items[|items| - 1];
      MinusMinus(init, a, b);
      if x !in a {
        MinusJoins(Minus(init, a), [x], b);
        var one := [x];
        assert one[..0] == [] && Minus(one, b) == Minus(one[..0], b) + if x in b then [] else [x];
        assert Minus(items, a) == Minus(init, a) + [x];
      } else {
        assert Minus(items, a) == Minus(init, a) + [] == Minus(init, a);
      }
    }
  }

  // ---------------------------------------------------------------- what deferring keeps

  lemma {:induction false} OnlyMinus(items: seq<NetworkTransaction>, a: set<NetworkTransaction>,
                                     b: set<NetworkTransaction>)
    requires a !! b
    ensures Only(Minus(items, a), b) == Only(items, b) && Only(Only(items, a), b) == []
    ensures Only(Minus(items, a), a) == [] && Only(Only(items, a), a) == Only(items, a)
  {
    if items != [] {
      var init, x := items[..|items| - 1], items[|items| - 1];
      OnlyMinus(init, a, b);
      OnlyJoins(Minus(init, a), [x], b);
      OnlyJoins(Minus(init, a), [x], a);
      OnlyJoins(Only(init, a), [x], b);
      OnlyJoins(Only(init, a), [x], a);
      OnlySingle(x, a);
      OnlySingle(x, b);
      assert Minus(items, a) == if x in a then Minus(init, a) else Minus(init, a) + [x];
      assert Only(items, a) == if x in a then Only(init, a) + [x] else Only(init, a);
    }
  }

  lemma {:induction false} OnlySingle(x: NetworkTransaction, s: set<NetworkTransaction>)
    ensures Only([x], s) == if x in s then [x] else []
  {
    var one := [x];
    assert one[..0] == [] && Only(one, s) == Only(one[..0], s) + if x in s then [x] else [];
  }

  lemma {:induction false} SplitConserves(items: seq<NetworkTransaction>, s: set<NetworkTransaction>)
    ensures multiset(Minus(items, s)) + multiset(Only(items, s)) == multiset(items)
  {
    if items != [] {
      var init, x := items[..|items| - 1], items[|items| - 1];
      SplitConserves(init, s);
      AddOne(init, x, items);
      if x in s {
        AddOne(Only(init, s), x, Only(items, s));
      } else {
        AddOne(Minus(init, s), x, Minus(items, s));
      }
    }
  }

  lemma {:induction false} AddOne(init: seq<NetworkTransaction>, x: NetworkTransaction, items: seq<NetworkTransaction>)
    requires items == init + [x]
    ensures multiset(items) == multiset(init) + multiset{x}
  {
  }

  ghost predicate First(items: seq<NetworkTransaction>, t: NetworkTransaction) { items != [] && items[0] == t }

  /** Deferring is a stable partition. Nothing is lost or duplicated, every other connection keeps its order, and the
      deferred transaction's own connection keeps its order exactly when it was the first of it. */
  lemma {:induction false} DeferIsStable(items: seq<NetworkTransaction>, t: NetworkTransaction,
                                         same: set<NetworkTransaction>, other: set<NetworkTransaction>)
    requires NoDup(items) && t in items && t in same && same !! other
    ensures multiset(DeferOrder(items, t, same)) == multiset(items)
    ensures Only(DeferOrder(items, t, same), other) == Only(items, other)
    ensures Only(DeferOrder(items, t, same), same) == [t] + Only(Minus(items, {t}), same)
    ensures Only(DeferOrder(items, t, same), same) == Only(items, same) <==> First(Only(items, same), t)
  {
    hide Minus, Only;
    var others := Minus(items, {t});
    MinusMinus(items, {t}, same);
    SplitConserves(others, same);
    SplitConserves(items, {t});
    OnlyOne(items, t);
    OnlyMinus(items, same, other);
    OnlyMinus(others, same, other);
    OnlySingle(t, same);
    OnlySingle(t, other);
    OnlyJoins(Minus(items, same), [t], same);
    OnlyJoins(Minus(items, same) + [t], Only(others, same), same);
    OnlyJoins(Minus(items, same), [t], other);
    OnlyJoins(Minus(items, same) + [t], Only(others, same), other);
    assert multiset(DeferOrder(items, t, same))
        == multiset(Minus(items, same)) + multiset([t]) + multiset(Only(others, same));
    FirstOfSame(items, t, same);
  }

  lemma {:induction false} OnlyOne(items: seq<NetworkTransaction>, t: NetworkTransaction)
    requires NoDup(items) && t in items
    ensures Only(items, {t}) == [t]
  {
    hide Minus, Only;
    var k :| 0 <= k < |items| && items[k] == t;
    MinusNone(items[..k], {t});
    MinusNone(items[k + 1..], {t});
    MinusSelf(t);
    OnlyJoins(items[..k], [t], {t});
    OnlyJoins(items[..k] + [t], items[k + 1..], {t});
    assert items == items[..k] + [t] + items[k + 1..];
  }

  lemma {:induction false} FirstOfSame(items: seq<NetworkTransaction>, t: NetworkTransaction,
                                       same: set<NetworkTransaction>)
    requires NoDup(items) && t in items && t in same
    ensures Only(items, same) != []
    ensures [t] + Only(Minus(items, {t}), same) == Only(items, same) <==> First(Only(items, same), t)
  {
    hide Minus, Only;
    var k :| 0 <= k < |items| && items[k] == t;
    var before, after := items[..k], items[k + 1..];
    MinusOne(items, t, k);
    OnlySingle(t, same);
    OnlyJoins(before, [t], same);
    OnlyJoins(before + [t], after, same);
    OnlyJoins(before, after, same);
    assert items == before + [t] + after;
    MinusIn(before, same);
    var b, a := Only(before, same), Only(after, same);
    assert Only(items, same) == b + [t] + a && Only(Minus(items, {t}), same) == b + a;
    if b == [] {
      assert b + [t] + a == [t] + (b + a);
    } else {
      assert b[0] in before && b[0] != t && (b + [t] + a)[0] == b[0];
    }
  }
}
