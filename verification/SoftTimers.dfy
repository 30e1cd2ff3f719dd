/** Software timers: a list of pending callbacks, soonest first, on a clock that wraps around. */
module SoftTimers {
  import opened Basics
  import opened Options

  const WORD := 0x1_0000_0000
  const HALF := 0x8000_0000

  /** The tick count at a time. */
  function Ticks(time: int): int { time % WORD }

  /** The difference of two tick counts, as a signed 32-bit number. */
  function Signed(a: int, b: int): int {
    var d := (a - b) % WORD;
    if d < HALF then d else d - WORD
  }

  /** Tick counts that are less than half the range of the clock apart compare like the times they stand for. */
  lemma {:induction false} SignedIs(a: int, b: int)
    requires -HALF <= a - b < HALF
    ensures Signed(Ticks(a), Ticks(b)) == a - b
  {
    var x, y := a / WORD, b / WORD;
    assert a % WORD - b % WORD == (a - b) - WORD * (x - y);
    Wraps(a - b, y - x);
  }

  lemma {:induction false} Wraps(d: int, k: int)
    ensures (d + WORD * k) % WORD == d % WORD
  {
  }

  class SoftTimer {
    var next: SoftTimer?
    var whenDue: int         // a tick count

    constructor ()
      ensures next == null
    {
      next, whenDue := null, 0;
    }
  }

  // ---------------------------------------------------------------- the timers as a value

  /** A timer that is pending, and the time it is due. */
  datatype Entry = Entry(timer: SoftTimer, due: int)

  /** The pending timers in the order of the list, and the time that the hardware is armed for, if it is enabled. */
  datatype Queue = Queue(pending: seq<Entry>, armed: Option<int>)

  function Timers(q: seq<Entry>): (items: seq<SoftTimer>)
    ensures |items| == |q| && forall i | 0 <= i < |q| :: items[i] == q[i].timer
  {
    seq(|q|, i requires 0 <= i < |q| => q[i].timer)
  }

  /** Soonest first. */
  predicate Sorted(q: seq<Entry>) { forall i, j | 0 <= i < j < |q| :: q[i].due <= q[j].due }

  /** All times are within one half of the range of the clock. */
  predicate Within(q: seq<Entry>, lo: int) { forall i | 0 <= i < |q| :: At(q[i].due, lo) }

  predicate At(time: int, lo: int) { lo <= time < lo + HALF }

  /** The list with a timer added, in front of the first that is not due earlier. */
  function Place(q: seq<Entry>, e: Entry): seq<Entry> {
    if q == [] || e.due <= q[0].due then [e] + q else [q[0]] + Place(q[1..], e)
  }

  /** The list without a timer. */
  function Remove(q: seq<Entry>, t: SoftTimer): seq<Entry> {
    if q == [] then [] else (if q[0].timer == t then [] else [q[0]]) + Remove(q[1..], t)
  }

  /** A timer is not scheduled if it would be the first and is due too soon for the hardware. */
  predicate Imminent(interval: nat, q: Queue, due: int, later: int) {
    (q.pending == [] || due < q.pending[0].due) && due - later < interval
  }

  function Scheduled(interval: nat, q: Queue, e: Entry, later: int): Queue {
    if Imminent(interval, q, e.due, later) then q
    else Queue(Place(q.pending, e), if q.pending == [] || e.due < q.pending[0].due then Some(e.due) else q.armed)
  }

  function Cancelled(q: Queue, t: SoftTimer): Queue { q.(pending := Remove(q.pending, t)) }

  /** What the clock and a callback say in one round of the interrupt routine. */
  datatype Reply = Reply(time: int, again: bool, newDue: int)

  /** A callback: to which timer, when it was made, and what else was on the list then. */
  datatype Call = Call(entry: Entry, time: int, others: seq<Entry>)

  /** The outcome of an interrupt. It is complete if there is nothing left to be called back now. */
  datatype Service = Service(queue: Queue, calls: seq<Call>, complete: bool)

  /** The list after a callback to the first timer. */
  function CalledBack(q: seq<Entry>, reply: Reply): seq<Entry>
    requires q != []
  {
    if reply.again then Place(q[1..], Entry(q[0].timer, reply.newDue)) else q[1..]
  }

  function Serve(interval: nat, q: Queue, rounds: seq<Reply>): Service
    decreases |rounds|
  {
    if q.pending == [] then Service(q, [], true)
    else if rounds == [] then Service(q, [], false)
    else if q.pending[0].due - rounds[0].time >= interval then
      Service(q.(armed := Some(q.pending[0].due)), [], true)
    else
      var rest := Serve(interval, q.(pending := CalledBack(q.pending, rounds[0])), rounds[1..]);
      rest.(calls := [Call(q.pending[0], rounds[0].time, q.pending[1..])] + rest.calls)
  }

  /** In every round the times that are compared share a window. */
  ghost predicate Servable(interval: nat, q: seq<Entry>, rounds: seq<Reply>)
    decreases |rounds|
  {
    q != [] && rounds != [] ==>
      && (exists lo :: RoundWithin(q, rounds[0], lo))
      && (q[0].due - rounds[0].time < interval ==> Servable(interval, CalledBack(q, rounds[0]), rounds[1..]))
  }

  predicate RoundWithin(q: seq<Entry>, reply: Reply, lo: int) {
    Within(q, lo) && At(reply.time, lo) && (reply.again ==> At(reply.newDue, lo))
  }

  /** Sorted, no timer twice, and an interrupt will come no later than the first callback is due. */
  predicate InTime(q: Queue) {
    && Sorted(q.pending) && NoDup(Timers(q.pending))
    && (q.pending != [] ==> q.armed.Some? && q.armed.value <= q.pending[0].due)
  }

  // ---------------------------------------------------------------- what the operations keep

  /** Where a timer belongs: in front of the first that is not due earlier. */
  predicate Position(q: seq<Entry>, due: int, k: nat) {
    k <= |q| && (forall i | 0 <= i < k :: q[i].due < due) && (k < |q| ==> due <= q[k].due)
  }

  lemma {:induction false} PlaceIs(q: seq<Entry>, e: Entry, k: nat)
    requires Position(q, e.due, k)
    ensures Place(q, e) == q[..k] + [e] + q[k..]
    ensures Timers(Place(q, e)) == Timers(q)[..k] + [e.timer] + Timers(q)[k..]
  {
    hide Timers;
    if k > 0 {
      PlaceIs(q[1..], e, k - 1);
      assert q[..k] == [q[0]] + q[1..][..k - 1] && q[k..] == q[1..][k - 1..];
    } else {
      assert q[..0] == [] && q[0..] == q;
    }
    InsertedAt(q, e, k);
    InsertedAt(Timers(q), e.timer, k);
  }

  function Spot(q: seq<Entry>, due: int): (k: nat)
    ensures Position(q, due, k)
  {
    if q == [] || due <= q[0].due then 0
    else
      var k := Spot(q[1..], due) + 1;
      assert forall i | 0 < i < k :: q[i] == q[1..][i - 1];
      k
  }

  /** The element at each place of a list with one more element in it. */
  lemma {:induction false} InsertedAt<T>(s: seq<T>, x: T, k: nat)
    requires k <= |s|
    ensures var all := s[..k] + [x] + s[k..];
      && |all| == |s| + 1 && all[k] == x
      && (forall i | 0 <= i < k :: all[i] == s[i]) && (forall i | k < i < |all| :: all[i] == s[i - 1])
  {
  }

  /** Adding a timer to a sorted list: the others keep their order, and the list stays sorted. */
  lemma {:induction false} PlaceKeeps(q: seq<Entry>, e: Entry)
    requires Sorted(q)
    ensures Sorted(Place(q, e))
    ensures Place(q, e) != [] && Place(q, e)[0].due == if q == [] || e.due < q[0].due then e.due else q[0].due
  {
    hide Place, Timers;
    var k := Spot(q, e.due);
    PlaceIs(q, e, k);
    InsertedAt(q, e, k);
  }

  /** Nothing is lost, and only that timer is added. */
  lemma {:induction false} PlaceTimers(q: seq<Entry>, e: Entry)
    requires NoDup(Timers(q)) && e.timer !in Timers(q)
    ensures multiset(Place(q, e)) == multiset(q) + multiset{e}
    ensures NoDup(Timers(Place(q, e))) && forall t | t in Timers(Place(q, e)) :: t == e.timer || t in Timers(q)
  {
    hide *;
    var k := Spot(q, e.due);
    InRange(q, e.due);
    PlaceIs(q, e, k);
    InsertedMultiset(q, e, k);
    InsertedNoDup(Timers(q), e.timer, k);
  }

  lemma {:induction false} InsertedMultiset(q: seq<Entry>, e: Entry, k: nat)
    requires k <= |q|
    ensures multiset(q[..k] + [e] + q[k..]) == multiset(q) + multiset{e}
  {
    assert q == q[..k] + q[k..];
  }

  lemma {:induction false} InsertedNoDup(items: seq<SoftTimer>, t: SoftTimer, k: nat)
    requires k <= |items| && NoDup(items) && t !in items
    ensures NoDup(items[..k] + [t] + items[k..])
    ensures forall x | x in items[..k] + [t] + items[k..] :: x == t || x in items
  {
    InsertedAt(items, t, k);
  }

  lemma {:induction false} InRange(q: seq<Entry>, due: int)
    ensures Spot(q, due) <= |q|
  {
  }

  lemma {:induction false} RemoveNone(q: seq<Entry>, t: SoftTimer)
    requires forall i | 0 <= i < |q| :: q[i].timer != t
    ensures Remove(q, t) == q
  {
    if q != [] {
      RemoveNone(q[1..], t);
      assert q == [q[0]] + q[1..];
    }
  }

  lemma {:induction false} RemoveOne(q: seq<Entry>, t: SoftTimer, k: nat)
    requires k < |q| && q[k].timer == t && forall i | 0 <= i < |q| && i != k :: q[i].timer != t
    ensures Remove(q, t) == q[..k] + q[k + 1..]
  {
    if k == 0 {
      RemoveNone(q[1..], t);
      assert q[..0] + q[1..] == q[1..];
    } else {
      RemoveOne(q[1..], t, k - 1);
      assert q[..k] + q[k + 1..] == [q[0]] + (q[1..][..k - 1] + q[1..][k..]);
    }
  }

  lemma {:induction false} RemoveIs(q: seq<Entry>, t: SoftTimer, k: nat)
    requires NoDup(Timers(q)) && k <= |q|
    requires (forall i | 0 <= i < k :: q[i].timer != t) && (k < |q| ==> q[k].timer == t)
    ensures Remove(q, t) == if k < |q| then q[..k] + q[k + 1..] else q
    ensures t !in Timers(Remove(q, t))
  {
    hide Remove, Timers;
    if k < |q| {
      assert forall i | k < i < |q| :: Timers(q)[i] != Timers(q)[k];
      RemoveOne(q, t, k);
      DroppedAt(q, k);
    } else {
      RemoveNone(q, t);
    }
  }

  /** The element at each place of a list with one element less. */
  lemma {:induction false} DroppedAt<T>(s: seq<T>, k: nat)
    requires k < |s|
    ensures var rest := s[..k] + s[k + 1..];
      && |rest| == |s| - 1
      && (forall i | 0 <= i < k :: rest[i] == s[i]) && (forall i | k <= i < |rest| :: rest[i] == s[i + 1])
  {
  }

  /** Where a timer is. */
  lemma {:induction false} Find(q: seq<Entry>, t: SoftTimer) returns (k: nat)
    ensures k <= |q| && (forall i | 0 <= i < k :: q[i].timer != t) && (k < |q| ==> q[k].timer == t)
  {
    k := 0;
    while k < |q| && q[k].timer != t
      invariant k <= |q| && forall i | 0 <= i < k :: q[i].timer != t
    {
      k := k + 1;
    }
  }

  /** Taking a timer out: the others keep their order. */
  lemma {:induction false} RemoveKeeps(q: seq<Entry>, t: SoftTimer)
    requires NoDup(Timers(q)) && Sorted(q)
    ensures Sorted(Remove(q, t))
    ensures Remove(q, t) != [] ==> q != [] && q[0].due <= Remove(q, t)[0].due
  {
    hide Remove, Timers, NoDup;
    var k := Find(q, t);
    RemoveIs(q, t, k);
    if k < |q| {
      DroppedAt(q, k);
    }
  }

  /** It is gone, and nothing else is. */
  lemma {:induction false} RemoveTimers(q: seq<Entry>, t: SoftTimer)
    requires NoDup(Timers(q))
    ensures t !in Timers(Remove(q, t)) && NoDup(Timers(Remove(q, t)))
    ensures forall e | e in Remove(q, t) :: e in q
    ensures forall e | e in q :: e in Remove(q, t) || e.timer == t
  {
    hide Remove, Timers;
    var k := Find(q, t);
    RemoveIs(q, t, k);
    if k < |q| {
      DroppedAt(q, k);
      DroppedAt(Timers(q), k);
      assert Timers(Remove(q, t)) == Timers(q)[..k] + Timers(q)[k + 1..];
    }
  }

  lemma {:induction false} CalledBackKeeps(q: seq<Entry>, reply: Reply)
    requires q != [] && Sorted(q) && NoDup(Timers(q))
    ensures Sorted(CalledBack(q, reply)) && NoDup(Timers(CalledBack(q, reply)))
    ensures forall t | t in Timers(CalledBack(q, reply)) :: t in Timers(q)
  {
    hide Place;
    assert Timers(q[1..]) == Timers(q)[1..];
    assert q[0].timer == Timers(q)[0];
    PlaceKeeps(q[1..], Entry(q[0].timer, reply.newDue));
    PlaceTimers(q[1..], Entry(q[0].timer, reply.newDue));
  }

  /** A callback is due less than the minimum interval ahead, and nothing else is due before it. */
  predicate Justified(interval: nat, c: Call) {
    c.entry.due - c.time < interval && forall i | 0 <= i < |c.others| :: c.entry.due <= c.others[i].due
  }

  /**
   * What an interrupt does. The callbacks are made at the first clock readings, to the timer that is due first, and
   * only if that is less than the minimum interval ahead. If the routine is complete, every timer that is left is at
   * least that far ahead of the last reading, and the hardware is armed for the first; if not, it has made a callback
   * at every reading.
   */
  lemma {:induction false} ServeKeeps(interval: nat, q: Queue, rounds: seq<Reply>)
    requires Sorted(q.pending) && NoDup(Timers(q.pending))
    ensures var s := Serve(interval, q, rounds); Sorted(s.queue.pending) && NoDup(Timers(s.queue.pending))
    ensures forall t | t in Timers(Serve(interval, q, rounds).queue.pending) :: t in Timers(q.pending)
    ensures Served(interval, q, rounds, Serve(interval, q, rounds))
    decreases |rounds|
  {
    hide Sorted, Timers, NoDup, CalledBack, Justified;
    if q.pending != [] && rounds != [] {
      if q.pending[0].due - rounds[0].time < interval {
        CalledBackKeeps(q.pending, rounds[0]);
        FirstJustified(interval, q.pending, rounds[0].time);
        ServeKeeps(interval, q.(pending := CalledBack(q.pending, rounds[0])), rounds[1..]);
      } else {
        FirstIsEarliest(q.pending);
      }
    }
  }

  ghost predicate Served(interval: nat, q: Queue, rounds: seq<Reply>, s: Service) {
    && |s.calls| <= |rounds|
    && (forall i | 0 <= i < |s.calls| :: s.calls[i].time == rounds[i].time && Justified(interval, s.calls[i]))
    && (!s.complete ==> |s.calls| == |rounds| && s.queue.pending != [] && s.queue.armed == q.armed)
    && (s.complete && s.queue.pending != [] ==>
        && |s.calls| < |rounds| && s.queue.armed == Some(s.queue.pending[0].due)
        && forall i | 0 <= i < |s.queue.pending| :: s.queue.pending[i].due - rounds[|s.calls|].time >= interval)
  }

  /** The timers called back, and what the callbacks asked for. */
  ghost function Expired(calls: seq<Call>): multiset<Entry> {
    if calls == [] then multiset{} else multiset{calls[0].entry} + Expired(calls[1..])
  }

  ghost function Renewed(calls: seq<Call>, rounds: seq<Reply>): multiset<Entry>
    requires |calls| <= |rounds|
  {
    if calls == [] then multiset{}
    else
      (if rounds[0].again then multiset{Entry(calls[0].entry.timer, rounds[0].newDue)} else multiset{})
      + Renewed(calls[1..], rounds[1..])
  }

  /** No timer is lost or invented: what was pending is still pending or has been called back, and a callback that asks
      for another is pending for that. */
  lemma {:induction false} ServeConserves(interval: nat, q: Queue, rounds: seq<Reply>)
    ensures var s := Serve(interval, q, rounds);
      && |s.calls| <= |rounds|
      && multiset(s.queue.pending) + Expired(s.calls) == multiset(q.pending) + Renewed(s.calls, rounds)
    decreases |rounds|
  {
    hide CalledBack;
    if q.pending != [] && rounds != [] && q.pending[0].due - rounds[0].time < interval {
      var m := q.(pending := CalledBack(q.pending, rounds[0]));
      ServeConserves(interval, m, rounds[1..]);
      CalledBackConserves(q.pending, rounds[0]);
      var rest := Serve(interval, m, rounds[1..]);
      var call := Call(q.pending[0], rounds[0].time, q.pending[1..]);
      var s := Serve(interval, q, rounds);
      assert s.queue == rest.queue && s.calls == [call] + rest.calls && s.calls[1..] == rest.calls;
      var more := if rounds[0].again then multiset{Entry(call.entry.timer, rounds[0].newDue)} else multiset{};
      assert Expired(s.calls) == multiset{call.entry} + Expired(rest.calls);
      assert Renewed(s.calls, rounds) == more + Renewed(rest.calls, rounds[1..]);
      MovesOver(multiset(s.queue.pending), Expired(rest.calls), multiset(m.pending), Renewed(rest.calls, rounds[1..]),
                call.entry, multiset(q.pending), more);
    }
  }

  lemma {:induction false} MovesOver(left: multiset<Entry>, expired: multiset<Entry>, now: multiset<Entry>,
                                     renewed: multiset<Entry>, e: Entry, before: multiset<Entry>,
                                     more: multiset<Entry>)
    requires left + expired == now + renewed && now + multiset{e} == before + more
    ensures left + (multiset{e} + expired) == before + (more + renewed)
  {
    assert left + (multiset{e} + expired) == left + expired + multiset{e};
    assert now + renewed + multiset{e} == now + multiset{e} + renewed;
  }

  lemma {:induction false} CalledBackConserves(q: seq<Entry>, reply: Reply)
    requires q != []
    ensures multiset(CalledBack(q, reply)) + multiset{q[0]}
         == multiset(q) + if reply.again then multiset{Entry(q[0].timer, reply.newDue)} else multiset{}
  {
    hide Place;
    assert q == [q[0]] + q[1..];
    PlaceConserves(q[1..], Entry(q[0].timer, reply.newDue));
  }

  lemma {:induction false} PlaceConserves(q: seq<Entry>, e: Entry)
    ensures multiset(Place(q, e)) == multiset(q) + multiset{e}
  {
    if q != [] && e.due > q[0].due {
      PlaceConserves(q[1..], e);
      assert q == [q[0]] + q[1..];
    }
  }

  lemma {:induction false} FirstIsEarliest(q: seq<Entry>)
    requires q != [] && Sorted(q)
    ensures forall i | 0 <= i < |q| :: q[0].due <= q[i].due
  {
  }

  lemma {:induction false} FirstJustified(interval: nat, q: seq<Entry>, time: int)
    requires q != [] && Sorted(q) && q[0].due - time < interval
    ensures Justified(interval, Call(q[0], time, q[1..]))
  {
  }

  // ---------------------------------------------------------------- the list in memory

  function Nth(items: seq<SoftTimer>, i: nat): SoftTimer? { if i < |items| then items[i] else null }

  ghost predicate Linked(items: seq<SoftTimer>)
    reads items`next
  {
    forall i {:trigger items[i].next} | 0 <= i < |items| :: items[i].next == Nth(items, i + 1)
  }

  ghost predicate List(head: SoftTimer?, items: seq<SoftTimer>)
    reads items`next
  {
    NoDup(items) && Linked(items) && head == Nth(items, 0)
  }

  ghost predicate Ticking(q: seq<Entry>)
    reads Timers(q)`whenDue
  {
    forall i | 0 <= i < |q| :: q[i].timer.whenDue == Ticks(q[i].due)
  }

  lemma {:induction false} EmptyList(head: SoftTimer?, items: seq<SoftTimer>)
    requires List(head, items)
    ensures (head == null <==> items == []) && NoDup(items)
  {
  }

  lemma {:induction false} InsertedTicking(q: seq<Entry>, e: Entry, k: nat)
    requires Ticking(q) && e.timer.whenDue == Ticks(e.due) && Position(q, e.due, k)
    ensures Ticking(Place(q, e))
  {
    hide Place, Ticks;
    PlaceIs(q, e, k);
    InsertedAt(q, e, k);
  }

  lemma {:induction false} FirstOf(head: SoftTimer?, q: seq<Entry>)
    requires q != [] && List(head, Timers(q))
    ensures head == q[0].timer && q[0].timer == Timers(q)[0]
  {
  }

  /** Links a timer in between two others. */
  method Link(head: SoftTimer?, previous: SoftTimer?, item: SoftTimer?, t: SoftTimer, ghost items: seq<SoftTimer>,
              ghost k: nat)
    returns (head': SoftTimer)
    requires List(head, items) && t !in items && k <= |items| && item == Nth(items, k)
    requires previous == (if k == 0 then null else items[k - 1])
    modifies t`next, items`next
    ensures List(head', items[..k] + [t] + items[k..])
  {
    ghost var all := items[..k] + [t] + items[k..];
    t.next := item;
    if previous == null {
      head' := t;
    } else {
      head' := head;
      previous.next := t;
    }
    InsertedAt(items, t, k);
    assert forall i | 0 <= i < |all| :: all[i].next == Nth(all, i + 1);
  }

  method Unlink(head: SoftTimer?, t: SoftTimer, ghost q: seq<Entry>) returns (head': SoftTimer?)
    requires List(head, Timers(q))
    modifies Timers(q)`next
    ensures List(head', Timers(Remove(q, t)))
  {
    hide Remove, Timers;
    ghost var items := Timers(q);
    head' := head;
    var previous: SoftTimer?, item: SoftTimer? := null, head;
    ghost var k := 0;
    while item != null && item != t
      invariant k <= |items| && item == Nth(items, k) && previous == (if k == 0 then null else items[k - 1])
      invariant forall i | 0 <= i < k :: items[i] != t
      decreases |items| - k
    {
      previous := item;
      item := item.next;
      k := k + 1;
    }
    RemoveIs(q, t, k);
    if item == t {
      RemovedItems(q, k);
      head' := Bridge(head, previous, t, items, k);
    }
  }

  lemma {:induction false} RemovedItems(q: seq<Entry>, k: nat)
    requires k < |q|
    ensures Timers(q[..k] + q[k + 1..]) == Timers(q)[..k] + Timers(q)[k + 1..]
  {
    hide Timers;
    DroppedAt(q, k);
    DroppedAt(Timers(q), k);
  }

  /** Links the neighbours of a timer to each other. */
  method Bridge(head: SoftTimer?, previous: SoftTimer?, t: SoftTimer, ghost items: seq<SoftTimer>, ghost k: nat)
    returns (head': SoftTimer?)
    requires List(head, items) && k < |items| && items[k] == t
    requires previous == (if k == 0 then null else items[k - 1])
    modifies items`next
    ensures List(head', items[..k] + items[k + 1..])
  {
    if previous == null {
      head' := t.next;
    } else {
      head' := head;
      previous.next := t.next;
    }
    DroppedAt(items, k);
    ghost var rest := items[..k] + items[k + 1..];
    assert forall i | 0 <= i < |rest| :: rest[i].next == Nth(rest, i + 1);
  }

  /** The pending callbacks, and the compare register of the hardware timer. */
  class TimerQueue {
    const interval: nat      // the shortest time ahead for which the hardware can be armed
    var pendingList: SoftTimer?
    var compare: int
    var enabled: bool
    ghost var queue: Queue

    ghost predicate Valid()
      reads this, Timers(queue.pending)
    {
      && List(pendingList, Timers(queue.pending)) && Ticking(queue.pending) && Sorted(queue.pending) && Register()
    }

    /** The hardware is armed for the time it should be. */
    ghost predicate Register()
      reads this`enabled, this`compare, this`queue
    {
      && (enabled <==> queue.armed.Some?)
      && (enabled ==> compare == Ticks(queue.armed.value))
    }

    constructor (interval: nat)
      ensures Valid() && queue == Queue([], None) && this.interval == interval
    {
      this.interval := interval;
      pendingList, compare, enabled, queue := null, 0, false, Queue([], None);
    }

    /** Arms the compare register for a tick count, unless that is imminent or has passed. */
    method ScheduleSoftTimerInterrupt(tim: int, now: int, ghost due: int, ghost time: int) returns (imminent: bool)
      requires tim == Ticks(due) && now == Ticks(time) && -HALF <= due - time < HALF && Register()
      modifies this`compare, this`enabled, this`queue
      ensures imminent <==> due - time < interval
      ensures Register() && queue == if imminent then old(queue) else old(queue).(armed := Some(due))
    {
      hide Signed, Ticks;
      SignedIs(due, time);
      var diff := Signed(tim, now);
      if diff < interval {
        return true;
      }
      compare, enabled, queue := tim, true, queue.(armed := Some(due));
      imminent := false;
    }

    /** Schedules a callback, unless it is due first and imminent. The clock is read once to place the callback, and
        again, later, to arm the hardware. */
    method ScheduleCallback(t: SoftTimer, due: int, time: int, later: int, ghost lo: int) returns (imminent: bool)
      requires Valid() && t !in Timers(queue.pending) && ScheduleWithin(queue.pending, due, time, later, lo)
      modifies this, t, Timers(queue.pending)`next
      ensures Valid() && imminent == Imminent(interval, old(queue), due, later)
      ensures queue == Scheduled(interval, old(queue), Entry(t, due), later)
    {
      hide Signed, Ticks, Place;
      t.whenDue := Ticks(due);
      var now := Ticks(time);
      var howSoon := Signed(t.whenDue, now);
      SignedIs(due, time);
      EmptyList(pendingList, Timers(queue.pending));
      if pendingList != null {
        SignedIs(queue.pending[0].due, time);
      }
      if pendingList == null || howSoon < Signed(pendingList.whenDue, now) {
        imminent := ScheduleSoftTimerInterrupt(t.whenDue, Ticks(later), due, later);
        if imminent {
          return;
        }
        PlaceAt(t, due, null, pendingList, 0);
      } else {
        imminent := false;
        PlaceInside(t, now, howSoon, due, time, lo);
      }
    }

    /** Links a timer in front of the given one, where it belongs. */
    method PlaceAt(t: SoftTimer, ghost due: int, previous: SoftTimer?, item: SoftTimer?, ghost k: nat)
      requires Valid() && t !in Timers(queue.pending) && t.whenDue == Ticks(due)
      requires Position(queue.pending, due, k) && item == Nth(Timers(queue.pending), k)
      requires previous == (if k == 0 then null else Timers(queue.pending)[k - 1])
      modifies this`pendingList, this`queue, t`next, Timers(queue.pending)`next
      ensures Valid() && queue == old(queue).(pending := Place(old(queue).pending, Entry(t, due)))
    {
      hide Ticks, Sorted, Ticking, List, Timers, Place;
      ghost var q, e := queue.pending, Entry(t, due);
      PlaceIs(q, e, k);
      PlaceKeeps(q, e);
      InsertedTicking(q, e, k);
      pendingList := Link(pendingList, previous, item, t, Timers(q), k);
      queue := queue.(pending := Place(q, e));
    }

    /** Finds the place of a callback that is not due before all others, by how soon after now it is due. */
    method PlaceInside(t: SoftTimer, now: int, howSoon: int, ghost due: int, ghost time: int, ghost lo: int)
      requires Valid() && t !in Timers(queue.pending) && Within(queue.pending, lo) && At(due, lo) && At(time, lo)
      requires t.whenDue == Ticks(due) && now == Ticks(time) && howSoon == due - time
      modifies this`pendingList, this`queue, t`next, Timers(queue.pending)`next
      ensures Valid() && queue == old(queue).(pending := Place(old(queue).pending, Entry(t, due)))
    {
      hide Signed, Ticks, Place;
      var previous: SoftTimer?, item: SoftTimer? := null, pendingList;
      ghost var q, k := queue.pending, 0;
      ghost var items := Timers(q);
      while item != null && Signed(item.whenDue, now) < howSoon
        invariant k <= |items| && item == Nth(items, k) && previous == (if k == 0 then null else items[k - 1])
        invariant forall i | 0 <= i < k :: q[i].due < due
        invariant unchanged(this) && Valid()
        decreases |items| - k
      {
        SignedIs(q[k].due, time);
        previous := item;
        item := item.next;
        k := k + 1;
      }
      if item != null {
        SignedIs(q[k].due, time);
      }
      PlaceAt(t, due, previous, item, k);
    }

    /** Takes a timer off the list, if it is there. An interrupt that was meant for it may still come. */
    method CancelCallback(t: SoftTimer)
      requires Valid()
      modifies this`pendingList, this`queue, Timers(queue.pending)`next
      ensures Valid() && queue == Cancelled(old(queue), t) && t !in Timers(queue.pending)
    {
      hide Ticks, List, Sorted, Timers, Remove;
      ghost var q := queue.pending;
      EmptyList(pendingList, Timers(q));
      pendingList := Unlink(pendingList, t, q);
      queue := queue.(pending := Remove(q, t));
      RemoveKeeps(q, t);
      RemoveTimers(q, t);
      RemovedTicking(q, t);
    }

    /** One round of the interrupt routine: the first timer either has an interrupt scheduled for it, or is taken off
        the list and called back. The callback says whether it wants to be called again, and when. */
    method Round(reply: Reply, ghost lo: int) returns (more: bool)
      requires Valid() && queue.pending != [] && RoundWithin(queue.pending, reply, lo)
      modifies this, Timers(queue.pending)
      ensures Valid()
      ensures more <==> old(queue).pending[0].due - reply.time < interval
      ensures queue == if more then old(queue).(pending := CalledBack(old(queue).pending, reply))
                       else old(queue).(armed := Some(old(queue).pending[0].due))
    {
      hide Ticks, Place, List, Sorted, Ticking;
      var tmr := pendingList;
      ghost var q := queue.pending;
      FirstOf(pendingList, q);
      more := Take(reply.time);
      if more && reply.again {
        CallAgain(tmr, Ticks(reply.newDue), reply.newDue, lo);
      }
    }

    /** Takes the first timer off the list, if it is to be called back now. */
    method Take(time: int) returns (more: bool)
      requires Valid() && queue.pending != [] && -HALF <= queue.pending[0].due - time < HALF
      modifies this
      ensures Valid() && (more <==> old(queue).pending[0].due - time < interval)
      ensures more ==> old(queue).pending[0].timer !in Timers(queue.pending)
      ensures queue == if more then old(queue).(pending := old(queue).pending[1..])
                       else old(queue).(armed := Some(old(queue).pending[0].due))
    {
      hide Ticks;
      ghost var q := queue.pending;
      more := ScheduleSoftTimerInterrupt(pendingList.whenDue, Ticks(time), q[0].due, time);
      if more {
        assert Timers(q[1..]) == Timers(q)[1..];
        pendingList := pendingList.next;
        queue := queue.(pending := q[1..]);
      }
    }

    /** Puts a timer back on the list, for the tick count that its callback asks for. */
    method CallAgain(tmr: SoftTimer, when: int, ghost due: int, ghost lo: int)
      requires Valid() && tmr !in Timers(queue.pending) && Within(queue.pending, lo) && At(due, lo)
      requires when == Ticks(due)
      modifies this`pendingList, this`queue, tmr, Timers(queue.pending)`next
      ensures Valid() && queue == old(queue).(pending := Place(old(queue).pending, Entry(tmr, due)))
    {
      hide Signed, Ticks, Place;
      tmr.whenDue := when;
      var previous: SoftTimer?, item: SoftTimer? := null, pendingList;
      ghost var q, k := queue.pending, 0;
      ghost var items := Timers(q);
      while item != null && Signed(tmr.whenDue, item.whenDue) > 0
        invariant k <= |items| && item == Nth(items, k) && previous == (if k == 0 then null else items[k - 1])
        invariant forall i | 0 <= i < k :: q[i].due < due
        invariant unchanged(this) && Valid() && tmr.whenDue == Ticks(due)
        decreases |items| - k
      {
        SignedIs(due, q[k].due);
        previous := item;
        item := item.next;
        k := k + 1;
      }
      if item != null {
        SignedIs(due, q[k].due);
      }
      PlaceAt(tmr, due, previous, item, k);
    }

    /** The timer interrupt, which the hardware makes only once. Each round of the routine reads the clock and, if it
        makes a callback, gets its reply. */
    method Interrupt(rounds: seq<Reply>) returns (complete: bool, ghost calls: seq<Call>)
      requires Valid() && Servable(interval, queue.pending, rounds)
      modifies this, Timers(queue.pending)
      ensures Valid() && Service(queue, calls, complete) == Serve(interval, old(queue).(armed := None), rounds)
      ensures Served(interval, old(queue).(armed := None), rounds, Service(queue, calls, complete))
      ensures forall t | t in Timers(queue.pending) :: t in old(Timers(queue.pending))
    {
      hide List, Sorted, Ticking, Timers, Served, CalledBack, RoundWithin, Serve, Servable, Serving;
      ghost var start, all := queue.(armed := None), Timers(queue.pending);
      enabled, queue := false, start;
      complete, calls := pendingList == null, [];
      EmptyList(pendingList, Timers(queue.pending));
      ServingStarts(interval, start, rounds);
      ServeKeeps(interval, start, rounds);
      var i := 0;
      while i < |rounds| && !complete
        invariant i <= |rounds| && Valid() && (forall t | t in Timers(queue.pending) :: t in all)
        invariant Serving(interval, start, rounds, i, queue, calls, complete)
      {
        ghost var q := queue;
        ghost var lo := ServingRound(interval, start, rounds, i, q, calls);
        TimersIn(q.pending, all);
        EmptyList(pendingList, Timers(q.pending));
        CalledBackKeeps(q.pending, rounds[i]);
        var more := Round(rounds[i], lo);
        if more {
          calls := calls + [Call(q.pending[0], rounds[i].time, q.pending[1..])];
        }
        complete := !more || pendingList == null;
        EmptyList(pendingList, Timers(queue.pending));
        i := i + 1;
      }
      ServingEnds(interval, start, rounds, i, queue, calls, complete);
    }
  }

  /** Calls that were made before the rest of an interrupt. */
  function Then(calls: seq<Call>, s: Service): Service { s.(calls := calls + s.calls) }

  /** An interrupt at work: what has been done, and what is still to do. */
  ghost predicate Serving(interval: nat, start: Queue, rounds: seq<Reply>, i: nat, q: Queue, calls: seq<Call>,
                          complete: bool)
  {
    && i <= |rounds|
    && if complete then Serve(interval, start, rounds) == Service(q, calls, true)
       else q.pending != [] && Servable(interval, q.pending, rounds[i..])
            && Serve(interval, start, rounds) == Then(calls, Serve(interval, q, rounds[i..]))
  }

  lemma {:induction false} ServingStarts(interval: nat, start: Queue, rounds: seq<Reply>)
    requires Servable(interval, start.pending, rounds)
    ensures Serving(interval, start, rounds, 0, start, [], start.pending == [])
  {
    assert rounds[0..] == rounds;
  }

  lemma {:induction false} ServingRound(interval: nat, start: Queue, rounds: seq<Reply>, i: nat, q: Queue,
                                        calls: seq<Call>) returns (lo: int)
    requires i < |rounds| && Serving(interval, start, rounds, i, q, calls, false)
    ensures q.pending != [] && RoundWithin(q.pending, rounds[i], lo)
    ensures var q' := q.(pending := CalledBack(q.pending, rounds[i]));
      var calls' := calls + [Call(q.pending[0], rounds[i].time, q.pending[1..])];
      if q.pending[0].due - rounds[i].time < interval
      then Serving(interval, start, rounds, i + 1, q', calls', q'.pending == [])
      else Serving(interval, start, rounds, i + 1, q.(armed := Some(q.pending[0].due)), calls, true)
  {
    hide CalledBack, RoundWithin;
    var rest := rounds[i..];
    assert rest[0] == rounds[i] && rest[1..] == rounds[i + 1..];
    lo :| RoundWithin(q.pending, rest[0], lo);
    var s := Serve(interval, q.(pending := CalledBack(q.pending, rounds[i])), rest[1..]);
    var c := Call(q.pending[0], rounds[i].time, q.pending[1..]);
    assert calls + ([c] + s.calls) == (calls + [c]) + s.calls;
    assert calls + [] == calls;
    assert s.calls == [] ==> (calls + [c]) + s.calls == calls + [c];
  }

  lemma {:induction false} ServingEnds(interval: nat, start: Queue, rounds: seq<Reply>, i: nat, q: Queue,
                                       calls: seq<Call>, complete: bool)
    requires Serving(interval, start, rounds, i, q, calls, complete) && (complete || i == |rounds|)
    ensures Serve(interval, start, rounds) == Service(q, calls, complete)
  {
    assert calls + [] == calls;
  }

  lemma {:induction false} TimersIn(q: seq<Entry>, all: seq<SoftTimer>)
    requires forall t | t in Timers(q) :: t in all
    ensures forall i | 0 <= i < |q| :: Timers(q)[i] in all
  {
    assert forall i | 0 <= i < |q| :: Timers(q)[i] in Timers(q);
  }

  predicate ScheduleWithin(q: seq<Entry>, due: int, time: int, later: int, lo: int) {
    Within(q, lo) && At(due, lo) && At(time, lo) && At(later, lo) && time <= later
  }

  lemma {:induction false} RemovedTicking(q: seq<Entry>, t: SoftTimer)
    requires Ticking(q) && NoDup(Timers(q))
    ensures Ticking(Remove(q, t))
  {
    hide Remove, Ticks;
    RemoveTimers(q, t);
    forall i | 0 <= i < |Remove(q, t)| ensures Remove(q, t)[i].timer.whenDue == Ticks(Remove(q, t)[i].due) {
      assert Remove(q, t)[i] in Remove(q, t);
    }
  }

  // ---------------------------------------------------------------- runs

  datatype Op =
    | Schedule(t: SoftTimer, due: int, time: int, later: int)
    | Cancel(t: SoftTimer)
    | Fire(rounds: seq<Reply>)

  /**
   * A timer that is scheduled is not pending; the times that an operation compares share a window, which is its own;
   * and an interrupt goes on until it is complete.
   */
  ghost predicate Enabled(interval: nat, q: Queue, op: Op) {
    match op
    case Schedule(t, due, time, later) =>
      t !in Timers(q.pending) && exists lo :: ScheduleWithin(q.pending, due, time, later, lo)
    case Cancel(t) => true
    case Fire(rounds) => Servable(interval, q.pending, rounds) && Serve(interval, q.(armed := None), rounds).complete
  }

  ghost function Next(interval: nat, q: Queue, op: Op): Queue {
    match op
    case Schedule(t, due, time, later) => Scheduled(interval, q, Entry(t, due), later)
    case Cancel(t) => Cancelled(q, t)
    case Fire(rounds) => Serve(interval, q.(armed := None), rounds).queue
  }

  /** Whether the caller is told that a callback is imminent. */
  predicate Refused(interval: nat, q: Queue, op: Op) { op.Schedule? && Imminent(interval, q, op.due, op.later) }

  /** The timers after a run. */
  ghost function After(interval: nat, q: Queue, ops: seq<Op>): Queue {
    if ops == [] then q else Next(interval, After(interval, q, ops[..|ops| - 1]), ops[|ops| - 1])
  }

  ghost predicate Runs(interval: nat, q: Queue, ops: seq<Op>) {
    forall i | 0 <= i < |ops| :: Enabled(interval, After(interval, q, ops[..i]), ops[i])
  }

  /** Every operation keeps the list sorted and free of repetitions, and the hardware armed in time. */
  lemma {:induction false} StepInTime(interval: nat, q: Queue, op: Op)
    requires InTime(q) && Enabled(interval, q, op)
    ensures InTime(Next(interval, q, op))
  {
    hide Place, Remove, Timers, Sorted, NoDup, Serve;
    match op {
      case Schedule(t, due, time, later) =>
        PlaceKeeps(q.pending, Entry(t, due));
        PlaceTimers(q.pending, Entry(t, due));
      case Cancel(t) =>
        RemoveKeeps(q.pending, t);
        RemoveTimers(q.pending, t);
      case Fire(rounds) =>
        ServeKeeps(interval, q.(armed := None), rounds);
    }
  }

  /** So does every run, however long, and however often the clock wraps around in it. */
  lemma {:induction false} InTimeOverRuns(interval: nat, q: Queue, ops: seq<Op>)
    requires InTime(q) && Runs(interval, q, ops)
    ensures InTime(After(interval, q, ops))
  {
    hide Enabled, Next, InTime;
    if ops != [] {
      var most := ops[..|ops| - 1];
      assert forall i | 0 <= i < |most| :: most[..i] == ops[..i] && most[i] == ops[i];
      InTimeOverRuns(interval, q, most);
      StepInTime(interval, After(interval, q, most), ops[|ops| - 1]);
    }
  }

  lemma {:induction false} RunGrows(interval: nat, q: Queue, ops: seq<Op>, i: nat)
    requires i < |ops|
    ensures After(interval, q, ops[..i + 1]) == Next(interval, After(interval, q, ops[..i]), ops[i])
  {
    assert ops[..i + 1][..i] == ops[..i];
  }

  ghost function TimersOf(ops: seq<Op>): set<SoftTimer> {
    (set i | 0 <= i < |ops| && ops[i].Schedule? :: ops[i].t)
  }

  /** The timers of an operation's outcome are those that were pending, or the one that is scheduled. */
  lemma {:induction false} TimersAfter(interval: nat, q: Queue, op: Op)
    requires InTime(q) && Enabled(interval, q, op)
    ensures forall t | t in Timers(Next(interval, q, op).pending) ::
      t in Timers(q.pending) || (op.Schedule? && t == op.t)
  {
    hide Place, Remove, Timers, Sorted, NoDup, Serve;
    match op {
      case Schedule(t, due, time, later) =>
        PlaceTimers(q.pending, Entry(t, due));
      case Cancel(t) =>
        RemoveTimers(q.pending, t);
        RemovedIn(q.pending, t);
      case Fire(rounds) =>
        ServeKeeps(interval, q.(armed := None), rounds);
    }
  }

  lemma {:induction false} RemovedIn(q: seq<Entry>, t: SoftTimer)
    requires forall e | e in Remove(q, t) :: e in q
    ensures forall x | x in Timers(Remove(q, t)) :: x in Timers(q)
  {
    hide Remove;
    var rest := Remove(q, t);
    forall i | 0 <= i < |rest| ensures Timers(rest)[i] in Timers(q) {
      assert rest[i] in rest;
      var k :| 0 <= k < |q| && q[k] == rest[i];
      assert Timers(q)[k] == Timers(rest)[i];
    }
  }

  /** Makes one operation on the list in memory. */
  method Step(q: TimerQueue, op: Op) returns (refused: bool)
    requires q.Valid() && Enabled(q.interval, q.queue, op)
    modifies q, Timers(q.queue.pending), if op.Schedule? then {op.t} else {}
    ensures q.Valid() && q.queue == Next(q.interval, old(q.queue), op)
    ensures refused == Refused(q.interval, old(q.queue), op)
  {
    hide List, Sorted, Ticking, Timers, Place, Remove, Serve, Servable, ScheduleWithin;
    refused := false;
    match op {
      case Schedule(t, due, time, later) =>
        ghost var lo :| ScheduleWithin(q.queue.pending, due, time, later, lo);
        refused := q.ScheduleCallback(t, due, time, later, lo);
      case Cancel(t) =>
        q.CancelCallback(t);
      case Fire(rounds) =>
        var complete, calls := q.Interrupt(rounds);
    }
  }

  /** Makes a whole run: the list in memory is that of the run, in time, and every caller is told the right thing. */
  method Run(q: TimerQueue, ops: seq<Op>, ghost all: set<SoftTimer>) returns (refused: seq<bool>)
    requires q.Valid() && InTime(q.queue) && Runs(q.interval, q.queue, ops)
    requires (forall t | t in Timers(q.queue.pending) :: t in all) && TimersOf(ops) <= all
    modifies q, all
    ensures q.Valid() && InTime(q.queue) && q.queue == After(q.interval, old(q.queue), ops)
    ensures |refused| == |ops|
    ensures forall i | 0 <= i < |ops| ::
      refused[i] == Refused(q.interval, After(q.interval, old(q.queue), ops[..i]), ops[i])
  {
    hide List, Sorted, Ticking, Timers, InTime, Next, After, Enabled, Refused;
    ghost var start := q.queue;
    refused := [];
    assert ops[..0] == [];
    NoneAfter(q.interval, start);
    for i := 0 to |ops|
      invariant q.Valid() && InTime(q.queue) && q.queue == After(q.interval, start, ops[..i])
      invariant forall t | t in Timers(q.queue.pending) :: t in all
      invariant |refused| == i
      invariant forall k | 0 <= k < i :: refused[k] == Refused(q.interval, After(q.interval, start, ops[..k]), ops[k])
    {
      assert ops[i].Schedule? ==> ops[i].t in TimersOf(ops);
      ghost var before := q.queue;
      StepInTime(q.interval, before, ops[i]);
      TimersAfter(q.interval, before, ops[i]);
      RunGrows(q.interval, start, ops, i);
      var r := Step(q, ops[i]);
      refused := refused + [r];
    }
    assert ops[..|ops|] == ops;
  }

  lemma {:induction false} NoneAfter(interval: nat, q: Queue)
    ensures After(interval, q, []) == q
  {
  }
}
