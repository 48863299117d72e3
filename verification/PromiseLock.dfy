/**
 Promise-chain mutexes.

 A lock is the tail of a chain of promises.  Acquiring it reads the current tail (`prev`), makes a
 deferred promise (`next`) that only the holder can resolve, and installs a new tail.  Two tails occur:
   - `TailJoins`:  the tail is `prev.then(() => next)`   (one chain per spending policy);
   - `TailIsNext`: the tail is `next` itself             (the single registry chain).
 The holder runs once `prev` is resolved.  Nothing below assumes that one holder waits for another:
 that is what is proved, from the shape of the chain alone.
 */
module PromiseLock {

  datatype Shape = TailJoins | TailIsNext

  /** A promise, identified by its index on the heap. */
  datatype Promise =
    | Settled                              // Promise.resolve()
    | Deferred(released: bool)             // new Promise(...), resolved by calling `release`
    | Joined(first: nat, second: nat)      // first.then(() => second)

  datatype Ticket = Ticket(prev: nat, next: nat, granted: bool)

  /** One lock: its promises, its tail, and a ticket for every caller so far, in arrival order. */
  datatype Queue = Queue(shape: Shape, heap: seq<Promise>, tail: nat, tickets: seq<Ticket>)

  function Empty(shape: Shape): Queue {
    Queue(shape, [Settled], 0, [])
  }

  predicate Resolved(heap: seq<Promise>, p: nat)
    decreases p
  {
    p < |heap| &&
    match heap[p]
    case Settled => true
    case Deferred(released) => released
    case Joined(a, b) => a < p && b < p && Resolved(heap, a) && Resolved(heap, b)
  }

  // ----- The three steps -----

  function Acquire(q: Queue): Queue {
    var n := |q.heap|;
    var tickets := q.tickets + [Ticket(q.tail, n, false)];
    match q.shape
    case TailJoins => q.(heap := q.heap + [Deferred(false), Joined(q.tail, n)], tail := n + 1, tickets := tickets)
    case TailIsNext => q.(heap := q.heap + [Deferred(false)], tail := n, tickets := tickets)
  }

  predicate CanGrant(q: Queue, k: nat) {
    k < |q.tickets| && !q.tickets[k].granted && Resolved(q.heap, q.tickets[k].prev)
  }

  /** The continuation of `prev.then(...)` runs: caller `k` enters its critical section. */
  function Grant(q: Queue, k: nat): Queue {
    if CanGrant(q, k) then q.(tickets := q.tickets[k := q.tickets[k].(granted := true)]) else q
  }

  predicate Released(q: Queue, k: nat) {
    k < |q.tickets| && q.tickets[k].next < |q.heap| && q.heap[q.tickets[k].next] == Deferred(true)
  }

  predicate Holding(q: Queue, k: nat) {
    k < |q.tickets| && q.tickets[k].granted && !Released(q, k)
  }

  /** The holder's `finally` block runs. */
  function Release(q: Queue, k: nat): Queue {
    if Holding(q, k) && q.tickets[k].next < |q.heap|
    then q.(heap := q.heap[q.tickets[k].next := Deferred(true)])
    else q
  }

  datatype Event = EvAcquire | EvGrant(k: nat) | EvRelease(k: nat)

  function Step(q: Queue, e: Event): Queue {
    match e
    case EvAcquire => Acquire(q)
    case EvGrant(k) => Grant(q, k)
    case EvRelease(k) => Release(q, k)
  }

  function Run(q: Queue, es: seq<Event>): Queue {
    if es == [] then q else Step(Run(q, es[..|es| - 1]), es[|es| - 1])
  }

  // ----- What every step keeps -----

  /** `p` is the promise the first `k` callers left as tail. */
  ghost predicate TailAfter(q: Queue, k: nat, p: nat)
    requires k <= |q.tickets|
  {
    if k == 0 then p == 0
    else
      var t := q.tickets[k - 1];
      match q.shape
      case TailJoins => p < |q.heap| && p == t.next + 1 && q.heap[p] == Joined(t.prev, t.next)
      case TailIsNext => p == t.next
  }

  ghost predicate TicketOk(q: Queue, k: nat)
    requires k < |q.tickets|
  {
    var t := q.tickets[k];
    t.prev < t.next < |q.heap| && q.heap[t.next].Deferred? && TailAfter(q, k, t.prev)
  }

  ghost predicate Chained(q: Queue) {
    && |q.heap| > 0 && q.heap[0] == Settled
    && (forall k {:trigger TicketOk(q, k)} :: 0 <= k < |q.tickets| ==> TicketOk(q, k))
    && (forall j, k {:trigger q.tickets[j].next, q.tickets[k].next} :: 0 <= j < k < |q.tickets| ==> q.tickets[j].next < q.tickets[k].next)
    && q.tail < |q.heap|
    && (forall k :: 0 <= k < |q.tickets| ==> q.tickets[k].next <= q.tail)
    && TailAfter(q, |q.tickets|, q.tail)
  }

  ghost predicate AllReleasedBefore(q: Queue, k: nat) {
    forall i :: 0 <= i < k ==> Released(q, i)
  }

  /** Ticket `k` is granted only after every earlier one is released, and released only if granted. */
  ghost predicate InOrder(q: Queue, k: nat)
    requires k < |q.tickets|
  {
    && (Released(q, k) ==> q.tickets[k].granted)
    && (q.tickets[k].granted ==> AllReleasedBefore(q, k))
  }

  ghost predicate Inv(q: Queue) {
    Chained(q) && forall k {:trigger InOrder(q, k)} :: 0 <= k < |q.tickets| ==> InOrder(q, k)
  }

  /** The tail left by `k` callers is resolved exactly when all of them have released. */
  lemma {:induction false} TailResolved(q: Queue, k: nat, p: nat)
    requires Inv(q) && k <= |q.tickets| && TailAfter(q, k, p)
    ensures Resolved(q.heap, p) <==> AllReleasedBefore(q, k)
    decreases k
  {
    if k > 0 {
      var t := q.tickets[k - 1];
      assert TicketOk(q, k - 1) && InOrder(q, k - 1);
      TailResolved(q, k - 1, t.prev);
      assert Resolved(q.heap, t.next) <==> Released(q, k - 1);
      assert AllReleasedBefore(q, k) <==> AllReleasedBefore(q, k - 1) && Released(q, k - 1);
      match q.shape
      case TailJoins => assert Resolved(q.heap, p) <==> Resolved(q.heap, t.prev) && Resolved(q.heap, t.next);
      case TailIsNext => assert p == t.next;
    }
  }

  /** A caller's `prev` is resolved exactly when every earlier caller has released. */
  lemma PrevResolved(q: Queue, k: nat)
    requires Inv(q) && k < |q.tickets|
    ensures Resolved(q.heap, q.tickets[k].prev) <==> AllReleasedBefore(q, k)
  {
    assert TicketOk(q, k);
    TailResolved(q, k, q.tickets[k].prev);
  }

  lemma ReleasedAfter(q: Queue, e: Event, i: nat)
    requires Inv(q) && i < |q.tickets|
    ensures |q.tickets| <= |Step(q, e).tickets|
    ensures Released(Step(q, e), i) <==> Released(q, i) || (e == EvRelease(i) && Holding(q, i))
    ensures Step(q, e).tickets[i].granted <==> q.tickets[i].granted || (e == EvGrant(i) && CanGrant(q, i))
    ensures Step(q, e).tickets[i].(granted := true) == q.tickets[i].(granted := true)
  {
    assert TicketOk(q, i);
    if e.EvRelease? && Holding(q, e.k) { assert TicketOk(q, e.k); }
  }

  lemma AcquireKeepsTicket(q: Queue, k: nat)
    requires Inv(q) && k < |q.tickets|
    ensures TicketOk(Acquire(q), k)
  {
    hide Resolved;
    assert TicketOk(q, k);
    if k > 0 { assert TicketOk(q, k - 1); }
  }

  lemma AcquireKeepsChained(q: Queue)
    requires Inv(q)
    ensures Chained(Acquire(q))
  {
    hide Resolved;
    var q' := Acquire(q);
    if |q.tickets| > 0 { assert TicketOk(q, |q.tickets| - 1); }
    assert TicketOk(q', |q.tickets|);
    forall k | 0 <= k < |q.tickets| ensures TicketOk(q', k) {
      AcquireKeepsTicket(q, k);
    }
  }

  lemma ReleaseKeepsChained(q: Queue, r: nat)
    requires Inv(q) && Holding(q, r)
    ensures Chained(Release(q, r))
  {
    var q' := Release(q, r);
    assert TicketOk(q, r);
    forall k | 0 <= k < |q.tickets| ensures TicketOk(q', k) {
      assert TicketOk(q, k);
      if k > 0 { assert TicketOk(q, k - 1); }
    }
    if |q.tickets| > 0 { assert TicketOk(q, |q.tickets| - 1); }
  }

  lemma GrantKeepsChained(q: Queue, g: nat)
    requires Inv(q) && CanGrant(q, g)
    ensures Chained(Grant(q, g))
  {
    var q' := Grant(q, g);
    forall k | 0 <= k < |q.tickets| ensures TicketOk(q', k) {
      assert TicketOk(q, k);
    }
  }

  lemma StepKeepsInv(q: Queue, e: Event)
    requires Inv(q)
    ensures Inv(Step(q, e))
  {
    var q' := Step(q, e);
    match e {
      case EvAcquire => AcquireKeepsChained(q);
      case EvGrant(k) => if CanGrant(q, k) { GrantKeepsChained(q, k); }
      case EvRelease(k) => if Holding(q, k) { ReleaseKeepsChained(q, k); }
    }
    forall i | 0 <= i < |q.tickets|
      ensures Released(q', i) <==> Released(q, i) || (e == EvRelease(i) && Holding(q, i))
      ensures q'.tickets[i].granted <==> q.tickets[i].granted || (e == EvGrant(i) && CanGrant(q, i))
    {
      ReleasedAfter(q, e, i);
    }
    forall k | 0 <= k < |q'.tickets| ensures InOrder(q', k) {
      if k < |q.tickets| {
        assert InOrder(q, k);
        PrevResolved(q, k);
      }
    }
  }

  lemma {:induction false} RunKeepsInv(q: Queue, es: seq<Event>)
    requires Inv(q)
    ensures Inv(Run(q, es))
    decreases |es|
  {
    if es != [] {
      RunKeepsInv(q, es[..|es| - 1]);
      StepKeepsInv(Run(q, es[..|es| - 1]), es[|es| - 1]);
    }
  }

  // ----- Main results -----

  /** Mutual exclusion: at most one caller is between its grant and its release. */
  lemma MutualExclusion(shape: Shape, es: seq<Event>, i: nat, k: nat)
    requires Holding(Run(Empty(shape), es), i) && Holding(Run(Empty(shape), es), k)
    ensures i == k
  {
    RunKeepsInv(Empty(shape), es);
    HoldersAgree(Run(Empty(shape), es), i, k);
  }

  lemma HoldersAgree(q: Queue, i: nat, k: nat)
    requires Inv(q) && Holding(q, i) && Holding(q, k)
    ensures i == k
  {
    assert InOrder(q, i) && InOrder(q, k);
  }

  /** Grants are first come, first served: an earlier arrival was granted (and has left) already. */
  lemma FirstComeFirstServed(shape: Shape, es: seq<Event>, i: nat, k: nat)
    requires i < k < |Run(Empty(shape), es).tickets|
    requires Run(Empty(shape), es).tickets[k].granted
    ensures Run(Empty(shape), es).tickets[i].granted && Released(Run(Empty(shape), es), i)
  {
    RunKeepsInv(Empty(shape), es);
    assert InOrder(Run(Empty(shape), es), k);
    assert InOrder(Run(Empty(shape), es), i);
  }

  /** Grants and releases still owed to the first `n` callers. */
  function Owed(q: Queue, n: nat): nat
    requires n <= |q.tickets|
  {
    if n == 0 then 0
    else Owed(q, n - 1) + (if q.tickets[n - 1].granted then 0 else 1) + (if Released(q, n - 1) then 0 else 1)
  }

  function Outstanding(q: Queue): nat {
    Owed(q, |q.tickets|)
  }

  lemma {:induction false} OwedDrops(q: Queue, q': Queue, k: nat, n: nat)
    requires |q.tickets| == |q'.tickets| && n <= |q.tickets|
    requires forall i :: 0 <= i < n && i != k ==>
      q'.tickets[i].granted == q.tickets[i].granted && Released(q', i) == Released(q, i)
    requires k < n ==>
      (if q.tickets[k].granted then 0 else 1) + (if Released(q, k) then 0 else 1) ==
      (if q'.tickets[k].granted then 0 else 1) + (if Released(q', k) then 0 else 1) + 1
    ensures Owed(q, n) == Owed(q', n) + (if k < n then 1 else 0)
    decreases n
  {
    if n > 0 { OwedDrops(q, q', k, n - 1); }
  }

  lemma {:induction false} OwedZero(q: Queue, n: nat)
    requires Inv(q) && n <= |q.tickets|
    ensures Owed(q, n) == 0 <==> AllReleasedBefore(q, n)
    decreases n
  {
    if n > 0 {
      OwedZero(q, n - 1);
      assert InOrder(q, n - 1);
    }
  }

  predicate Enabled(q: Queue, e: Event) {
    match e
    case EvAcquire => true
    case EvGrant(k) => CanGrant(q, k)
    case EvRelease(k) => Holding(q, k)
  }

  /** Every enabled grant or release pays off exactly one unit: a run without new callers ends. */
  lemma Progress(q: Queue, e: Event)
    requires Inv(q) && Enabled(q, e) && e != EvAcquire
    ensures Outstanding(Step(q, e)) + 1 == Outstanding(q)
  {
    var q' := Step(q, e);
    assert TicketOk(q, e.k) && InOrder(q, e.k);
    forall i | 0 <= i < |q.tickets|
      ensures Released(q', i) <==> Released(q, i) || (e == EvRelease(i) && Holding(q, i))
      ensures q'.tickets[i].granted <==> q.tickets[i].granted || (e == EvGrant(i) && CanGrant(q, i))
    {
      ReleasedAfter(q, e, i);
    }
    OwedDrops(q, q', e.k, |q.tickets|);
  }

  /** While anything is owed some grant or release is enabled: the chain never deadlocks. */
  lemma NoDeadlock(q: Queue) returns (e: Event)
    requires Inv(q) && Outstanding(q) > 0
    ensures e != EvAcquire && Enabled(q, e)
  {
    var n := |q.tickets|;
    OwedZero(q, n);
    var k := FirstUnreleased(q, n);
    PrevResolved(q, k);
    e := if q.tickets[k].granted then EvRelease(k) else EvGrant(k);
  }

  lemma {:induction false} FirstUnreleased(q: Queue, n: nat) returns (k: nat)
    requires n <= |q.tickets| && !AllReleasedBefore(q, n)
    ensures k < n && !Released(q, k) && AllReleasedBefore(q, k)
    decreases n
  {
    if AllReleasedBefore(q, n - 1) { k := n - 1; } else { k := FirstUnreleased(q, n - 1); }
  }

  /** When every holder releases, the queue empties: exactly `Outstanding` further steps suffice. */
  lemma {:induction false} Drains(q: Queue) returns (es: seq<Event>)
    requires Inv(q)
    ensures |es| == Outstanding(q) && EvAcquire !in es
    ensures forall k :: 0 <= k < |q.tickets| ==> Released(Run(q, es), k)
    ensures |Run(q, es).tickets| == |q.tickets|
    decreases Outstanding(q)
  {
    if Outstanding(q) == 0 {
      OwedZero(q, |q.tickets|);
      es := [];
    } else {
      var e := NoDeadlock(q);
      Progress(q, e);
      StepKeepsInv(q, e);
      var rest := Drains(Step(q, e));
      es := [e] + rest;
      RunCons(q, e, rest);
    }
  }

  lemma {:induction false} RunCons(q: Queue, e: Event, es: seq<Event>)
    ensures Run(q, [e] + es) == Run(Step(q, e), es)
    decreases |es|
  {
    if es == [] {
      assert [e] + es == [e];
      assert Run(q, [e]) == Step(Run(q, []), e);
    } else {
      RunCons(q, e, es[..|es| - 1]);
      assert ([e] + es)[..|es|] == [e] + es[..|es| - 1];
    }
  }

  /** A caller arriving at a free lock is granted at once, and leaves it free. */
  lemma Uncontended(q: Queue)
    requires Inv(q) && AllReleasedBefore(q, |q.tickets|)
    ensures var n := |q.tickets|;
      && CanGrant(Acquire(q), n)
      && !Acquire(q).tickets[n].granted
      && Holding(Grant(Acquire(q), n), n)
      && |Release(Grant(Acquire(q), n), n).tickets| == n + 1
      && AllReleasedBefore(Release(Grant(Acquire(q), n), n), n + 1)
  {
    var n := |q.tickets|;
    var q1 := Acquire(q);
    StepKeepsInv(q, EvAcquire);
    forall i | 0 <= i < n ensures Released(q1, i) { ReleasedAfter(q, EvAcquire, i); }
    PrevResolved(q1, n);
    var q2 := Grant(q1, n);
    StepKeepsInv(q1, EvGrant(n));
    assert InOrder(q1, n);
    ReleasedAfter(q1, EvGrant(n), n);
    forall i | 0 <= i < n ensures Released(q2, i) { ReleasedAfter(q1, EvGrant(n), i); }
    forall i | 0 <= i <= n ensures Released(Release(q2, n), i) { ReleasedAfter(q2, EvRelease(n), i); }
  }

  // ----- The lock as the program holds it -----

  class Mutex {
    var shape: Shape
    var heap: seq<Promise>
    var tail: nat
    var tickets: seq<Ticket>

    function View(): Queue
      reads this
    {
      Queue(shape, heap, tail, tickets)
    }

    constructor (shape: Shape)
      ensures View() == Empty(shape)
    {
      this.shape, heap, tail, tickets := shape, [Settled], 0, [];
    }

    method AcquireLock() returns (ticket: nat)
      modifies this
      ensures View() == Acquire(old(View())) && ticket == |old(tickets)|
    {
      var prev := tail;
      var next := |heap|;
      heap := heap + [Deferred(false)];
      match shape {
        case TailJoins =>
          tail := |heap|;
          heap := heap + [Joined(prev, next)];
          assert heap == old(heap) + [Deferred(false), Joined(prev, next)];
        case TailIsNext =>
          tail := next;
      }
      ticket := |tickets|;
      tickets := tickets + [Ticket(prev, next, false)];
    }

    method TryGrant(ticket: nat) returns (granted: bool)
      modifies this
      ensures View() == Grant(old(View()), ticket) && granted == CanGrant(old(View()), ticket)
    {
      granted := CanGrant(View(), ticket);
      if granted {
        tickets := tickets[ticket := tickets[ticket].(granted := true)];
      }
    }

    method ReleaseLock(ticket: nat)
      requires Holding(View(), ticket)
      modifies this
      ensures View() == Release(old(View()), ticket)
    {
      if tickets[ticket].next < |heap| {
        heap := heap[tickets[ticket].next := Deferred(true)];
      }
    }
  }
}
