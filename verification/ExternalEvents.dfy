/**
 External events and the tasks waiting for them (task/orchestrator.go:699-763 and 1121-1146).

 The field received is a history variable: for each
 name, the payloads handed to waiters so far, in the order they were handed out.
 */
module ExternalEvents {
  import opened Work

  datatype Waiter = Waiter(n: nat, name: Name)

  datatype WaitOutcome = Received(payload: string) | Cancelled

  datatype Ext = Ext(
    events: map<Name, seq<string>>,
    queue: map<Name, seq<Waiter>>,
    done: map<Waiter, WaitOutcome>,
    waiters: seq<Waiter>,
    received: map<Name, seq<string>>)

  const NONE := Ext(map[], map[], map[], [], map[])

  function Get<T>(m: map<Name, seq<T>>, name: Name): seq<T> {
    if name in m then m[name] else []
  }

  /** Stores a list under a name; an empty list is stored as no entry. */
  function Put<T>(m: map<Name, seq<T>>, name: Name, q: seq<T>): (r: map<Name, seq<T>>)
    ensures Get(r, name) == q
    ensures forall other :: other != name ==> Get(r, other) == Get(m, other) && (other in r <==> other in m)
    ensures name in r <==> q != []
  {
    if q == [] then m - {name} else m[name := q]
  }

  function Hand(x: Ext, w: Waiter, payload: string): Ext {
    x.(done := x.done[w := Received(payload)],
       received := x.received[w.name := Get(x.received, w.name) + [payload]])
  }

  /** An event completes the oldest waiter of its name, or is kept for a later one. */
  function Raise(x: Ext, name: Name, payload: string): Ext {
    if name in x.queue && x.queue[name] != [] then
      var w := x.queue[name][0];
      Hand(x.(queue := Put(x.queue, name, x.queue[name][1..])), w, payload)
    else
      x.(events := x.events[name := Get(x.events, name) + [payload]])
  }

  /** A wait consumes a kept event, gives up at once on a zero timeout, or joins the queue. */
  function Wait(x: Ext, name: Name, zero: bool): Ext {
    var w := Waiter(|x.waiters|, name);
    var x1 := x.(waiters := x.waiters + [w]);
    if Get(x.events, name) != [] then
      Hand(x1.(events := Put(x.events, name, x.events[name][1..])), w, x.events[name][0])
    else if zero then
      x1.(done := x.done[w := Cancelled])
    else
      x1.(queue := x.queue[name := Get(x.queue, name) + [w]])
  }

  /** Whether the wait just made is queued and therefore backed by a timer. */
  predicate Queues(x: Ext, name: Name, zero: bool) {
    Get(x.events, name) == [] && !zero
  }

  function Without(q: seq<Waiter>, gone: set<Waiter>): seq<Waiter> {
    if q == [] then []
    else (if q[0] in gone then [] else [q[0]]) + Without(q[1..], gone)
  }

  /** The timers of these waiters fired: whoever still waits is cancelled and leaves the queue. */
  function Expire(x: Ext, gone: set<Waiter>): Ext {
    x.(queue := map name | name in x.queue && Without(x.queue[name], gone) != [] :: Without(x.queue[name], gone),
       done := x.done + map w | w in gone && w !in x.done :: Cancelled)
  }

  /******* Invariant *******/

  ghost predicate Ordered(q: seq<Waiter>) {
    forall i, j :: 0 <= i < j < |q| ==> q[i].n < q[j].n
  }

  predicate Issued(x: Ext, w: Waiter) {
    w.n < |x.waiters| && x.waiters[w.n] == w
  }

  predicate Pending(x: Ext, w: Waiter) {
    Issued(x, w) && w !in x.done
  }

  ghost predicate QueueOf(x: Ext, name: Name, q: seq<Waiter>) {
    Ordered(q) && forall w :: w in q <==> Pending(x, w) && w.name == name
  }

  /** Each queue holds exactly the waiters of its name that are not done, oldest first. */
  ghost predicate Queued(x: Ext) {
    && (forall i :: 0 <= i < |x.waiters| ==> x.waiters[i].n == i)
    && (forall name :: name in x.queue ==> x.queue[name] != [])
    && (forall name :: QueueOf(x, name, Get(x.queue, name)))
    && (forall w :: w in x.done ==> Issued(x, w))
  }

  /** No event is kept while somebody waits for it. */
  ghost predicate Exclusive(x: Ext) {
    && (forall name :: name in x.events ==> x.events[name] != [])
    && (forall name :: name in x.events ==> name !in x.queue)
  }

  ghost predicate Inv(x: Ext) {
    Queued(x) && Exclusive(x)
  }

  /** Everything raised under a name so far: what was handed out, then what is kept. */
  function Raised(x: Ext, name: Name): seq<string> {
    Get(x.received, name) + Get(x.events, name)
  }

  lemma OrderedDistinct(q: seq<Waiter>)
    requires Ordered(q) && q != []
    ensures Ordered(q[1..]) && forall w :: w in q[1..] <==> w in q && w != q[0]
  {
    assert forall i :: 1 <= i < |q| ==> q[i].n > q[0].n;
    forall w | w in q && w != q[0] ensures w in q[1..] {
      var i :| 0 <= i < |q| && q[i] == w;
      assert q[1..][i - 1] == w;
    }
  }

  lemma QueueAfterHand(x: Ext, name: Name, payload: string)
    requires Queued(x) && name in x.queue
    ensures Queued(Raise(x, name, payload))
  {
    var x' := Raise(x, name, payload);
    var q := x.queue[name];
    assert QueueOf(x, name, Get(x.queue, name));
    OrderedDistinct(q);
    assert Pending(x, q[0]);
    assert forall w :: Pending(x', w) <==> Pending(x, w) && w != q[0];
    forall other ensures QueueOf(x', other, Get(x'.queue, other)) {
      assert QueueOf(x, other, Get(x.queue, other));
    }
  }

  lemma KeptQueued(x: Ext, x': Ext)
    requires Queued(x) && x'.queue == x.queue && x'.waiters == x.waiters && x'.done == x.done
    ensures Queued(x')
  {
    assert forall w :: Pending(x', w) <==> Pending(x, w);
    forall other ensures QueueOf(x', other, Get(x'.queue, other)) {
      assert QueueOf(x, other, Get(x.queue, other));
    }
  }

  /** Raising keeps the invariant and adds the payload at the end of what was raised under the name. */
  lemma RaiseKeepsInv(x: Ext, name: Name, payload: string)
    requires Inv(x)
    ensures Inv(Raise(x, name, payload))
    ensures Raised(Raise(x, name, payload), name) == Raised(x, name) + [payload]
    ensures forall other :: other != name ==> Raised(Raise(x, name, payload), other) == Raised(x, other)
  {
    if name in x.queue {
      QueueAfterHand(x, name, payload);
      assert QueueOf(x, name, x.queue[name]) by { assert QueueOf(x, name, Get(x.queue, name)); }
      assert x.queue[name][0] in x.queue[name];
      HandRaises(x, name, payload);
    } else {
      KeptQueued(x, Raise(x, name, payload));
    }
  }

  lemma HandRaises(x: Ext, name: Name, payload: string)
    requires name in x.queue && x.queue[name] != [] && x.queue[name][0].name == name && Exclusive(x)
    ensures Exclusive(Raise(x, name, payload))
    ensures Raised(Raise(x, name, payload), name) == Raised(x, name) + [payload]
    ensures forall other :: other != name ==> Raised(Raise(x, name, payload), other) == Raised(x, other)
  {
    assert Get(x.events, name) == [];
  }

  lemma NewWaiter(x: Ext, w: Waiter, x': Ext)
    requires Queued(x) && w.n == |x.waiters| && x'.waiters == x.waiters + [w]
    ensures !Issued(x, w) && w !in x.done && forall v :: Issued(x', v) <==> Issued(x, v) || v == w
  {
  }

  /** A waiter that is done at once leaves every queue as it is. */
  lemma DoneAtOnce(x: Ext, w: Waiter, x': Ext)
    requires Queued(x) && w.n == |x.waiters| && x'.waiters == x.waiters + [w]
    requires x'.queue == x.queue && x'.done.Keys == x.done.Keys + {w}
    ensures Queued(x')
  {
    NewWaiter(x, w, x');
    assert forall v :: Pending(x', v) <==> Pending(x, v);
    forall other ensures QueueOf(x', other, Get(x'.queue, other)) {
      assert QueueOf(x, other, Get(x.queue, other));
    }
  }

  /** Waiting keeps the invariant and raises nothing: a kept event only moves to the waiter. */
  /** How the wait just made ends: with the oldest event kept, at once, or not yet. */
  lemma {:induction false} WaitDecides(x: Ext, name: Name, zero: bool)
    requires Inv(x)
    ensures var w, kept, x' := Waiter(|x.waiters|, name), Get(x.events, name), Wait(x, name, zero);
            && (forall v :: v != w ==> (v in x'.done <==> v in x.done) && (v in x.done ==> x'.done[v] == x.done[v]))
            && (if kept != [] then w in x'.done && x'.done[w] == Received(kept[0])
                else if zero then w in x'.done && x'.done[w] == Cancelled
                else w !in x'.done)
  {
    assert !Issued(x, Waiter(|x.waiters|, name));
  }

  lemma WaitKeepsInv(x: Ext, name: Name, zero: bool)
    requires Inv(x)
    ensures Inv(Wait(x, name, zero))
    ensures forall other :: Raised(Wait(x, name, zero), other) == Raised(x, other)
    ensures Queues(x, name, zero) <==> Waiter(|x.waiters|, name) !in Wait(x, name, zero).done
    ensures var w, kept, x' := Waiter(|x.waiters|, name), Get(x.events, name), Wait(x, name, zero);
            && (forall v :: v != w ==> (v in x'.done <==> v in x.done) && (v in x.done ==> x'.done[v] == x.done[v]))
            && (if kept != [] then w in x'.done && x'.done[w] == Received(kept[0])
                else if zero then w in x'.done && x'.done[w] == Cancelled
                else w !in x'.done)
  {
    WaitDecides(x, name, zero);
    var w := Waiter(|x.waiters|, name);
    var x' := Wait(x, name, zero);
    NewWaiter(x, w, x');
    WaitExclusive(x, name, zero);
    if Get(x.events, name) != [] {
      DoneAtOnce(x, w, x');
      WaitTakesFirst(x, name, zero);
    } else if zero {
      DoneAtOnce(x, w, x');
    } else {
      WaitQueued(x, name);
    }
  }

  lemma WaitExclusive(x: Ext, name: Name, zero: bool)
    requires Exclusive(x)
    ensures Exclusive(Wait(x, name, zero))
  {
  }

  lemma WaitTakesFirst(x: Ext, name: Name, zero: bool)
    requires Get(x.events, name) != []
    ensures forall other :: Raised(Wait(x, name, zero), other) == Raised(x, other)
  {
    assert [x.events[name][0]] + x.events[name][1..] == x.events[name];
    assert Raised(Wait(x, name, zero), name) == Raised(x, name);
  }

  lemma WaitQueued(x: Ext, name: Name)
    requires Queued(x) && Get(x.events, name) == []
    ensures Queued(Wait(x, name, false))
  {
    var w := Waiter(|x.waiters|, name);
    var x' := Wait(x, name, false);
    NewWaiter(x, w, x');
    assert forall v :: Pending(x', v) <==> Pending(x, v) || v == w;
    forall other ensures QueueOf(x', other, Get(x'.queue, other)) {
      var q := Get(x.queue, other);
      assert QueueOf(x, other, q);
      if other == name {
        assert forall i :: 0 <= i < |q| ==> q[i] in q && q[i].n < w.n;
        assert forall v :: v in q + [w] <==> v in q || v == w;
      }
    }
  }

  lemma {:induction false} WithoutMembers(q: seq<Waiter>, gone: set<Waiter>)
    ensures forall w :: w in Without(q, gone) <==> w in q && w !in gone
  {
    if q != [] {
      WithoutMembers(q[1..], gone);
      assert q == [q[0]] + q[1..];
    }
  }

  lemma {:induction false} WithoutOrdered(q: seq<Waiter>, gone: set<Waiter>)
    requires Ordered(q)
    ensures Ordered(Without(q, gone))
  {
    if q != [] {
      WithoutOrdered(q[1..], gone);
      WithoutMembers(q[1..], gone);
      var r := Without(q[1..], gone);
      forall i | 0 <= i < |r| ensures q[0].n < r[i].n {
        assert r[i] in q[1..];
      }
    }
  }

  lemma ExpireGet(x: Ext, gone: set<Waiter>, name: Name)
    ensures Get(Expire(x, gone).queue, name) == Without(Get(x.queue, name), gone)
    ensures forall w :: w in Get(Expire(x, gone).queue, name) <==> w in Get(x.queue, name) && w !in gone
  {
    WithoutMembers(Get(x.queue, name), gone);
  }

  lemma ExpireQueued(x: Ext, gone: set<Waiter>)
    requires Queued(x) && forall w :: w in gone ==> Issued(x, w)
    ensures Queued(Expire(x, gone))
  {
    var x' := Expire(x, gone);
    assert forall w :: Pending(x', w) <==> Pending(x, w) && w !in gone;
    forall name ensures QueueOf(x', name, Get(x'.queue, name)) {
      assert QueueOf(x, name, Get(x.queue, name));
      ExpireGet(x, gone, name);
      WithoutOrdered(Get(x.queue, name), gone);
    }
  }

  /** A firing timer disturbs nobody but its own waiter, and loses no event. */
  lemma ExpireKeepsInv(x: Ext, gone: set<Waiter>)
    requires Inv(x) && forall w :: w in gone ==> Issued(x, w)
    ensures Inv(Expire(x, gone))
    ensures forall name :: Raised(Expire(x, gone), name) == Raised(x, name)
    ensures forall name :: Get(Expire(x, gone).queue, name) == Without(Get(x.queue, name), gone)
    ensures forall w :: w in x.done ==> w in Expire(x, gone).done && Expire(x, gone).done[w] == x.done[w]
    ensures forall w :: w !in x.done ==>
      (w in Expire(x, gone).done <==> w in gone) && (w in gone ==> Expire(x, gone).done[w] == Cancelled)
  {
    ExpireQueued(x, gone);
    forall name ensures Get(Expire(x, gone).queue, name) == Without(Get(x.queue, name), gone) {
      ExpireGet(x, gone, name);
    }
  }
}
