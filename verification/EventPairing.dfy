/** External events meet their waiters first in, first out (task/orchestrator.go:712-763 and 1121-1146). */
module EventPairing {
  import opened Work
  import opened ExternalEvents
  import N = Numbering
  import R = Replay
  import RT = ReplayTheorems

  predicate HasReceived(done: map<Waiter, WaitOutcome>, w: Waiter) {
    w in done && done[w].Received?
  }

  /** What the waiters of a name received, in the order in which they began to wait. */
  function Takings(waiters: seq<Waiter>, done: map<Waiter, WaitOutcome>, name: Name): seq<string> {
    if waiters == [] then []
    else
      var w := waiters[|waiters| - 1];
      Takings(waiters[..|waiters| - 1], done, name) +
      if w.name == name && HasReceived(done, w) then [done[w].payload] else []
  }

  predicate SameName(x: Ext, i: nat, j: nat)
    requires i < |x.waiters| && j < |x.waiters|
  {
    x.waiters[i].name == x.waiters[j].name
  }

  /** Nobody who still waits was overtaken by a later waiter of the same name. */
  ghost predicate NotOvertaken(x: Ext) {
    forall i, j :: 0 <= i < j < |x.waiters| && SameName(x, i, j) && HasReceived(x.done, x.waiters[j]) ==>
      x.waiters[i] in x.done
  }

  ghost predicate Paired(x: Ext) {
    NotOvertaken(x) && forall name :: Takings(x.waiters, x.done, name) == Get(x.received, name)
  }

  /******* Takings *******/

  lemma {:induction false} SameTakings(waiters: seq<Waiter>, d: map<Waiter, WaitOutcome>, d': map<Waiter, WaitOutcome>,
                                       name: Name)
    requires forall i :: 0 <= i < |waiters| && waiters[i].name == name ==>
      HasReceived(d', waiters[i]) == HasReceived(d, waiters[i]) &&
      (HasReceived(d, waiters[i]) ==> d'[waiters[i]] == d[waiters[i]])
    ensures Takings(waiters, d', name) == Takings(waiters, d, name)
  {
    if waiters != [] { SameTakings(waiters[..|waiters| - 1], d, d', name); }
  }

  /** If no later waiter of the name has received anything, what waiter k receives comes last. */
  lemma {:induction false} TakesLast(waiters: seq<Waiter>, d: map<Waiter, WaitOutcome>, k: nat, payload: string)
    requires k < |waiters| && waiters[k] !in d && forall i :: 0 <= i < |waiters| ==> waiters[i].n == i
    requires forall j :: k < j < |waiters| && waiters[j].name == waiters[k].name ==> !HasReceived(d, waiters[j])
    ensures var w := waiters[k];
            Takings(waiters, d[w := Received(payload)], w.name) == Takings(waiters, d, w.name) + [payload]
  {
    var w, front := waiters[k], waiters[..|waiters| - 1];
    if k == |waiters| - 1 {
      SameTakings(front, d, d[w := Received(payload)], w.name);
    } else {
      TakesLast(front, d, k, payload);
      assert waiters[|waiters| - 1] != w;
    }
  }

  /******* Every operation keeps the pairing *******/

  lemma {:induction false} HandPaired(x: Ext, k: nat, payload: string, x': Ext)
    requires Paired(x) && k < |x.waiters| && x.waiters[k] !in x.done
    requires forall i :: 0 <= i < |x.waiters| ==> x.waiters[i].n == i
    requires forall i :: 0 <= i < k && x.waiters[i].name == x.waiters[k].name ==> x.waiters[i] in x.done
    requires x'.waiters == x.waiters && x'.done == x.done[x.waiters[k] := Received(payload)]
    requires x'.received == x.received[x.waiters[k].name := Get(x.received, x.waiters[k].name) + [payload]]
    ensures Paired(x')
  {
    hide Takings;
    var w := x.waiters[k];
    forall j | k < j < |x.waiters| && x.waiters[j].name == w.name ensures !HasReceived(x.done, x.waiters[j]) {
      assert SameName(x, k, j);
    }
    TakesLast(x.waiters, x.done, k, payload);
    forall name ensures Takings(x'.waiters, x'.done, name) == Get(x'.received, name) {
      if name != w.name { OthersTakings(x, w, payload, name); }
    }
    HandedInTurn(x, k, payload, x');
  }

  lemma {:induction false} OthersTakings(x: Ext, w: Waiter, payload: string, name: Name)
    requires name != w.name
    ensures Takings(x.waiters, x.done[w := Received(payload)], name) == Takings(x.waiters, x.done, name)
  {
    SameTakings(x.waiters, x.done, x.done[w := Received(payload)], name);
  }

  lemma {:induction false} HandedInTurn(x: Ext, k: nat, payload: string, x': Ext)
    requires NotOvertaken(x) && k < |x.waiters|
    requires forall i :: 0 <= i < |x.waiters| ==> x.waiters[i].n == i
    requires forall i :: 0 <= i < k && x.waiters[i].name == x.waiters[k].name ==> x.waiters[i] in x.done
    requires x'.waiters == x.waiters && x'.done == x.done[x.waiters[k] := Received(payload)]
    ensures NotOvertaken(x')
  {
    forall i, j | 0 <= i < j < |x'.waiters| && SameName(x', i, j) && HasReceived(x'.done, x'.waiters[j])
      ensures x'.waiters[i] in x'.done
    {
      assert SameName(x, i, j);
      if j != k { assert x.waiters[j] != x.waiters[k] && HasReceived(x.done, x.waiters[j]); }
    }
  }

  lemma {:induction false} PendingIsQueued(x: Ext, i: nat)
    requires Queued(x) && i < |x.waiters|
    ensures x.waiters[i] !in x.done ==> x.waiters[i] in Get(x.queue, x.waiters[i].name)
  {
    var w := x.waiters[i];
    assert QueueOf(x, w.name, Get(x.queue, w.name));
    assert Issued(x, w);
  }

  /** The head of a queue is pending, and everybody of its name who began to wait before it is done. */
  lemma {:induction false} HeadIsFirst(x: Ext, name: Name)
    requires Inv(x) && name in x.queue
    ensures x.queue[name] != []
    ensures var w := x.queue[name][0];
            && w.n < |x.waiters| && x.waiters[w.n] == w && w !in x.done && w.name == name
            && (forall i :: 0 <= i < w.n && x.waiters[i].name == name ==> x.waiters[i] in x.done)
  {
    assert QueueOf(x, name, Get(x.queue, name));
    var q := x.queue[name];
    var w := q[0];
    assert w in q && Pending(x, w);
    forall i | 0 <= i < w.n && x.waiters[i].name == name ensures x.waiters[i] in x.done {
      PendingIsQueued(x, i);
    }
  }

  /** Nobody waits for a name without a queue. */
  lemma {:induction false} NoQueueNoWaiter(x: Ext, name: Name, w: Waiter)
    requires Inv(x) && name !in x.queue && w.name == name
    ensures !Pending(x, w)
  {
    assert QueueOf(x, name, Get(x.queue, name));
  }

  /** A raised event goes to the waiter of its name that has waited longest. */
  lemma {:induction false} RaisePaired(x: Ext, name: Name, payload: string)
    requires Inv(x) && Paired(x)
    ensures Paired(Raise(x, name, payload))
    ensures forall w :: Pending(x, w) && w.name == name &&
                        (forall v :: Pending(x, v) && v.name == name ==> w.n <= v.n) ==>
      Raise(x, name, payload).done == x.done[w := Received(payload)]
  {
    hide Paired, Queued, Exclusive, Takings;
    var x' := Raise(x, name, payload);
    if name in x.queue {
      HeadIsFirst(x, name);
      var first := x.queue[name][0];
      assert Pending(x, first);
      assert forall i :: 0 <= i < |x.waiters| ==> x.waiters[i].n == i by { WaitersNumbered(x); }
      HandPaired(x, first.n, payload, x');
      forall w | Pending(x, w) && w.name == name && (forall v :: Pending(x, v) && v.name == name ==> w.n <= v.n)
        ensures x'.done == x.done[w := Received(payload)]
      {
        assert w.n <= first.n;
      }
    } else {
      SamePaired(x, x');
      forall w: Waiter | w.name == name ensures !Pending(x, w) { NoQueueNoWaiter(x, name, w); }
    }
  }

  lemma WaitersNumbered(x: Ext)
    requires Inv(x)
    ensures forall i :: 0 <= i < |x.waiters| ==> x.waiters[i].n == i
  {
  }

  lemma {:induction false} JoinedPaired(x: Ext, w: Waiter)
    requires Queued(x) && Paired(x) && w.n == |x.waiters|
    ensures w !in x.done && NotOvertaken(x.(waiters := x.waiters + [w]))
    ensures Paired(x.(waiters := x.waiters + [w]))
  {
    assert !Issued(x, w);
    assert (x.waiters + [w])[..|x.waiters|] == x.waiters;
  }

  lemma {:induction false} CancelPaired(x: Ext, w: Waiter, x': Ext)
    requires Paired(x) && w !in x.done
    requires x'.waiters == x.waiters && x'.done == x.done[w := Cancelled] && x'.received == x.received
    ensures Paired(x')
  {
    forall name ensures Takings(x'.waiters, x'.done, name) == Get(x'.received, name) {
      SameTakings(x.waiters, x.done, x'.done, name);
    }
  }

  /** Only waiters, results and what was received matter. */
  lemma {:induction false} SamePaired(x: Ext, x': Ext)
    requires Paired(x) && x'.waiters == x.waiters && x'.done == x.done && x'.received == x.received
    ensures Paired(x')
  {
  }

  lemma {:induction false} WaitPaired(x: Ext, name: Name, zero: bool)
    requires Inv(x) && Paired(x)
    ensures Paired(Wait(x, name, zero))
  {
    hide Paired, NotOvertaken, QueueOf;
    var w := Waiter(|x.waiters|, name);
    var x1 := x.(waiters := x.waiters + [w]);
    JoinedPaired(x, w);
    if Get(x.events, name) != [] {
      forall i | 0 <= i < |x.waiters| && x.waiters[i].name == name ensures x.waiters[i] in x.done {
        PendingIsQueued(x, i);
      }
      HandPaired(x1, |x.waiters|, x.events[name][0], Wait(x, name, zero));
    } else if zero {
      CancelPaired(x1, w, Wait(x, name, zero));
    } else {
      SamePaired(x1, Wait(x, name, zero));
    }
  }

  lemma {:induction false} ExpirePaired(x: Ext, gone: set<Waiter>)
    requires Paired(x)
    ensures Paired(Expire(x, gone))
  {
    var x' := Expire(x, gone);
    forall name ensures Takings(x'.waiters, x'.done, name) == Get(x'.received, name) {
      SameTakings(x.waiters, x.done, x'.done, name);
    }
  }

  /******* Whole replays *******/

  lemma {:induction false} DispatchPaired(s: R.State, e: R.Event)
    requires R.Inv(s) && Paired(s.ext)
    ensures Paired(R.Dispatch(s, e).0.ext)
  {
    hide Paired, N.Inv, N.OnScheduled, N.Deliver, Expire, Raise;
    match e {
      case Resolved(r) => ExpirePaired(s.ext, R.Expired(s, N.Deliver(s.core, r)));
      case Recorded(rec) => ExpirePaired(s.ext, R.Expired(s, N.OnScheduled(s.core, rec).0));
      case EventRaised(name, payload) => RaisePaired(s.ext, name, payload);
      case _ =>
    }
  }

  lemma {:induction false} HandleAllPaired(s: R.State, es: seq<R.Event>)
    requires R.Inv(s) && Paired(s.ext) && R.HeldIn(es)
    ensures Paired(R.HandleAll(s, es).0.ext)
    decreases es
  {
    hide Paired, R.Dispatch;
    if es != [] {
      DispatchPaired(s, es[0]);
      R.HandleKeepsInv(s, es[0]);
      if R.Handle(s, es[0]).1 { HandleAllPaired(R.Handle(s, es[0]).0, es[1..]); }
    }
  }

  lemma {:induction false} ArrivePaired(s: R.State, e: R.Event)
    requires R.Inv(s) && Paired(s.ext)
    ensures Paired(R.Arrive(s, e).0.ext)
  {
    hide Paired;
    var s0 := if s.terminated then s else s.(arrived := s.arrived + [e]);
    if e.ExecutionResumed? && !s.terminated {
      R.DispatchKeepsInv(s0, e);
      HandleAllPaired(R.Dispatch(s0, R.ExecutionResumed).0, s0.held);
    } else {
      DispatchPaired(s0, e);
    }
  }

  lemma {:induction false} WaitForPaired(s: R.State, name: Name, timeout: int, now: int)
    requires R.Inv(s) && Paired(s.ext)
    ensures Paired(R.WaitFor(s, name, timeout, now).ext)
  {
    hide Paired, Wait, Expire, N.Schedule;
    var x := Wait(s.ext, name, timeout == 0);
    WaitPaired(s.ext, name, timeout == 0);
    forall gone ensures Paired(Expire(x, gone)) { ExpirePaired(x, gone); }
  }

  lemma {:induction false} NextPaired(t: RT.Turn, op: RT.Op)
    requires R.Inv(t.s) && Paired(t.s.ext)
    ensures Paired(RT.Next(t, op).s.ext)
  {
    hide Paired, R.Arrive, R.WaitFor, Expire, N.Schedule;
    match op {
      case DoWait(name, timeout, now) => WaitForPaired(t.s, name, timeout, now);
      case DoArrive(e) => ArrivePaired(t.s, e);
      case _ => forall gone ensures Paired(Expire(t.s.ext, gone)) { ExpirePaired(t.s.ext, gone); }
    }
  }

  lemma {:induction false} RunPaired(t: RT.Turn, ops: seq<RT.Op>)
    requires R.Inv(t.s) && Paired(t.s.ext)
    ensures Paired(RT.Run(t, ops).s.ext)
    decreases ops
  {
    hide Paired, RT.Next, R.Inv;
    if ops != [] {
      RT.NextKeepsInv(t, ops[0]);
      NextPaired(t, ops[0]);
      RunPaired(RT.Next(t, ops[0]), ops[1..]);
    }
  }

  /**
   First in, first out: in every replay and under every name, the waiters that received an event,
   in the order in which they began to wait, received the events in the order they were handed out,
   and no later waiter received one before an earlier waiter of the same name was done.
   */
  lemma EventsMeetWaitersInOrder(ops: seq<RT.Op>, name: Name)
    ensures R.Inv(RT.START.s)
    ensures var x := RT.Run(RT.START, ops).s.ext;
            && Takings(x.waiters, x.done, name) == Get(x.received, name)
            && (forall i, j :: 0 <= i < j < |x.waiters| && SameName(x, i, j) && HasReceived(x.done, x.waiters[j]) ==>
                  x.waiters[i] in x.done)
  {
    RT.StartInv();
    assert Paired(RT.START.s.ext);
    RunPaired(RT.START, ops);
  }
}
