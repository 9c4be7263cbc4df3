/**
 How a wait for an external event ends (task/orchestrator.go:712-763): with an event, or because its own timer
 has fired, or at once if it may not wait.
 */
module Waits {
  import opened Work
  import opened ExternalEvents
  import N = Numbering
  import T = NumberingTheorems
  import R = Replay
  import RT = ReplayTheorems

  /** The timer that backs the waiter. */
  predicate Backs(s: R.State, item: Item, w: Waiter) {
    item in s.callbacks && s.callbacks[item] == w
  }

  ghost predicate HasTimer(s: R.State, w: Waiter) {
    exists item :: Backs(s, item, w)
  }

  ghost predicate TimedOut(s: R.State, w: Waiter) {
    exists item :: Backs(s, item, w) && item in s.core.outcome
  }

  /** Whoever is cancelled although it has a timer was cancelled by that timer. */
  ghost predicate CancelledByTimer(s: R.State) {
    forall w :: w in s.ext.done && s.ext.done[w].Cancelled? && HasTimer(s, w) ==> TimedOut(s, w)
  }

  /** Nobody waits without a timer. */
  ghost predicate WaitsHaveTimers(s: R.State) {
    forall w :: Pending(s.ext, w) ==> HasTimer(s, w)
  }

  ghost predicate Timely(s: R.State) {
    CancelledByTimer(s) && WaitsHaveTimers(s)
  }

  /** Results are not taken back. */
  ghost predicate KeepsResults(c: N.State, c': N.State) {
    forall item :: item in c.outcome ==> item in c'.outcome
  }

  lemma AdvancesKeepResults(c: N.State, c': N.State)
    requires T.Advances(c, c')
    ensures KeepsResults(c, c')
  {
  }

  /** Nobody new is cancelled, nobody new waits, and the timers are the same. */
  lemma {:induction false} SameTimely(s: R.State, s': R.State)
    requires Timely(s) && s'.callbacks == s.callbacks && KeepsResults(s.core, s'.core)
    requires forall w :: w in s'.ext.done && s'.ext.done[w].Cancelled? ==> w in s.ext.done && s.ext.done[w].Cancelled?
    requires forall w :: Pending(s'.ext, w) ==> Pending(s.ext, w)
    ensures Timely(s')
  {
    forall w | w in s'.ext.done && s'.ext.done[w].Cancelled? && HasTimer(s', w) ensures TimedOut(s', w) {
      var item :| Backs(s', item, w);
      assert Backs(s, item, w);
      var timer :| Backs(s, timer, w) && timer in s.core.outcome;
      assert Backs(s', timer, w);
    }
    forall w | Pending(s'.ext, w) ensures HasTimer(s', w) {
      var item :| Backs(s, item, w);
      assert Backs(s', item, w);
    }
  }

  lemma {:induction false} SettleTimely(s: R.State, core: N.State)
    requires Timely(s) && KeepsResults(s.core, core)
    ensures Timely(R.Settle(s, core))
  {
    var s' := R.Settle(s, core);
    forall w | w in s'.ext.done && s'.ext.done[w].Cancelled? && HasTimer(s', w) ensures TimedOut(s', w) {
      if w in s.ext.done {
        var item :| Backs(s', item, w);
        assert Backs(s, item, w);
        var timer :| Backs(s, timer, w) && timer in s.core.outcome;
        assert Backs(s', timer, w);
      } else {
        var timer :|
          timer in s.callbacks && timer in core.outcome && timer !in s.core.outcome && s.callbacks[timer] == w;
        assert Backs(s', timer, w);
      }
    }
    forall w | Pending(s'.ext, w) ensures HasTimer(s', w) {
      assert Pending(s.ext, w);
      var item :| Backs(s, item, w);
      assert Backs(s', item, w);
    }
  }

  lemma {:induction false} RaiseTimely(s: R.State, name: Name, payload: string)
    requires Timely(s)
    ensures Timely(s.(ext := Raise(s.ext, name, payload)))
  {
    SameTimely(s, s.(ext := Raise(s.ext, name, payload)));
  }

  /** What a wait changes: it adds a waiter, which is over at once or not, and has no timer yet. */
  lemma {:induction false} WaitAdds(s: R.State, name: Name, zero: bool)
    requires R.Inv(s)
    ensures var w, x := Waiter(|s.ext.waiters|, name), Wait(s.ext, name, zero);
            && x.waiters == s.ext.waiters + [w] && (w in x.done <==> !Queues(s.ext, name, zero)) && !HasTimer(s, w)
            && (forall v :: v != w ==> (v in x.done <==> v in s.ext.done))
            && (forall v :: v != w && v in x.done ==> x.done[v] == s.ext.done[v])
  {
    WaitKeepsInv(s.ext, name, zero);
    var w := Waiter(|s.ext.waiters|, name);
    assert !Issued(s.ext, w);
    forall item ensures !Backs(s, item, w) {
      assert item in s.callbacks ==> Issued(s.ext, s.callbacks[item]);
    }
  }

  /** The same timers, and one more for the new waiter or none. */
  lemma {:induction false} JoinedTimely(s: R.State, s': R.State, w: Waiter)
    requires Timely(s) && !HasTimer(s, w) && s'.core == s.core
    requires s'.ext.waiters == s.ext.waiters + [w] && (w in s'.ext.done ==> s'.callbacks == s.callbacks)
    requires w !in s'.ext.done ==> exists item :: Backs(s', item, w)
    requires forall v, item :: v != w ==> (Backs(s', item, v) <==> Backs(s, item, v))
    requires forall v :: v != w ==> (v in s'.ext.done <==> v in s.ext.done)
    requires forall v :: v != w && v in s'.ext.done ==> s'.ext.done[v] == s.ext.done[v]
    ensures Timely(s')
  {
    forall v | v in s'.ext.done && s'.ext.done[v].Cancelled? && HasTimer(s', v) ensures TimedOut(s', v) {
      var i :| Backs(s', i, v);
      assert Backs(s, i, v);
      var timer :| Backs(s, timer, v) && timer in s.core.outcome;
      assert Backs(s', timer, v);
    }
    forall v | Pending(s'.ext, v) ensures HasTimer(s', v) {
      if v != w {
        assert Pending(s.ext, v);
        var i :| Backs(s, i, v);
        assert Backs(s', i, v);
      }
    }
  }

  /** A wait that is over at once has no timer. */
  lemma {:induction false} AtOnceTimely(s: R.State, name: Name, zero: bool)
    requires Timely(s) && R.Inv(s) && !Queues(s.ext, name, zero)
    ensures Timely(s.(ext := Wait(s.ext, name, zero)))
  {
    hide Wait, R.Inv, HasTimer, CancelledByTimer;
    WaitAdds(s, name, zero);
    JoinedTimely(s, s.(ext := Wait(s.ext, name, zero)), Waiter(|s.ext.waiters|, name));
  }

  lemma FreshItem(s: R.State, item: Item)
    requires R.Inv(s) && item.n == s.core.issued
    ensures item !in s.callbacks
  {
  }

  /** A wait that must be queued gets its own timer. */
  lemma {:induction false} QueuedTimely(s: R.State, name: Name, item: Item)
    requires Timely(s) && R.Inv(s) && Queues(s.ext, name, false) && item.n == s.core.issued
    ensures var w := Waiter(|s.ext.waiters|, name);
            Timely(s.(ext := Wait(s.ext, name, false), callbacks := s.callbacks[item := w]))
  {
    hide Wait, R.Inv, HasTimer, CancelledByTimer;
    WaitAdds(s, name, false);
    FreshItem(s, item);
    var w := Waiter(|s.ext.waiters|, name);
    var s' := s.(ext := Wait(s.ext, name, false), callbacks := s.callbacks[item := w]);
    assert Backs(s', item, w);
    JoinedTimely(s, s', w);
  }

  lemma {:induction false} WaitForTimely(s: R.State, name: Name, timeout: int, now: int)
    requires Timely(s) && R.Inv(s)
    ensures Timely(R.WaitFor(s, name, timeout, now))
  {
    hide Timely, Wait, N.Inv, R.Settle, N.Schedule;
    if Queues(s.ext, name, timeout == 0) {
      var work := Timer(ExternalEvent(name), if timeout > 0 then now + timeout else INDEFINITE);
      var item, w := Item(s.core.issued, work), Waiter(|s.ext.waiters|, name);
      QueuedTimely(s, name, item);
      T.ScheduleAdvances(s.core, work);
      AdvancesKeepResults(s.core, N.Schedule(s.core, work));
      SettleTimely(s.(ext := Wait(s.ext, name, false), callbacks := s.callbacks[item := w]), N.Schedule(s.core, work));
    } else {
      AtOnceTimely(s, name, timeout == 0);
    }
  }

  /******* Whole replays *******/

  lemma {:induction false} DispatchTimely(s: R.State, e: R.Event)
    requires R.Inv(s) && Timely(s)
    ensures Timely(R.Dispatch(s, e).0)
  {
    hide N.Inv, N.OnScheduled, N.Deliver, Raise, R.Terminate, Timely, R.Settle;
    var s0 := s.(handled := s.handled + [e]);
    HistoryIsFree(s, s0);
    match e {
      case Resolved(r) =>
        T.DeliverAdvances(s.core, r);
        AdvancesKeepResults(s.core, N.Deliver(s.core, r));
        SettleTimely(s0, N.Deliver(s.core, r));
      case Recorded(rec) =>
        T.OnScheduledAdvances(s.core, rec);
        AdvancesKeepResults(s.core, N.OnScheduled(s.core, rec).0);
        SettleTimely(s0, N.OnScheduled(s.core, rec).0);
      case EventRaised(name, payload) => RaiseTimely(s0, name, payload);
      case ExecutionTerminated =>
        R.TerminateAdvances(s.core);
        AdvancesKeepResults(s.core, R.Terminate(s.core));
        TerminateTimely(s0);
      case _ => HistoryIsFree(s0, R.Dispatch(s, e).0);
    }
  }

  lemma {:induction false} TerminateTimely(s: R.State)
    requires Timely(s) && KeepsResults(s.core, R.Terminate(s.core))
    ensures Timely(s.(terminated := true, core := R.Terminate(s.core)))
  {
    hide R.Terminate;
    SameTimely(s, s.(terminated := true, core := R.Terminate(s.core)));
  }

  /** Only timers, results and waiters matter. */
  lemma {:induction false} HistoryIsFree(s: R.State, s': R.State)
    requires Timely(s) && s'.callbacks == s.callbacks && s'.core == s.core && s'.ext == s.ext
    ensures Timely(s')
  {
    SameTimely(s, s');
  }

  lemma {:induction false} HandleTimely(s: R.State, e: R.Event)
    requires R.Inv(s) && Timely(s)
    ensures Timely(R.Handle(s, e).0)
  {
    hide Timely, R.Dispatch, N.Inv;
    DispatchTimely(s, e);
    HistoryIsFree(s, s.(held := s.held + [e]));
  }

  lemma {:induction false} HandleAllTimely(s: R.State, es: seq<R.Event>)
    requires R.Inv(s) && Timely(s) && R.HeldIn(es)
    ensures Timely(R.HandleAll(s, es).0)
    decreases es
  {
    hide Timely, R.Dispatch, R.Handle, N.Inv;
    if es != [] {
      HandleTimely(s, es[0]);
      R.HandleKeepsInv(s, es[0]);
      if R.Handle(s, es[0]).1 { HandleAllTimely(R.Handle(s, es[0]).0, es[1..]); }
    }
  }

  lemma {:induction false} ArriveTimely(s: R.State, e: R.Event)
    requires R.Inv(s) && Timely(s)
    ensures Timely(R.Arrive(s, e).0)
  {
    hide Timely, N.Inv, R.Dispatch, R.HandleAll;
    var s0 := if s.terminated then s else s.(arrived := s.arrived + [e]);
    HistoryIsFree(s, s0);
    if e.ExecutionResumed? && !s.terminated {
      DispatchTimely(s0, e);
      R.DispatchKeepsInv(s0, e);
      var s1 := R.Dispatch(s0, R.ExecutionResumed).0;
      HandleAllTimely(s1, s0.held);
      var s2 := R.HandleAll(s1, s0.held).0;
      HistoryIsFree(s2, s2.(held := []));
    } else {
      HandleTimely(s0, e);
    }
  }

  lemma {:induction false} CallTimely(s: R.State, w: Work)
    requires R.Inv(s) && Timely(s)
    ensures Timely(R.Call(s, w))
  {
    hide Timely, N.Inv, R.Settle, N.Schedule;
    T.ScheduleAdvances(s.core, w);
    AdvancesKeepResults(s.core, N.Schedule(s.core, w));
    SettleTimely(s, N.Schedule(s.core, w));
  }

  lemma {:induction false} NextTimely(t: RT.Turn, op: RT.Op)
    requires R.Inv(t.s) && Timely(t.s)
    ensures Timely(RT.Next(t, op).s)
  {
    hide Timely, R.Arrive, R.WaitFor, R.Call, R.Inv;
    match op {
      case DoWait(name, timeout, now) => WaitForTimely(t.s, name, timeout, now);
      case DoArrive(e) => ArriveTimely(t.s, e);
      case DoCall(w) => CallTimely(t.s, w);
      case DoReturn(status) => CallTimely(t.s, Completion(status));
      case DoFail(missing) => CallTimely(t.s, if missing then VersionNotAvailable else Completion(Failed));
      case DoContinueAsNew(_) => HistoryIsFree(t.s, RT.Next(t, op).s);
    }
  }

  lemma {:induction false} RunTimely(t: RT.Turn, ops: seq<RT.Op>)
    requires R.Inv(t.s) && Timely(t.s)
    ensures Timely(RT.Run(t, ops).s)
    decreases ops
  {
    hide Timely, RT.Next, R.Inv;
    if ops != [] {
      RT.NextKeepsInv(t, ops[0]);
      NextTimely(t, ops[0]);
      RunTimely(RT.Next(t, ops[0]), ops[1..]);
    }
  }

  /** The step waits for the event, and this is the timer for the time it asks for. */
  predicate Asks(op: RT.Op, item: Item, name: Name) {
    op.DoWait? && op.name == name && op.timeout != 0 &&
    item.work == Timer(ExternalEvent(name), if op.timeout > 0 then op.now + op.timeout else INDEFINITE)
  }

  lemma {:induction false} HandleAllCallbacks(s: R.State, es: seq<R.Event>)
    requires N.Inv(s.core)
    ensures R.HandleAll(s, es).0.callbacks == s.callbacks
    decreases es
  {
    hide N.Inv, N.OnScheduled, N.Deliver, R.Terminate;
    if es != [] {
      R.HandleAdvances(s, es[0]);
      if R.Handle(s, es[0]).1 { HandleAllCallbacks(R.Handle(s, es[0]).0, es[1..]); }
    }
  }

  lemma {:induction false} ArriveCallbacks(s: R.State, e: R.Event)
    requires R.Inv(s)
    ensures R.Arrive(s, e).0.callbacks == s.callbacks
  {
    hide N.Inv, N.OnScheduled, N.Deliver, R.Terminate, R.HandleAll;
    var s0 := if s.terminated then s else s.(arrived := s.arrived + [e]);
    if e.ExecutionResumed? && !s.terminated { HandleAllCallbacks(R.Dispatch(s0, e).0, s0.held); }
  }

  lemma {:induction false} NextAsked(t: RT.Turn, op: RT.Op, item: Item)
    requires R.Inv(t.s) && item in RT.Next(t, op).s.callbacks
    ensures var w := RT.Next(t, op).s.callbacks[item];
            (item in t.s.callbacks && t.s.callbacks[item] == w) || Asks(op, item, w.name)
  {
    hide R.Arrive, R.Inv, N.Schedule, Wait, Expire;
    if op.DoArrive? { ArriveCallbacks(t.s, op.e); }
  }

  lemma {:induction false} RunAsked(t: RT.Turn, ops: seq<RT.Op>, item: Item)
    requires R.Inv(t.s) && item in RT.Run(t, ops).s.callbacks
    ensures var w := RT.Run(t, ops).s.callbacks[item];
            (item in t.s.callbacks && t.s.callbacks[item] == w) || exists op :: op in ops && Asks(op, item, w.name)
    decreases ops
  {
    hide RT.Next, R.Inv, Asks;
    if ops != [] {
      RT.NextKeepsInv(t, ops[0]);
      var t1 := RT.Next(t, ops[0]);
      RunAsked(t1, ops[1..], item);
      var w := RT.Run(t, ops).s.callbacks[item];
      if item in t1.s.callbacks && t1.s.callbacks[item] == w { NextAsked(t, ops[0], item); }
    }
  }

  /**
   In every replay whoever waits has a timer of its own, for the event and the time it asked for; it is cancelled
   only once that timer has fired, and it does not wait any longer then.
   */
  lemma {:induction false} WaitsEndByTimer(ops: seq<RT.Op>, w: Waiter)
    ensures R.Inv(RT.START.s)
    ensures var s := RT.Run(RT.START, ops).s;
            && (Pending(s.ext, w) ==>
                  exists item, op ::
                    Backs(s, item, w) && item !in s.core.outcome && op in ops && Asks(op, item, w.name))
            && (w in s.ext.done && s.ext.done[w].Cancelled? && HasTimer(s, w) ==> TimedOut(s, w))
            && (TimedOut(s, w) ==> w in s.ext.done)
  {
    RT.StartInv();
    RunTimely(RT.START, ops);
    var s := RT.Run(RT.START, ops).s;
    if Pending(s.ext, w) {
      var item :| Backs(s, item, w);
      RunAsked(RT.START, ops, item);
    }
  }
}
