/**
 When a result arrives does not matter (task/orchestrator.go:843-928 and 987-1119): before or after any
 schedule calls, other results, recorded schedules with their drops and confirmations, and withdrawals.
 */
module Arrival {
  import opened Work
  import opened Numbering
  import opened NumberingTheorems

  /******* Delivery and redelivery *******/

  /** A matching resolution is not buffered as well. */
  predicate Unheard(s: State, r: Resolution) {
    Matches(s, r.KeyOf()) ==> r.KeyOf() !in s.buffered
  }

  /** Redelivery of another key commutes with holding a resolution back. */
  lemma {:induction false} ConsumeBufferCommute(s: State, key: ResolutionKey, r: Resolution)
    requires BufferKeyed(s) && r.KeyOf() != key
    ensures Consume(Buffer(s, r), key.kind, key.id) == Buffer(Consume(s, key.kind, key.id), r)
  {
    assert Provisional(Buffer(s, r), key.id) == Provisional(s, key.id);
    if key in s.buffered && !Provisional(s, key.id) {
      var q, s1 := s.buffered[key], s.(buffered := s.buffered - {key});
      BufferWithout(s, key, r);
      assert Matches(Buffer(s1, r), key) == Matches(s1, key);
      if Matches(s1, key) { FinishBufferCommute(s1, q, r); } else { BufferBufferCommute(s1, r, q); }
    }
  }

  lemma BufferWithout(s: State, key: ResolutionKey, r: Resolution)
    requires r.KeyOf() != key
    ensures var b := Buffer(s, r); b.(buffered := b.buffered - {key}) == Buffer(s.(buffered := s.buffered - {key}), r)
  {
    if r.KeyOf() !in s.resolved + s.buffered.Keys {
      assert (s.buffered[r.KeyOf() := r]) - {key} == (s.buffered - {key})[r.KeyOf() := r];
    }
  }

  /** The key under which a pending task is resolved. */
  predicate Owns(s: State, id: int, key: ResolutionKey) {
    id == key.id && id in s.tasks && HasTask(s.tasks[id].work) && WorkKind(s.tasks[id].work) == key.kind
  }

  lemma {:induction false} ConsumeAtBufferCommute(s: State, id: int, r: Resolution)
    requires CoreInv(s) && !Owns(s, id, r.KeyOf())
    ensures ConsumeAt(Buffer(s, r), id) == Buffer(ConsumeAt(s, id), r)
  {
    hide Numbering.Consume;
    if id in s.tasks && HasTask(s.tasks[id].work) {
      ConsumeBufferCommute(s, Key(WorkKind(s.tasks[id].work), id), r);
    }
  }

  lemma {:induction false} ConsumeAtDeliverCommute(s: State, id: int, r: Resolution)
    requires CoreInv(s) && !Owns(s, id, r.KeyOf())
    ensures ConsumeAt(Deliver(s, r), id) == Deliver(ConsumeAt(s, id), r)
  {
    hide Numbering.Consume, Numbering.CoreInv;
    InvDistinct(s);
    DeliverKeepsTask(s, r, id);
    if id in s.tasks && HasTask(s.tasks[id].work) {
      ConsumeDeliverCommute(s, Key(WorkKind(s.tasks[id].work), id), r);
    }
  }

  lemma DeliverKeepsTask(s: State, r: Resolution, id: int)
    requires !Owns(s, id, r.KeyOf())
    ensures var s' := Deliver(s, r);
            (id in s'.tasks <==> id in s.tasks) && (id in s.tasks ==> s'.tasks[id] == s.tasks[id])
  {
  }

  /** At its own number, a resolution that was held back is redelivered, if it can be. */
  lemma {:induction false} ConsumeOwnBuffered(s: State, r: Resolution)
    requires CoreInv(s)
    ensures ConsumeAt(Buffer(s, r), r.id) == Deliver(ConsumeAt(s, r.id), r)
  {
    var key := r.KeyOf();
    if !Owns(s, r.id, key) {
      assert !Matches(s, key);
      ConsumeAtDeliverCommute(s, r.id, r);
    } else {
      assert forall k :: Provisional(Buffer(s, r), k) == Provisional(s, k);
      if key in s.buffered {
        assert key !in s.resolved && Buffer(s, r) == s;
        OwnBuffered(s, key, r);
      } else {
        assert key !in s.resolved;
        assert (s.buffered[key := r]) - {key} == s.buffered;
      }
    }
  }

  /** A resolution that repeats a buffered one makes no difference. */
  lemma {:induction false} OwnBuffered(s: State, key: ResolutionKey, r: Resolution)
    requires CoreInv(s) && Owns(s, key.id, key) && key in s.buffered && r.KeyOf() == key
    ensures Deliver(ConsumeAt(s, key.id), r) == ConsumeAt(s, key.id)
  {
    if !Provisional(s, key.id) {
      var s1 := s.(buffered := s.buffered - {key});
      assert forall k :: Provisional(s1, k) == Provisional(s, k);
      assert Matches(s1, key);
    }
  }

  /** At its own number, a resolution that has been delivered leaves nothing to redeliver. */
  lemma {:induction false} ConsumeOwnDelivered(s: State, r: Resolution)
    requires CoreInv(s) && Unheard(s, r)
    ensures ConsumeAt(Deliver(s, r), r.id) == Deliver(ConsumeAt(s, r.id), r)
  {
    if Matches(s, r.KeyOf()) {
      assert ConsumeAt(s, r.id) == s;
    } else {
      ConsumeOwnBuffered(s, r);
    }
  }

  lemma {:induction false} ConsumeAtDelivered(s: State, id: int, r: Resolution)
    requires CoreInv(s) && Unheard(s, r)
    ensures ConsumeAt(Deliver(s, r), id) == Deliver(ConsumeAt(s, id), r)
  {
    hide Numbering.ConsumeAt, Numbering.Deliver, Numbering.CoreInv, Unheard;
    if Owns(s, id, r.KeyOf()) { ConsumeOwnDelivered(s, r); } else { ConsumeAtDeliverCommute(s, id, r); }
  }

  /** Redelivery keeps the tables consistent and matches nothing new. */
  lemma {:induction false} ConsumeAtKeeps(s: State, id: int, r: Resolution)
    requires CoreInv(s) && Unheard(s, r)
    ensures CoreInv(ConsumeAt(s, id)) && Unheard(ConsumeAt(s, id), r)
  {
    ConsumeAtKeepsInv(s, id, s.tasks.Keys);
    assert forall k :: Provisional(ConsumeAt(s, id), k) == Provisional(s, k);
  }

  lemma {:induction false} ConsumeEachDelivered(s: State, ids: seq<int>, r: Resolution)
    requires CoreInv(s) && Unheard(s, r)
    ensures ConsumeEach(Deliver(s, r), ids) == Deliver(ConsumeEach(s, ids), r)
    ensures CoreInv(ConsumeEach(s, ids)) && Unheard(ConsumeEach(s, ids), r)
  {
    hide Numbering.ConsumeAt, Numbering.Deliver, Numbering.CoreInv, Unheard;
    if ids != [] {
      var front, id := ids[..|ids| - 1], ids[|ids| - 1];
      ConsumeEachDelivered(s, front, r);
      ConsumeAtDelivered(ConsumeEach(s, front), id, r);
      ConsumeAtKeeps(ConsumeEach(s, front), id, r);
    }
  }

  /** A resolution that was held back and then redelivered among others might as well arrive after them. */
  lemma {:induction false} ConsumeEachBuffered(s: State, ids: seq<int>, r: Resolution)
    requires CoreInv(s)
    ensures CoreInv(ConsumeEach(s, ids))
    ensures r.id !in ids ==> ConsumeEach(Buffer(s, r), ids) == Buffer(ConsumeEach(s, ids), r)
    ensures r.id in ids ==> ConsumeEach(Buffer(s, r), ids) == Deliver(ConsumeEach(s, ids), r)
    ensures r.id in ids ==> Unheard(ConsumeEach(s, ids), r)
  {
    hide Numbering.ConsumeAt, Numbering.Deliver, Numbering.Buffer, Numbering.CoreInv, Unheard;
    if ids != [] {
      var front, id := ids[..|ids| - 1], ids[|ids| - 1];
      ConsumeEachBuffered(s, front, r);
      var s1 := ConsumeEach(s, front);
      ConsumeAtCore(s1, id);
      if r.id in front {
        ConsumeAtDelivered(s1, id, r);
        ConsumeAtKeeps(s1, id, r);
      } else if id == r.id {
        ConsumeOwnBuffered(s1, r);
        OwnIsUnheard(s1, r);
      } else {
        ConsumeAtBufferCommute(s1, id, r);
      }
    }
  }

  lemma {:induction false} ConsumeAtCore(s: State, id: int)
    requires CoreInv(s)
    ensures CoreInv(ConsumeAt(s, id))
  {
    ConsumeAtKeepsInv(s, id, s.tasks.Keys);
  }

  lemma {:induction false} OwnIsUnheard(s: State, r: Resolution)
    requires CoreInv(s)
    ensures Unheard(ConsumeAt(s, r.id), r)
  {
    var key := r.KeyOf();
    assert forall k :: Provisional(ConsumeAt(s, r.id), k) == Provisional(s, k);
    if Owns(s, r.id, key) && key in s.buffered && !Provisional(s, r.id) {
      var s1 := s.(buffered := s.buffered - {key});
      assert Matches(s1, key);
    }
  }

  /******* Drops *******/

  lemma ShiftBuffer(s: State, at: int, r: Resolution)
    requires 0 <= at < |s.order|
    ensures Shift(Buffer(s, r), at) == Buffer(Shift(s, at), r)
  {
  }

  /** A task below the dropped timer is finished in the same way before and after the drop. */
  lemma {:induction false} ShiftFinish(s: State, at: int, r: Resolution)
    requires 0 <= at < |s.order| && r.id in s.tasks && r.id < at
    ensures r.id in Shift(s, at).tasks && Shift(Finish(s, r), at) == Finish(Shift(s, at), r)
  {
    hide Numbering.ShiftMap, Numbering.Renumber, Numbering.Restore;
    ShiftWithout(s.tasks, at, r.id);
    ShiftRestore(s.actions, at, r);
  }

  lemma {:induction false} ShiftWithout<T>(m: map<int, T>, at: int, id: int)
    requires id in m && id < at
    ensures id in ShiftMap(m, at) && ShiftMap(m, at)[id] == m[id] && ShiftMap(m - {id}, at) == ShiftMap(m, at) - {id}
  {
    hide Numbering.ShiftMap;
    assert UnshiftedId(at, id) == id;
    var a, b := ShiftMap(m - {id}, at), ShiftMap(m, at) - {id};
    forall k ensures (k in a <==> k in b) && (k in a ==> a[k] == b[k]) {
      assert UnshiftedId(at, k) == id <==> k == id;
    }
    assert a.Keys == b.Keys;
  }

  lemma {:induction false} ShiftRestore(actions: map<int, Action>, at: int, r: Resolution)
    requires r.id < at
    ensures Renumber(ShiftMap(Restore(actions, r), at)) == Restore(Renumber(ShiftMap(actions, at)), r)
  {
    hide Numbering.ShiftMap, Numbering.Renumber, Numbering.Restore;
    var a, b := Renumber(ShiftMap(Restore(actions, r), at)), Restore(Renumber(ShiftMap(actions, at)), r);
    forall k ensures (k in a <==> k in b) && (k in a ==> a[k] == b[k]) {
      ShiftRestoreAt(actions, at, r, k);
    }
    assert a.Keys == b.Keys;
  }

  lemma {:induction false} ShiftRestoreAt(actions: map<int, Action>, at: int, r: Resolution, k: int)
    requires r.id < at
    ensures var a, b := Renumber(ShiftMap(Restore(actions, r), at)), Restore(Renumber(ShiftMap(actions, at)), r);
            (k in a <==> k in b) && (k in a ==> a[k] == b[k])
  {
    hide Numbering.ShiftMap;
    var j := UnshiftedId(at, k);
    assert UnshiftedId(at, r.id) == r.id && (j == r.id <==> k == r.id);
    assert k in ShiftMap(actions, at) <==> j in actions;
    assert k in ShiftMap(Restore(actions, r), at) <==> j in Restore(actions, r);
    assert r.id in ShiftMap(actions, at) <==> r.id in actions;
  }

  /** The numbers that are redelivered to after a drop. */
  function Moved(s: State, at: int): set<int> {
    set k | k in s.tasks && k >= at
  }

  lemma {:induction false} DropAtDelivered(s: State, at: int, r: Resolution)
    requires Inv(s) && OptionalAt(s, at)
    ensures 0 <= at < |s.order| && OptionalAt(Deliver(s, r), at)
    ensures DropAt(Deliver(s, r), at) == Deliver(DropAt(s, at), r)
  {
    hide Numbering.ConsumeEach, Numbering.Ascending, Numbering.Shift;
    OptionalInRange(s, at);
    ShiftKeepsInv(s, at);
    var s2 := Shift(s, at);
    var ids := Ascending(Moved(s2, at));
    if Matches(s, r.KeyOf()) {
      assert r.id < at;
      ShiftFinish(s, at, r);
      DropAtFinished(s, s2, at, r, ids);
    } else {
      ShiftBuffer(s, at, r);
      DropAtHeld(s, s2, at, r, ids);
    }
    DeliverKeepsOptional(s, r, at);
  }

  lemma OptionalInRange(s: State, at: int)
    requires Inv(s) && OptionalAt(s, at)
    ensures 0 <= at < |s.order| && at in s.optional
  {
  }

  lemma DeliverKeepsOptional(s: State, r: Resolution, id: int)
    ensures OptionalAt(Deliver(s, r), id) == OptionalAt(s, id) && |Deliver(s, r).order| == |s.order|
  {
  }

  lemma {:induction false} DropAtFinished(s: State, s2: State, at: int, r: Resolution, ids: seq<int>)
    requires Inv(s) && 0 <= at < |s.order| && s2 == Shift(s, at) && CoreInv(s2) && Matches(s, r.KeyOf()) && r.id < at
    requires r.id in s2.tasks && Shift(Finish(s, r), at) == Finish(s2, r) && ids == Ascending(Moved(s2, at))
    ensures DropAt(Deliver(s, r), at) == Deliver(DropAt(s, at), r)
  {
    hide Numbering.ConsumeEach, Numbering.Ascending, Numbering.Shift, Numbering.CoreInv, Numbering.Finish;
    ShiftMatches(s, at, r.KeyOf());
    ShiftKeepsBuffer(s, at);
    FinishedTasks(s2, r);
    assert Moved(Finish(s2, r), at) == Moved(s2, at);
    FinishKeepsOrder(s, r);
    ConsumeEachDelivered(s2, ids, r);
  }

  lemma ShiftKeepsBuffer(s: State, at: int)
    requires 0 <= at < |s.order|
    ensures Shift(s, at).buffered == s.buffered
  {
  }

  lemma FinishKeepsOrder(s: State, r: Resolution)
    requires r.id in s.tasks
    ensures Finish(s, r).order == s.order
  {
  }

  /** Below the dropped timer a resolution matches after the drop exactly if it did before. */
  lemma {:induction false} ShiftMatches(s: State, at: int, key: ResolutionKey)
    requires 0 <= at < |s.order| && key.id < at
    ensures Matches(Shift(s, at), key) == Matches(s, key)
  {
    ShiftProvisional(s, at, key.id);
    assert UnshiftedId(at, key.id) == key.id;
  }

  lemma {:induction false} DropAtHeld(s: State, s2: State, at: int, r: Resolution, ids: seq<int>)
    requires Inv(s) && 0 <= at < |s.order| && s2 == Shift(s, at) && CoreInv(s2) && !Matches(s, r.KeyOf())
    requires Shift(Buffer(s, r), at) == Buffer(s2, r) && ids == Ascending(Moved(s2, at))
    ensures DropAt(Deliver(s, r), at) == Deliver(DropAt(s, at), r)
  {
    hide Numbering.ConsumeEach, Numbering.Ascending, Numbering.Shift, Numbering.CoreInv, Numbering.Buffer;
    BufferKeepsTasks(s2, r);
    assert Moved(Buffer(s2, r), at) == Moved(s2, at);
    if r.id in ids {
      ConsumeEachBuffered(s2, ids, r);
    } else {
      if r.id < at { ShiftMatches(s, at, r.KeyOf()); }
      assert !Matches(s2, r.KeyOf());
      ConsumeEachDelivered(s2, ids, r);
    }
  }

  lemma BufferKeepsTasks(s: State, r: Resolution)
    ensures Buffer(s, r).tasks == s.tasks && Buffer(s, r).order == s.order
  {
  }

  lemma {:induction false} DropAllDelivered(s: State, id: int, r: Resolution)
    requires Inv(s)
    ensures Inv(Deliver(s, r)) && DropAll(Deliver(s, r), id) == Deliver(DropAll(s, id), r)
    decreases |s.order|
  {
    hide Numbering.DropAt, Numbering.CoreInv, Numbering.Deliver;
    DeliverKeepsInv(s, r);
    DeliverKeepsOptional(s, r, id);
    if OptionalAt(s, id) {
      DropAtKeepsInv(s, id);
      DropAtDelivered(s, id, r);
      DropAllDelivered(DropAt(s, id), id, r);
    }
  }

  /******* Recorded schedules *******/

  /** Retiring an action commutes with a delivery, which at most gives it its identity. */
  lemma {:induction false} RetireDelivered(s: State, e: ScheduleEvent, r: Resolution)
    ensures Retire(Deliver(s, r), e).1 == Retire(s, e).1
    ensures Retire(Deliver(s, r), e).0 == Deliver(Retire(s, e).0, r)
  {
    var s1 := Retire(s, e).0;
    assert forall k :: Provisional(s1, k) == Provisional(s, k);
    assert Matches(s1, r.KeyOf()) == Matches(s, r.KeyOf());
    WithoutRestore(s.actions, e.id, r);
  }

  lemma WithoutRestore(actions: map<int, Action>, id: int, r: Resolution)
    ensures Restore(actions - {id}, r) == Restore(actions, r) - {id}
    ensures id in Restore(actions, r) <==> id in actions
    ensures id in actions ==> Restore(actions, r)[id].item == actions[id].item
  {
  }

  /** A timer is retired and no longer optional; nothing is redelivered yet. */
  function Settled(s: State, id: int): State {
    s.(actions := s.actions - {id}, optional := s.optional - {id})
  }

  lemma {:induction false} SettledBuffer(s: State, id: int, r: Resolution)
    ensures Settled(Buffer(s, r), id) == Buffer(Settled(s, id), r)
  {
  }

  lemma {:induction false} SettledFinish(s: State, id: int, r: Resolution)
    requires r.id in s.tasks
    ensures Settled(Finish(s, r), id) == Finish(Settled(s, id), r)
  {
    WithoutRestore(s.actions, id, r);
  }

  /** Redelivering to a number without a task does nothing. */
  lemma {:induction false} AbsentIsSkipped(s: State, ids: set<int>, m: int)
    requires m !in s.tasks && m in ids
    ensures ConsumeEach(s, Ascending(ids)) == ConsumeEach(s, Ascending(ids - {m}))
    decreases ids
  {
    hide Numbering.ConsumeAt, Numbering.Max, Numbering.Ascending, Numbering.ConsumeEach, Numbering.Sorted;
    var last := Max(ids);
    var front := Ascending(ids - {last});
    AscendingLast(ids, last);
    ConsumeEachLast(s, front, last);
    if last == m {
      ConsumeEachKeepsAbsent(s, front, m);
      AbsentConsumes(ConsumeEach(s, front), m);
    } else {
      AbsentIsSkipped(s, ids - {last}, m);
      assert ids - {m} - {last} == ids - {last} - {m};
      AscendingLast(ids - {m}, last);
      ConsumeEachLast(s, Ascending(ids - {last} - {m}), last);
    }
  }

  lemma {:induction false} AscendingLast(ids: set<int>, last: int)
    requires last in ids && forall x :: x in ids ==> x <= last
    ensures Ascending(ids) == Ascending(ids - {last}) + [last]
  {
    hide Numbering.Max, Numbering.Sorted;
    assert Max(ids) == last;
  }

  lemma {:induction false} ConsumeEachLast(s: State, front: seq<int>, last: int)
    ensures ConsumeEach(s, front + [last]) == ConsumeAt(ConsumeEach(s, front), last)
  {
    assert (front + [last])[..|front|] == front;
  }

  lemma AbsentConsumes(s: State, m: int)
    requires m !in s.tasks
    ensures ConsumeAt(s, m) == s
  {
  }

  lemma {:induction false} ConsumeEachKeepsAbsent(s: State, ids: seq<int>, m: int)
    requires m !in s.tasks
    ensures m !in ConsumeEach(s, ids).tasks
  {
    if ids != [] { ConsumeEachKeepsAbsent(s, ids[..|ids| - 1], m); }
  }

  lemma {:induction false} ConfirmDelivered(s: State, id: int, r: Resolution)
    requires Inv(s)
    ensures ConfirmTimer(Deliver(s, r), id) == Deliver(ConfirmTimer(s, id), r)
  {
    hide Numbering.ConsumeEach, Numbering.Ascending, Numbering.CoreInv, Numbering.Finish, Numbering.Buffer, Settled;
    var s2 := Settled(s, id);
    var all := s2.tasks.Keys;
    ConfirmIs(s, id);
    ConfirmIs(Deliver(s, r), id);
    ConfirmedCore(s, id);
    SettledFields(s, id);
    if Matches(s, r.KeyOf()) {
      SettledFinish(s, id, r);
      SettledMatches(s, id, r.KeyOf());
      ConsumeEachDelivered(s2, Ascending(all), r);
      FinishedTasks(s2, r);
      AbsentIsSkipped(Finish(s2, r), all, r.id);
    } else {
      SettledBuffer(s, id, r);
      BufferKeepsTasks(s2, r);
      if r.id in all {
        ConsumeEachBuffered(s2, Ascending(all), r);
      } else {
        ConsumeEachDelivered(s2, Ascending(all), r);
      }
    }
  }

  lemma ConfirmIs(s: State, id: int)
    ensures ConfirmTimer(s, id) == ConsumeEach(Settled(s, id), Ascending(Settled(s, id).tasks.Keys))
  {
  }

  lemma SettledFields(s: State, id: int)
    ensures var s2 := Settled(s, id);
            && s2.tasks == s.tasks && s2.buffered == s.buffered
            && s2 == s.(actions := s.actions - {id}, optional := s.optional - {id})
  {
  }

  lemma SettledMatches(s: State, id: int, key: ResolutionKey)
    requires Matches(s, key)
    ensures Matches(Settled(s, id), key)
  {
  }

  lemma FinishedTasks(s: State, r: Resolution)
    requires r.id in s.tasks
    ensures Finish(s, r).tasks.Keys == s.tasks.Keys - {r.id} && r.id !in Finish(s, r).tasks
  {
  }

  lemma {:induction false} OnTimerDelivered(s: State, e: ScheduleEvent, r: Resolution)
    requires Inv(s) && e.TimerCreated? && Inv(Deliver(s, r))
    ensures OnTimerRecorded(Deliver(s, r), e).1 == OnTimerRecorded(s, e).1
    ensures OnTimerRecorded(Deliver(s, r), e).0 == Deliver(OnTimerRecorded(s, e).0, r)
  {
    hide Numbering.DropAll, Numbering.ConfirmTimer, Numbering.Deliver, Numbering.CoreInv, Numbering.Retire;
    DropAllDelivered(s, e.id, r);
    DropAllKeepsInv(s, e.id);
    var s1 := if OptionalTimer(e.origin, e.fireAt) then s else DropAll(s, e.id);
    RetireDelivered(s1, e, r);
    ConfirmDelivered(s1, e.id, r);
  }

  lemma {:induction false} OnWorkDelivered(s: State, e: ScheduleEvent, r: Resolution)
    requires Inv(s) && Inv(Deliver(s, r))
    ensures OnWorkRecorded(Deliver(s, r), e).1 == OnWorkRecorded(s, e).1
    ensures OnWorkRecorded(Deliver(s, r), e).0 == Deliver(OnWorkRecorded(s, e).0, r)
  {
    hide Numbering.DropAll, Numbering.Deliver, Numbering.CoreInv, Numbering.Retire;
    DropAllDelivered(s, e.id, r);
    RetireDelivered(DropAll(s, e.id), e, r);
  }

  lemma {:induction false} OnDetachedDelivered(s: State, e: ScheduleEvent, r: Resolution)
    requires Inv(s) && Inv(Deliver(s, r))
    ensures OnDetachedRecorded(Deliver(s, r), e).1 == OnDetachedRecorded(s, e).1
    ensures OnDetachedRecorded(Deliver(s, r), e).0 == Deliver(OnDetachedRecorded(s, e).0, r)
  {
    hide Numbering.DropAt, Numbering.Deliver, Numbering.CoreInv, Numbering.Retire;
    DeliverKeepsOptional(s, r, e.id);
    if OptionalAt(s, e.id) {
      DropAtDelivered(s, e.id, r);
      RetireDelivered(DropAt(s, e.id), e, r);
    } else {
      RetireDelivered(s, e, r);
    }
  }

  /** A recorded schedule is accepted or refused alike, and leads to the same state. */
  lemma {:induction false} RecordDeliverCommute(s: State, e: ScheduleEvent, r: Resolution)
    requires Inv(s)
    ensures Inv(Deliver(s, r)) && OnScheduled(Deliver(s, r), e).1 == OnScheduled(s, e).1
    ensures OnScheduled(Deliver(s, r), e).0 == Deliver(OnScheduled(s, e).0, r)
  {
    hide Numbering.Inv, Numbering.Deliver;
    hide Numbering.OnWorkRecorded, Numbering.OnDetachedRecorded, Numbering.OnTimerRecorded;
    DeliverKeepsInv(s, r);
    match e {
      case TaskScheduled(_) => OnWorkDelivered(s, e, r);
      case ChildCreated(_) => OnWorkDelivered(s, e, r);
      case DetachedCreated(_, _) => OnDetachedDelivered(s, e, r);
      case TimerCreated(_, _, _) => OnTimerDelivered(s, e, r);
    }
  }

  /******* Schedule calls and withdrawals *******/

  /** Registering new work commutes with a delivery unless the work is what the resolution is for. */
  lemma {:induction false} RegisterDelivered(s: State, w: Work, r: Resolution)
    requires Inv(s) && (r.id != s.seqNo || Provisional(Register(s, w), r.id))
    ensures Deliver(Register(s, w), r) == Register(Deliver(s, r), w)
  {
    if r.id < s.seqNo { RegisterKeepsInv(s, w); }
    if Matches(s, r.KeyOf()) {
      assert Matches(Register(s, w), r.KeyOf());
      RegisterFinishCommute(s, w, r);
    } else {
      assert !Matches(Register(s, w), r.KeyOf());
    }
  }

  lemma {:induction false} CallDelivered(s: State, w: Work, r: Resolution)
    requires Inv(s)
    ensures Deliver(Schedule(s, w), r) == Schedule(Deliver(s, r), w)
  {
    hide Numbering.CoreInv, Numbering.NoLostWakeUp, Numbering.Register, Numbering.Consume, Numbering.Deliver;
    var reg := Register(s, w);
    SeqNoStays(s, r);
    if r.id == s.seqNo && !Provisional(reg, r.id) {
      ScheduleDeliverSame(s, w, r);
    } else {
      RegisterDelivered(s, w, r);
      RegisterKeepsInv(s, w);
      InvDistinct(reg);
      if HasTask(w) {
        var key := Key(WorkKind(w), s.seqNo);
        if key != r.KeyOf() { ConsumeDeliverCommute(reg, key, r); } else { ProvisionalStays(reg, r, key); }
      }
    }
  }

  lemma SeqNoStays(s: State, r: Resolution)
    ensures Deliver(s, r).seqNo == s.seqNo
  {
  }

  /** Nothing is redelivered to a provisional number. */
  lemma ProvisionalStays(s: State, r: Resolution, key: ResolutionKey)
    requires Provisional(s, key.id)
    ensures Consume(s, key.kind, key.id) == s && Consume(Deliver(s, r), key.kind, key.id) == Deliver(s, r)
  {
    DeliverKeepsProvisional(s, r, key.id);
  }

  lemma {:induction false} WithdrawDelivered(s: State, id: int, r: Resolution)
    ensures Discard(Deliver(s, r), id) == Deliver(Discard(s, id), r)
  {
    var s1 := s.(actions := s.actions - {id});
    assert forall k :: Provisional(s1, k) == Provisional(s, k);
    assert Matches(s1, r.KeyOf()) == Matches(s, r.KeyOf());
    WithoutRestore(s.actions, id, r);
  }

  /******* Whole runs *******/

  lemma {:induction false} NextDelivered(s: State, step: Step, r: Resolution)
    requires Inv(s) && (step.Resolve? ==> step.r.KeyOf() != r.KeyOf())
    ensures Inv(Deliver(s, r)) && Next(Deliver(s, r), step) == Deliver(Next(s, step), r)
  {
    hide Numbering.CoreInv, Numbering.Deliver, Numbering.Schedule, Numbering.OnScheduled, Discard;
    DeliverKeepsInv(s, r);
    match step {
      case Call(w) => CallDelivered(s, w, r);
      case Resolve(q) => InvDistinct(s); DeliverDeliverCommute(s, r, q);
      case Record(e) => RecordDeliverCommute(s, e, r);
      case Withdraw(id) => WithdrawDelivered(s, id, r);
    }
  }

  /**
   Early and late results agree: a resolution may arrive before or after any run of schedule calls, other
   results, recorded schedules with their drops and confirmations, and withdrawals, and the replay ends in
   the same state, provisional numbers or not.
   */
  lemma {:induction false} EarlyEqualsLate(s: State, steps: seq<Step>, r: Resolution)
    requires Inv(s) && forall i :: 0 <= i < |steps| && steps[i].Resolve? ==> steps[i].r.KeyOf() != r.KeyOf()
    ensures Inv(Deliver(s, r)) && Run(Deliver(s, r), steps) == Deliver(Run(s, steps), r)
    decreases steps
  {
    hide Numbering.Inv, Numbering.Deliver, Next;
    DeliverKeepsInv(s, r);
    if steps != [] {
      NextKeepsInv(s, steps[0]);
      NextDelivered(s, steps[0], r);
      EarlyEqualsLate(Next(s, steps[0]), steps[1..], r);
    }
  }

  /** The steps that do not deliver a resolution of this key. */
  function Without(steps: seq<Step>, key: ResolutionKey): seq<Step> {
    if steps == [] then []
    else (if steps[0].Resolve? && steps[0].r.KeyOf() == key then [] else [steps[0]]) + Without(steps[1..], key)
  }

  lemma {:induction false} WithoutKey(steps: seq<Step>, key: ResolutionKey)
    ensures forall x :: x in Without(steps, key) && x.Resolve? ==> x.r.KeyOf() != key
    decreases steps
  {
    if steps != [] {
      WithoutKey(steps[1..], key);
    }
  }

  /** Whatever happens in between, every later resolution of a key that has arrived is ignored. */
  lemma {:induction false} LaterDuplicatesIgnored(s: State, steps: seq<Step>, r: Resolution)
    requires Inv(s)
    ensures Inv(Deliver(s, r)) && Run(Deliver(s, r), steps) == Run(Deliver(s, r), Without(steps, r.KeyOf()))
    decreases steps
  {
    hide Numbering.Inv, Numbering.Deliver;
    DeliverKeepsInv(s, r);
    if steps == [] {
    } else if steps[0].Resolve? && steps[0].r.KeyOf() == r.KeyOf() {
      DuplicateIsNoOp(s, r, steps[0].r);
      LaterDuplicatesIgnored(s, steps[1..], r);
      assert Without(steps, r.KeyOf()) == Without(steps[1..], r.KeyOf());
    } else {
      hide Next;
      NextKeepsInv(s, steps[0]);
      NextDelivered(s, steps[0], r);
      LaterDuplicatesIgnored(Next(s, steps[0]), steps[1..], r);
    }
  }

  /**
   Only the first resolution of a key counts, whenever it arrives: the replay ends as if the run had none of
   that key and this one came last.
   */
  lemma {:induction false} FirstResolutionCounts(s: State, steps: seq<Step>, r: Resolution)
    requires Inv(s)
    ensures Inv(Deliver(s, r)) && Run(Deliver(s, r), steps) == Deliver(Run(s, Without(steps, r.KeyOf())), r)
  {
    hide Numbering.Inv, Numbering.Deliver, Next, Run;
    LaterDuplicatesIgnored(s, steps, r);
    WithoutKey(steps, r.KeyOf());
    EarlyEqualsLate(s, Without(steps, r.KeyOf()), r);
  }
}
