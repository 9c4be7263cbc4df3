/**
 The replay engine as it is written: one object whose fields the handlers update in place
 (task/orchestrator.go). Each method is proved against the corresponding function on values.

 Task objects are represented by the Item or Waiter they belong to, with their results in the
 maps results and waits. The lists of waiting tasks are objects of their own: a wait keeps a
 reference to the list it joined, and that list may have been unlinked when its timer fires.
 */
module WorkflowContexts {
  import opened Work
  import N = Numbering
  import T = NumberingTheorems
  import X = ExternalEvents
  import opened Replay
  import opened ContextFacts
  import opened Shifting

  /** The history of a replay and the position in it (lines 273-290). */
  class HistoryReader {
    const oldEvents: seq<Event>
    const newEvents: seq<Event>
    var index: nat
    var isReplaying: bool

    constructor (oldEvents: seq<Event>, newEvents: seq<Event>)
      ensures this.oldEvents == oldEvents && this.newEvents == newEvents && index == 0
    {
      this.oldEvents, this.newEvents, index, isReplaying := oldEvents, newEvents, 0, false;
    }

    /** The next event, the old ones first; at the end nothing changes any more. */
    method GetNextHistoryEvent() returns (e: Option<Event>)
      modifies this
      ensures var h, i := oldEvents + newEvents, old(index);
              if i >= |h| then e.None? && index == i && isReplaying == old(isReplaying)
              else e == Some(h[i]) && index == i + 1 && (isReplaying <==> i < |oldEvents|)
    {
      if index >= |oldEvents| + |newEvents| {
        return None;
      } else if index < |oldEvents| {
        isReplaying := true;
        e := Some(oldEvents[index]);
      } else {
        isReplaying := false;
        e := Some(newEvents[index - |oldEvents|]);
      }
      index := index + 1;
    }
  }

  class WorkflowContext {
    const history: HistoryReader

    var sequenceNumber: int
    var issued: nat
    var pendingActions: map<int, Action>
    var pendingTasks: map<int, Item>
    var optionalTimerIDs: set<int>
    var bufferedResolutions: map<ResolutionKey, Resolution>
    var resolvedResolutions: set<ResolutionKey>
    var results: map<Item, Outcome>
    var callbacks: map<Item, X.Waiter>

    var bufferedExternalEvents: map<Name, seq<string>>
    var lists: seq<seq<X.Waiter>>
    var pendingExternalEventTasks: map<Name, nat>
    var listOf: map<X.Waiter, nat>
    var waits: map<X.Waiter, X.WaitOutcome>
    var waiters: seq<X.Waiter>

    var suspendedEvents: seq<Event>
    var isSuspended: bool
    var isTerminated: bool
    var continuedAsNew: bool
    var saveBufferedExternalEvents: bool

    ghost var order: seq<Item>
    ghost var owner: seq<Name>
    ghost var received: map<Name, seq<string>>
    ghost var arrived: seq<Event>
    ghost var handled: seq<Event>

    ghost function Core(): N.State
      reads this
    {
      N.State(order, sequenceNumber, issued, pendingActions, pendingTasks, optionalTimerIDs,
              bufferedResolutions, resolvedResolutions, results)
    }

    ghost function Ext(): X.Ext
      reads this
    {
      X.Ext(bufferedExternalEvents, Deref(pendingExternalEventTasks, lists), waits, waiters, received)
    }

    ghost function View(): State
      reads this
    {
      State(Core(), Ext(), callbacks, isSuspended, suspendedEvents, isTerminated, continuedAsNew,
            saveBufferedExternalEvents, arrived, handled)
    }

    /** What holds even between the parts of a handler. */
    ghost predicate Sound()
      reads this
    {
      && Wired(Ext(), pendingExternalEventTasks, lists, owner, listOf)
      && N.CoreInv(Core())
      && Bound(Ext(), callbacks, issued, results)
    }

    ghost predicate Valid()
      reads this
    {
      Sound() && N.NoLostWakeUp(Core(), {}) && HeldIn(suspendedEvents)
    }

    constructor (oldEvents: seq<Event>, newEvents: seq<Event>)
      ensures Valid() && View() == INIT && fresh(history)
      ensures history.oldEvents == oldEvents && history.newEvents == newEvents && history.index == 0
    {
      history := new HistoryReader(oldEvents, newEvents);
      sequenceNumber, issued := 0, 0;
      pendingActions, pendingTasks, optionalTimerIDs := map[], map[], {};
      bufferedResolutions, resolvedResolutions, results, callbacks := map[], {}, map[], map[];
      bufferedExternalEvents, lists, pendingExternalEventTasks, listOf := map[], [], map[], map[];
      waits, waiters := map[], [];
      suspendedEvents, isSuspended, isTerminated := [], false, false;
      continuedAsNew, saveBufferedExternalEvents := false, false;
      order, owner, received, arrived, handled := [], [], map[], [], [];
    }

    /** The callback of the timer behind a wait (lines 744-760). */
    method OnWaitTimerFired(w: X.Waiter)
      requires Wired(Ext(), pendingExternalEventTasks, lists, owner, listOf) && X.Inv(Ext()) && X.Issued(Ext(), w)
      modifies this`waits, this`lists, this`pendingExternalEventTasks
      ensures Wired(Ext(), pendingExternalEventTasks, lists, owner, listOf)
      ensures Ext() == X.Expire(old(Ext()), {w})
    {
      hide X.Inv, X.Expire, X.Without, Deref, Wired;
      ghost var before := Ext();
      if w in waits {
        DoneExpires(before, w);
        return;
      }
      WiredExpire(before, pendingExternalEventTasks, lists, owner, listOf, w);
      var l := listOf[w];
      var q := lists[l];
      if |q| > 1 {
        waits, lists := waits[w := X.Cancelled], lists[l := X.Without(q, {w})];
      } else {
        waits, pendingExternalEventTasks := waits[w := X.Cancelled], pendingExternalEventTasks - {w.name};
      }
    }

    /******* Resolutions (lines 863-928 and 987-1119) *******/

    method ResolutionIDProvisional(id: int) returns (provisional: bool)
      ensures provisional == N.Provisional(Core(), id)
    {
      var rest := optionalTimerIDs;
      while rest != {}
        invariant rest <= optionalTimerIDs
        invariant forall t :: t in optionalTimerIDs && t !in rest ==> t > id
        decreases rest
      {
        var t := Pick(rest);
        if t <= id { return true; }
        rest := rest - {t};
      }
      return false;
    }

    method BufferResolution(r: Resolution)
      modifies this`bufferedResolutions
      ensures Core() == N.Buffer(old(Core()), r)
    {
      var key := r.KeyOf();
      if key in resolvedResolutions { return; }
      if key in bufferedResolutions { return; }
      bufferedResolutions := bufferedResolutions[key := r];
    }

    /** Takes a task out of the pending ones and stores its result. */
    method ResolveTask(r: Resolution) returns (item: Item)
      requires r.id in pendingTasks
      modifies this`pendingTasks, this`resolvedResolutions, this`pendingActions, this`results
      ensures item == old(pendingTasks)[r.id] && Core() == N.Finish(old(Core()), r)
    {
      hide N.Restore;
      item := pendingTasks[r.id];
      pendingTasks, resolvedResolutions := pendingTasks - {r.id}, resolvedResolutions + {r.KeyOf()};
      pendingActions, results := N.Restore(pendingActions, r), results[item := OutcomeOf(r)];
    }

    method CompleteTask(r: Resolution)
      requires Sound() && N.Matches(Core(), r.KeyOf()) && r.KeyOf() !in bufferedResolutions
      modifies this`pendingTasks, this`resolvedResolutions, this`pendingActions, this`results
      modifies this`waits, this`lists, this`pendingExternalEventTasks
      ensures Sound() && Core() == N.Finish(old(Core()), r)
      ensures Ext() == X.Expire(old(Ext()), Fired(callbacks, old(results), results))
    {
      hide X.Inv, X.Expire, Deref, Wired, Bound, N.CoreInv, Fired, N.Matches, X.Issued;
      ghost var c, x := Core(), Ext();
      FinishFires(c, x, callbacks, r);
      var item := ResolveTask(r);
      assert Ext() == x && results == N.Finish(c, r).outcome && issued == c.issued;
      if item in callbacks {
        OnWaitTimerFired(callbacks[item]);
      }
    }

    method HoldBack(r: Resolution)
      requires Sound() && !N.Matches(Core(), r.KeyOf())
      modifies this`bufferedResolutions
      ensures Sound() && Core() == N.Buffer(old(Core()), r)
      ensures Ext() == X.Expire(old(Ext()), Fired(callbacks, old(results), results))
    {
      hide X.Inv, X.Expire, Deref, Wired, Bound, N.CoreInv, Fired, N.Buffer, N.Matches;
      ghost var c, x := Core(), Ext();
      BufferFires(c, x, callbacks, r);
      BufferResolution(r);
      assert Ext() == x && results == c.outcome && issued == c.issued;
    }

    /** One handler for the five kinds of resolution events. */
    method OnResolved(r: Resolution)
      requires Sound() && (N.Matches(Core(), r.KeyOf()) ==> r.KeyOf() !in bufferedResolutions)
      modifies this`pendingTasks, this`resolvedResolutions, this`pendingActions, this`results, this`bufferedResolutions
      modifies this`waits, this`lists, this`pendingExternalEventTasks
      ensures Sound() && Core() == N.Deliver(old(Core()), r)
      ensures Ext() == X.Expire(old(Ext()), Fired(callbacks, old(results), results))
    {
      hide X.Inv, X.Expire, Deref, Wired, Bound, N.CoreInv, Fired, N.Finish, N.Buffer, N.Matches, N.Provisional;
      MatchesWhen(Core(), r);
      var provisional := ResolutionIDProvisional(r.id);
      if r.id !in pendingTasks || WorkKind(pendingTasks[r.id].work) != r.KindOf() || provisional {
        HoldBack(r);
      } else {
        CompleteTask(r);
      }
    }

    /** Takes a resolution out of the buffer and delivers it again. */
    method Redeliver(key: ResolutionKey)
      requires Sound() && key in bufferedResolutions
      modifies this`pendingTasks, this`resolvedResolutions, this`pendingActions, this`results, this`bufferedResolutions
      modifies this`waits, this`lists, this`pendingExternalEventTasks
      ensures Sound()
      ensures var c := old(Core()); Core() == N.Deliver(c.(buffered := c.buffered - {key}), c.buffered[key])
      ensures Ext() == X.Expire(old(Ext()), Fired(callbacks, old(results), results))
    {
      hide X.Inv, X.Expire, Deref, Wired, Bound, N.CoreInv, Fired, N.Deliver, N.Matches;
      ghost var c, x := Core(), Ext();
      Unbuffered(c, key);
      var r := bufferedResolutions[key];
      bufferedResolutions := bufferedResolutions - {key};
      assert Ext() == x && results == c.outcome && issued == c.issued;
      OnResolved(r);
    }

    method ConsumeBufferedResolution(kind: Kind, id: int)
      requires Sound()
      modifies this`pendingTasks, this`resolvedResolutions, this`pendingActions, this`results, this`bufferedResolutions
      modifies this`waits, this`lists, this`pendingExternalEventTasks
      ensures Sound() && Core() == N.Consume(old(Core()), kind, id)
      ensures Ext() == X.Expire(old(Ext()), Fired(callbacks, old(results), results))
    {
      hide X.Inv, X.Expire, Deref, Wired, Bound, N.CoreInv, Fired, N.Deliver, N.Provisional;
      NothingFires(Core(), Ext(), callbacks);
      var key := Key(kind, id);
      if key !in bufferedResolutions { return; }
      var provisional := ResolutionIDProvisional(id);
      if provisional { return; }
      Redeliver(key);
    }

    /** Redelivers to each of these numbers in turn. */
    method ConsumeEach(ids: seq<int>)
      requires Sound()
      modifies this`pendingTasks, this`resolvedResolutions, this`pendingActions, this`results, this`bufferedResolutions
      modifies this`waits, this`lists, this`pendingExternalEventTasks
      ensures Sound() && Core() == N.ConsumeEach(old(Core()), ids)
      ensures Ext() == X.Expire(old(Ext()), Fired(callbacks, old(results), results))
    {
      hide X.Inv, X.Expire, Deref, Wired, Bound, N.CoreInv, Fired, N.Consume;
      ghost var c, x := Core(), Ext();
      NothingFires(c, x, callbacks);
      for i := 0 to |ids|
        invariant Sound() && Core() == N.ConsumeEach(c, ids[..i])
        invariant Ext() == X.Expire(x, Fired(callbacks, c.outcome, results))
      {
        ghost var mid := results;
        ConsumeEachSnoc(c, ids, i);
        TasksHaveKinds(Core());
        if ids[i] in pendingTasks {
          ConsumeBufferedResolution(WorkKind(pendingTasks[ids[i]].work), ids[i]);
          FiredTwice(x, callbacks, c.outcome, mid, results);
        }
      }
      assert ids[..|ids|] == ids;
    }

    method ConsumeReadyBufferedResolutions()
      requires Sound()
      modifies this`pendingTasks, this`resolvedResolutions, this`pendingActions, this`results, this`bufferedResolutions
      modifies this`waits, this`lists, this`pendingExternalEventTasks
      ensures Sound() && Core() == N.ConsumeEach(old(Core()), N.Ascending(old(pendingTasks).Keys))
      ensures Ext() == X.Expire(old(Ext()), Fired(callbacks, old(results), results))
    {
      hide X.Inv, X.Expire, Deref, Wired, Bound, N.CoreInv, Fired, N.Consume, N.ConsumeEach;
      if |bufferedResolutions| == 0 {
        NothingFires(Core(), Ext(), callbacks);
        NothingBuffered(Core(), N.Ascending(pendingTasks.Keys));
        return;
      }
      ConsumeEach(N.Ascending(pendingTasks.Keys));
    }

    /******* Dropping an optional timer (lines 1302-1362) *******/

    method ShiftActions(at: int)
      requires N.CoreInv(Core())
      modifies this`pendingActions, this`optionalTimerIDs
      ensures pendingActions == N.Renumber(N.ShiftMap(old(pendingActions), at))
      ensures optionalTimerIDs == N.ShiftKeys(old(optionalTimerIDs), at)
    {
      hide Moved, MovedKeys, Members, N.Renumber, N.ShiftMap, N.ShiftKeys, N.Ascending, N.CoreInv;
      ghost var full, optional := pendingActions, optionalTimerIDs;
      ActionIds(Core());
      pendingActions, optionalTimerIDs := pendingActions - {at}, optionalTimerIDs - {at};
      ghost var m := pendingActions;
      var later := Later(pendingActions, at);
      var ids := N.Ascending(later);
      TakenFrom(later);
      RenumberedStart(m);
      MovedKeysStart(optionalTimerIDs);
      for i := 0 to |ids|
        invariant Members(ids[..i]) <= later
        invariant pendingActions == N.Renumber(Moved(m, Members(ids[..i])))
        invariant optionalTimerIDs == MovedKeys(optional - {at}, Members(ids[..i]))
      {
        var id := ids[i];
        ghost var done := Members(ids[..i]);
        TakenNext(ids, i);
        RenumberedStep(m, done, id);
        MovedKeysStep(optional - {at}, done, id);
        var action := pendingActions[id];
        pendingActions := (pendingActions - {id})[id - 1 := action.(id := id - 1)];
        if id in optionalTimerIDs {
          optionalTimerIDs := optionalTimerIDs - {id} + {id - 1};
        }
      }
      MovedEnd(full, at);
      MovedKeysEnd(optional, at, later);
    }

    method ShiftTasks(at: int) returns (ids: seq<int>)
      modifies this`pendingTasks
      ensures pendingTasks == N.ShiftMap(old(pendingTasks), at)
      ensures ids == N.Ascending(Later(old(pendingTasks) - {at}, at))
    {
      hide Moved, Members, N.ShiftMap, N.Ascending;
      ghost var full := pendingTasks;
      pendingTasks := pendingTasks - {at};
      ghost var m := pendingTasks;
      ghost var later := Later(m, at);
      ids := N.Ascending(Later(pendingTasks, at));
      TakenFrom(later);
      MovedStart(m);
      for i := 0 to |ids|
        invariant Members(ids[..i]) <= later
        invariant pendingTasks == Moved(m, Members(ids[..i]))
      {
        var id := ids[i];
        TakenNext(ids, i);
        MovedStep(m, Members(ids[..i]), id);
        pendingTasks := (pendingTasks - {id})[id - 1 := pendingTasks[id]];
      }
      MovedEnd(full, at);
    }

    /** Removes number at from every table and moves every later number down by one. */
    method ShiftDown(at: int) returns (ids: seq<int>)
      requires N.CoreInv(Core()) && 0 <= at < |order|
      modifies this`pendingActions, this`optionalTimerIDs, this`pendingTasks, this`sequenceNumber, this`order
      ensures Core() == N.Shift(old(Core()), at)
      ensures ids == N.Ascending(Later(old(pendingTasks) - {at}, at))
    {
      hide N.CoreInv, N.Ascending, N.ShiftMap, N.ShiftKeys, N.Renumber, N.Without, Later;
      ShiftActions(at);
      ids := ShiftTasks(at);
      sequenceNumber := sequenceNumber - 1;
      order := N.Without(order, at);
    }

    method DropOptionalExternalEventTimerAt(at: int) returns (dropped: bool)
      requires Valid()
      modifies this`pendingActions, this`optionalTimerIDs, this`pendingTasks, this`sequenceNumber, this`order
      modifies this`resolvedResolutions, this`results, this`bufferedResolutions
      modifies this`waits, this`lists, this`pendingExternalEventTasks
      ensures Valid() && dropped == N.OptionalAt(old(Core()), at)
      ensures dropped ==> 0 <= at < |old(order)| && Core() == N.DropAt(old(Core()), at)
      ensures !dropped ==> Core() == old(Core())
      ensures Ext() == X.Expire(old(Ext()), Fired(callbacks, old(results), results))
    {
      hide X.Inv, X.Expire, Deref, Wired, Bound, N.CoreInv, N.NoLostWakeUp, Fired, HeldIn;
      hide N.ConsumeEach, N.Ascending, N.Shift, N.DropAt, Decremented, Later;
      ghost var c, x := Core(), Ext();
      if at !in pendingActions || !IsOptional(pendingActions[at].item.work) {
        NothingFires(c, x, callbacks);
        return false;
      }
      DropSteps(c, at);
      var ids := ShiftDown(at);
      assert Ext() == x && results == c.outcome && issued == c.issued;
      ConsumeEach(Decremented(ids));
      return true;
    }

    /******* Recorded schedules (lines 843-861, 1025-1044, 1082-1103; task/detached.go:178-206) *******/

    method DropOptionalTimersAt(id: int)
      requires Valid()
      modifies this`pendingActions, this`optionalTimerIDs, this`pendingTasks, this`sequenceNumber, this`order
      modifies this`resolvedResolutions, this`results, this`bufferedResolutions
      modifies this`waits, this`lists, this`pendingExternalEventTasks
      ensures Valid() && Core() == N.DropAll(old(Core()), id) && !N.OptionalAt(Core(), id)
      ensures Ext() == X.Expire(old(Ext()), Fired(callbacks, old(results), results))
    {
      hide X.Inv, X.Expire, Deref, Wired, Bound, N.CoreInv, N.NoLostWakeUp, Fired, HeldIn;
      hide N.DropAt, N.DropAll, N.OptionalAt;
      ghost var c, x := Core(), Ext();
      DropAllUnfolds(c, id);
      var dropped := DropOptionalExternalEventTimerAt(id);
      while dropped
        invariant Valid() && N.DropAll(Core(), id) == N.DropAll(c, id) && (!dropped ==> !N.OptionalAt(Core(), id))
        invariant Ext() == X.Expire(x, Fired(callbacks, c.outcome, results)) && c.outcome.Keys <= results.Keys
        decreases |order|, dropped
      {
        ghost var mid := results;
        DropAllUnfolds(Core(), id);
        dropped := DropOptionalExternalEventTimerAt(id);
        FiredTwice(x, callbacks, c.outcome, mid, results);
      }
      DropAllUnfolds(Core(), id);
    }

    /** Recorded activities and child workflows. */
    method OnWorkScheduled(e: ScheduleEvent) returns (ok: bool)
      requires Valid() && (e.TaskScheduled? || e.ChildCreated?)
      modifies this`pendingActions, this`optionalTimerIDs, this`pendingTasks, this`sequenceNumber, this`order
      modifies this`resolvedResolutions, this`results, this`bufferedResolutions
      modifies this`waits, this`lists, this`pendingExternalEventTasks
      ensures Valid() && (Core(), ok) == N.OnWorkRecorded(old(Core()), e)
      ensures Ext() == X.Expire(old(Ext()), Fired(callbacks, old(results), results))
    {
      hide X.Inv, X.Expire, Deref, Wired, Bound, N.CoreInv, N.NoLostWakeUp, Fired, HeldIn, N.DropAll;
      ghost var c, x := Core(), Ext();
      if e.id !in pendingActions || !Retires(e, pendingActions[e.id].item.work) {
        DropOptionalTimersAt(e.id);
      } else {
        NothingFires(c, x, callbacks);
        DropAllUnfolds(c, e.id);
      }
      assert Core() == N.DropAll(c, e.id);
      RetireKeeps(Core(), e);
      if e.id !in pendingActions || !Retires(e, pendingActions[e.id].item.work) {
        return false;
      }
      pendingActions := pendingActions - {e.id};
      return true;
    }

    /** Recorded detached workflows: the instance must be the one the current execution returned. */
    method OnDetachedWorkflowCreated(e: ScheduleEvent) returns (ok: bool)
      requires Valid() && e.DetachedCreated?
      modifies this`pendingActions, this`optionalTimerIDs, this`pendingTasks, this`sequenceNumber, this`order
      modifies this`resolvedResolutions, this`results, this`bufferedResolutions
      modifies this`waits, this`lists, this`pendingExternalEventTasks
      ensures Valid() && (Core(), ok) == N.OnDetachedRecorded(old(Core()), e)
      ensures Ext() == X.Expire(old(Ext()), Fired(callbacks, old(results), results))
    {
      hide X.Inv, X.Expire, Deref, Wired, Bound, N.CoreInv, N.NoLostWakeUp, Fired, HeldIn, N.DropAt;
      ghost var c, x := Core(), Ext();
      if e.id !in pendingActions || !pendingActions[e.id].item.work.Detached? {
        var dropped := DropOptionalExternalEventTimerAt(e.id);
      } else {
        NothingFires(c, x, callbacks);
      }
      if e.id !in pendingActions || !pendingActions[e.id].item.work.Detached? {
        return false;
      }
      if pendingActions[e.id].item.work.instanceId != e.instanceId {
        return false;
      }
      RetireKeeps(Core(), e);
      pendingActions := pendingActions - {e.id};
      return true;
    }

    method ConfirmTimer(id: int)
      requires Valid()
      modifies this`pendingActions, this`optionalTimerIDs, this`pendingTasks
      modifies this`resolvedResolutions, this`results, this`bufferedResolutions
      modifies this`waits, this`lists, this`pendingExternalEventTasks
      ensures Valid() && Core() == N.ConfirmTimer(old(Core()), id)
      ensures Ext() == X.Expire(old(Ext()), Fired(callbacks, old(results), results))
    {
      hide X.Inv, X.Expire, Deref, Wired, Bound, N.CoreInv, N.NoLostWakeUp, Fired, HeldIn;
      hide N.ConsumeEach, N.Ascending, N.ConfirmTimer;
      ConfirmSteps(Core(), id);
      pendingActions, optionalTimerIDs := pendingActions - {id}, optionalTimerIDs - {id};
      ConsumeReadyBufferedResolutions();
    }

    method OnTimerCreated(e: ScheduleEvent) returns (ok: bool)
      requires Valid() && e.TimerCreated?
      modifies this`pendingActions, this`optionalTimerIDs, this`pendingTasks, this`sequenceNumber, this`order
      modifies this`resolvedResolutions, this`results, this`bufferedResolutions
      modifies this`waits, this`lists, this`pendingExternalEventTasks
      ensures Valid() && (Core(), ok) == N.OnTimerRecorded(old(Core()), e)
      ensures Ext() == X.Expire(old(Ext()), Fired(callbacks, old(results), results))
    {
      hide X.Inv, X.Expire, Deref, Wired, Bound, N.CoreInv, N.NoLostWakeUp, Fired, HeldIn;
      hide N.DropAll, N.ConfirmTimer, N.OnTimerRecorded;
      ghost var c, x := Core(), Ext();
      ghost var c1 := TimerRecordedSteps(c, e);
      if !OptionalTimer(e.origin, e.fireAt) {
        DropOptionalTimersAt(e.id);
      } else {
        NothingFires(c, x, callbacks);
      }
      assert Core() == c1;
      if e.id !in pendingActions || !pendingActions[e.id].item.work.Timer? {
        return false;
      }
      ghost var mid := results;
      ConfirmTimer(e.id);
      FiredTwice(x, callbacks, c.outcome, mid, results);
      return true;
    }

    /******* Scheduling work (lines 416-441, 521-557, 648-697, 1228-1264; task/detached.go:129-172) *******/

    method Register(w: Work) returns (id: int)
      modifies this`order, this`sequenceNumber, this`issued
      modifies this`pendingActions, this`pendingTasks, this`optionalTimerIDs
      ensures id == old(sequenceNumber) && issued == old(issued) + 1 && Core() == N.Register(old(Core()), w)
    {
      var item := Item(issued, w);
      id := sequenceNumber;
      sequenceNumber, issued, order := sequenceNumber + 1, issued + 1, order + [item];
      pendingActions := pendingActions[id := Action(id, item, "")];
      if HasTask(w) {
        pendingTasks := pendingTasks[id := item];
      }
      if IsOptional(w) {
        optionalTimerIDs := optionalTimerIDs + {id};
      }
    }

    method Schedule(w: Work)
      requires Valid()
      modifies this`order, this`sequenceNumber, this`issued
      modifies this`pendingActions, this`pendingTasks, this`optionalTimerIDs
      modifies this`resolvedResolutions, this`results, this`bufferedResolutions
      modifies this`waits, this`lists, this`pendingExternalEventTasks
      ensures Valid() && Core() == N.Schedule(old(Core()), w)
      ensures Ext() == X.Expire(old(Ext()), Fired(callbacks, old(results), results))
    {
      hide X.Inv, X.Expire, Deref, Wired, Bound, N.CoreInv, N.NoLostWakeUp, Fired, HeldIn, N.Consume, N.Register;
      ghost var c, x := Core(), Ext();
      NothingFires(c, x, callbacks);
      ScheduleSteps(c, x, callbacks, w);
      var id := Register(w);
      assert Ext() == x && results == c.outcome && issued == c.issued + 1;
      if HasTask(w) {
        ConsumeBufferedResolution(WorkKind(w), id);
      }
    }

    /******* External events (lines 712-763 and 1121-1146) *******/

    method HandToFirstWaiter(name: Name, payload: string)
      requires Wired(Ext(), pendingExternalEventTasks, lists, owner, listOf) && X.Inv(Ext()) &&
        name in pendingExternalEventTasks
      modifies this`waits, this`lists, this`pendingExternalEventTasks, this`received
      ensures Wired(Ext(), pendingExternalEventTasks, lists, owner, listOf)
      ensures Ext() == X.Raise(old(Ext()), name, payload)
    {
      hide X.Inv, Deref, Wired, X.Raise;
      WiredRaise(Ext(), pendingExternalEventTasks, lists, owner, listOf, name, payload);
      var l := pendingExternalEventTasks[name];
      var q := lists[l];
      received := received[name := X.Get(received, name) + [payload]];
      if |q| > 1 {
        waits, lists := waits[q[0] := X.Received(payload)], lists[l := q[1..]];
      } else {
        waits, pendingExternalEventTasks := waits[q[0] := X.Received(payload)], pendingExternalEventTasks - {name};
      }
    }

    method OnExternalEventRaised(name: Name, payload: string)
      requires Valid()
      modifies this`bufferedExternalEvents, this`waits, this`lists, this`pendingExternalEventTasks, this`received
      ensures Valid() && Ext() == X.Raise(old(Ext()), name, payload)
    {
      hide X.Inv, Deref, Wired, Bound, N.CoreInv, N.NoLostWakeUp, HeldIn, X.Raise;
      ghost var x := Ext();
      RaiseKeepsBound(x, callbacks, issued, results, name, payload);
      if name in pendingExternalEventTasks {
        HandToFirstWaiter(name, payload);
      } else {
        WiredRaise(x, pendingExternalEventTasks, lists, owner, listOf, name, payload);
        var events := if name in bufferedExternalEvents then bufferedExternalEvents[name] else [];
        bufferedExternalEvents := bufferedExternalEvents[name := events + [payload]];
      }
    }

    /** A waiter that an event already waits for, or that must not wait. */
    method WaitAtOnce(name: Name, timeout: int)
      requires Wired(Ext(), pendingExternalEventTasks, lists, owner, listOf) && X.Inv(Ext())
      requires name in bufferedExternalEvents || timeout == 0
      modifies this`bufferedExternalEvents, this`waits, this`waiters, this`received
      ensures Wired(Ext(), pendingExternalEventTasks, lists, owner, listOf)
      ensures Ext() == X.Wait(old(Ext()), name, timeout == 0)
    {
      hide X.Inv, Deref, Wired, X.Wait;
      WiredWaitAtOnce(Ext(), pendingExternalEventTasks, lists, owner, listOf, name, timeout == 0);
      var w := X.Waiter(|waiters|, name);
      waiters := waiters + [w];
      if name in bufferedExternalEvents {
        var events := bufferedExternalEvents[name];
        received := received[name := X.Get(received, name) + [events[0]]];
        waits := waits[w := X.Received(events[0])];
        if |events| > 1 {
          bufferedExternalEvents := bufferedExternalEvents[name := events[1..]];
        } else {
          bufferedExternalEvents := bufferedExternalEvents - {name};
        }
      } else {
        waits := waits[w := X.Cancelled];
      }
    }

    /** A waiter joins the list linked for the name, which is made if there is none. */
    method JoinList(name: Name) returns (w: X.Waiter)
      requires Wired(Ext(), pendingExternalEventTasks, lists, owner, listOf) && X.Inv(Ext()) &&
        name !in bufferedExternalEvents
      modifies this`lists, this`owner, this`pendingExternalEventTasks, this`listOf, this`waiters
      ensures Wired(Ext(), pendingExternalEventTasks, lists, owner, listOf)
      ensures Ext() == X.Wait(old(Ext()), name, false) && w == X.Waiter(|old(waiters)|, name)
    {
      hide X.Inv, Deref, Wired, X.Wait;
      ghost var x := Ext();
      WiredNewList(x, pendingExternalEventTasks, lists, owner, listOf, name);
      if name !in pendingExternalEventTasks {
        pendingExternalEventTasks := pendingExternalEventTasks[name := |lists|];
        lists, owner := lists + [[]], owner + [name];
      }
      WiredJoin(x, pendingExternalEventTasks, lists, owner, listOf, name);
      var l := pendingExternalEventTasks[name];
      w := X.Waiter(|waiters|, name);
      lists, listOf, waiters := lists[l := lists[l] + [w]], listOf[w := l], waiters + [w];
    }

    /** Attaches a callback to a timer; it runs at once when the timer is already complete (task/task.go:93-102). */
    method OnCompleted(item: Item, w: X.Waiter)
      requires Wired(Ext(), pendingExternalEventTasks, lists, owner, listOf) && X.Inv(Ext()) && X.Issued(Ext(), w)
      modifies this`callbacks, this`waits, this`lists, this`pendingExternalEventTasks
      ensures Wired(Ext(), pendingExternalEventTasks, lists, owner, listOf)
      ensures callbacks == old(callbacks)[item := w]
      ensures Ext() == if item in results then X.Expire(old(Ext()), {w}) else old(Ext())
    {
      hide X.Inv, Deref, Wired, X.Expire;
      callbacks := callbacks[item := w];
      if item in results { OnWaitTimerFired(w); }
    }

    /** Schedules the timer behind a wait; its completion cancels the waiter. */
    method ScheduleWaitTimer(work: Work, w: X.Waiter)
      requires Valid() && X.Issued(Ext(), w)
      modifies this`order, this`sequenceNumber, this`issued
      modifies this`pendingActions, this`pendingTasks, this`optionalTimerIDs
      modifies this`resolvedResolutions, this`results, this`bufferedResolutions, this`callbacks
      modifies this`waits, this`lists, this`pendingExternalEventTasks
      ensures Valid() && Core() == N.Schedule(old(Core()), work)
      ensures callbacks == old(callbacks)[Item(old(issued), work) := w]
      ensures Ext() == X.Expire(old(Ext()), Fired(callbacks, old(results), results))
    {
      hide X.Inv, X.Expire, Deref, Wired, Bound, N.CoreInv, N.NoLostWakeUp, Fired, HeldIn, N.Schedule;
      ghost var c, x := Core(), Ext();
      var item := Item(issued, work);
      ScheduleIssues(c, work);
      WaitBacked(x, callbacks, issued, results, N.Schedule(c, work).outcome, item, w);
      Schedule(work);
      OnCompleted(item, w);
    }

    method WaitBackedByTimer(name: Name, timeout: int, now: int)
      requires Valid() && X.Queues(Ext(), name, timeout == 0) && name !in bufferedExternalEvents
      modifies this`order, this`sequenceNumber, this`issued
      modifies this`pendingActions, this`pendingTasks, this`optionalTimerIDs
      modifies this`resolvedResolutions, this`results, this`bufferedResolutions, this`callbacks
      modifies this`waits, this`waiters, this`lists, this`owner, this`pendingExternalEventTasks, this`listOf
      ensures Valid()
      ensures var s := WaitFor(old(View()), name, timeout, now);
              Core() == s.core && Ext() == s.ext && callbacks == s.callbacks
    {
      hide X.Inv, X.Expire, Deref, Wired, Bound, N.CoreInv, N.NoLostWakeUp, Fired, HeldIn, X.Wait, N.Schedule, WaitFor;
      WaitSettles(View(), name, timeout, now);
      var w := JoinList(name);
      ScheduleWaitTimer(Timer(ExternalEvent(name), if timeout > 0 then now + timeout else INDEFINITE), w);
    }

    method WaitForSingleEvent(name: Name, timeout: int, now: int)
      requires Valid()
      modifies this`order, this`sequenceNumber, this`issued
      modifies this`pendingActions, this`pendingTasks, this`optionalTimerIDs
      modifies this`resolvedResolutions, this`results, this`bufferedResolutions, this`callbacks
      modifies this`bufferedExternalEvents, this`waits, this`waiters, this`received
      modifies this`lists, this`owner, this`pendingExternalEventTasks, this`listOf
      ensures Valid()
      ensures var s := WaitFor(old(View()), name, timeout, now);
              Core() == s.core && Ext() == s.ext && callbacks == s.callbacks
    {
      hide X.Inv, X.Expire, Deref, Wired, Bound, N.CoreInv, N.NoLostWakeUp, HeldIn, X.Wait, WaitFor;
      ghost var s := View();
      WaitCases(s, name, timeout, now);
      if name in bufferedExternalEvents || timeout == 0 {
        WaitAtOnce(name, timeout);
      } else {
        WaitBackedByTimer(name, timeout, now);
      }
    }

    /******* Events (lines 292-354 and 1148-1182) *******/

    method OnScheduled(e: ScheduleEvent) returns (ok: bool)
      requires Valid()
      modifies this`pendingActions, this`optionalTimerIDs, this`pendingTasks, this`sequenceNumber, this`order
      modifies this`resolvedResolutions, this`results, this`bufferedResolutions
      modifies this`waits, this`lists, this`pendingExternalEventTasks
      ensures Valid() && (Core(), ok) == N.OnScheduled(old(Core()), e)
      ensures Ext() == X.Expire(old(Ext()), Fired(callbacks, old(results), results))
    {
      hide X.Inv, X.Expire, Deref, Wired, Bound, N.CoreInv, N.NoLostWakeUp, Fired, HeldIn;
      hide N.OnWorkRecorded, N.OnDetachedRecorded, N.OnTimerRecorded;
      match e
      case TaskScheduled(_) => ok := OnWorkScheduled(e);
      case ChildCreated(_) => ok := OnWorkScheduled(e);
      case DetachedCreated(_, _) => ok := OnDetachedWorkflowCreated(e);
      case TimerCreated(_, _, _) => ok := OnTimerCreated(e);
    }

    method FindCompletion() returns (found: Option<int>)
      ensures found.None? ==> Completions(Core()) == {}
      ensures found.Some? ==> found.value in Completions(Core())
    {
      var rest := pendingActions.Keys;
      while rest != {}
        invariant rest <= pendingActions.Keys
        invariant forall k :: k in pendingActions && k !in rest ==> !pendingActions[k].item.work.Completion?
        decreases rest
      {
        var id := Pick(rest);
        if pendingActions[id].item.work.Completion? { return Some(id); }
        rest := rest - {id};
      }
      assert forall k :: k !in Completions(Core());
      return None;
    }

    /** The termination replaces a continue-as-new completion, if there is one. */
    method CompleteTerminated(restart: Option<int>)
      requires Valid()
      requires restart.Some? ==> restart.value in Restarts(Core())
      modifies this`order, this`sequenceNumber, this`issued
      modifies this`pendingActions, this`pendingTasks, this`optionalTimerIDs
      modifies this`resolvedResolutions, this`results, this`bufferedResolutions
      modifies this`waits, this`lists, this`pendingExternalEventTasks
      ensures Valid() && Core() == N.Schedule(Withdrawn(old(Core()), restart), Completion(Terminated)) &&
        Ext() == old(Ext())
    {
      hide X.Inv, X.Expire, Deref, Wired, Bound, N.CoreInv, N.NoLostWakeUp, Fired, HeldIn, N.Schedule;
      ghost var c, x := Core(), Ext();
      NothingFires(c, x, callbacks);
      WithdrawnKeeps(c, restart);
      if restart.Some? {
        pendingActions := pendingActions - {restart.value};
      }
      assert Core() == Withdrawn(c, restart) && Ext() == x;
      Schedule(Completion(Terminated));
    }

    /** A completion recorded before wins over termination; a continue-as-new never does. */
    method OnExecutionTerminated()
      requires Valid()
      modifies this`isTerminated
      modifies this`order, this`sequenceNumber, this`issued
      modifies this`pendingActions, this`pendingTasks, this`optionalTimerIDs
      modifies this`resolvedResolutions, this`results, this`bufferedResolutions
      modifies this`waits, this`lists, this`pendingExternalEventTasks
      ensures Valid() && isTerminated && Terminates(old(Core()), Core()) && Ext() == old(Ext())
    {
      hide X.Inv, Deref, Wired, Bound, N.CoreInv, N.NoLostWakeUp, HeldIn, N.Schedule, Withdrawn;
      var found := FindCompletion();
      ghost var c := Core();
      isTerminated := true;
      if found.None? || pendingActions[found.value].item.work.status == ContinuedAsNew {
        CompleteTerminated(found);
      }
      assert Finds(c, found) && Core() == TerminateFinding(c, found);
    }

    ghost method MarkHandled(e: Event)
      requires Valid()
      modifies this`handled
      ensures Valid() && View() == old(View()).(handled := old(handled) + [e])
    {
      hide Deref, Wired, Bound, N.CoreInv, N.NoLostWakeUp, HeldIn;
      handled := handled + [e];
    }

    method DispatchResolved(r: Resolution)
      requires Valid()
      modifies this
      ensures Valid() && View() == Dispatch(old(View()), Resolved(r)).0
    {
      hide X.Inv, X.Expire, Deref, Wired, Bound, N.CoreInv, N.NoLostWakeUp, Fired, HeldIn, N.Deliver, Dispatch;
      ghost var s := View();
      ghost var s' := ResolvedFields(s, r);
      ResolvedKeeps(Core(), r);
      OnResolved(r);
      assert View() == s.(core := s'.core, ext := s'.ext);
      MarkHandled(Resolved(r));
    }

    method DispatchRecorded(e: ScheduleEvent) returns (ok: bool)
      requires Valid()
      modifies this
      ensures Valid() && (View(), ok) == Dispatch(old(View()), Recorded(e))
    {
      hide X.Inv, X.Expire, Deref, Wired, Bound, N.CoreInv, N.NoLostWakeUp, Fired, HeldIn, N.OnScheduled, Dispatch;
      ghost var s := View();
      ghost var s' := RecordedFields(s, e);
      ok := OnScheduled(e);
      assert View() == s.(core := s'.core, ext := s'.ext);
      MarkHandled(Recorded(e));
    }

    method DispatchTerminated()
      requires Valid()
      modifies this
      ensures Valid() && Dispatches(old(View()), ExecutionTerminated, View(), true)
    {
      hide X.Inv, Deref, Wired, Bound, N.CoreInv, N.NoLostWakeUp, HeldIn, Terminates;
      OnExecutionTerminated();
      MarkHandled(ExecutionTerminated);
    }

    method DispatchRaised(name: Name, payload: string)
      requires Valid()
      modifies this
      ensures Valid() && View() == Dispatch(old(View()), EventRaised(name, payload)).0
    {
      hide X.Inv, Deref, Wired, Bound, N.CoreInv, N.NoLostWakeUp, HeldIn, X.Raise;
      OnExternalEventRaised(name, payload);
      MarkHandled(EventRaised(name, payload));
    }

    /** Events that only set a flag, or nothing. */
    method DispatchFlag(e: Event) returns (ok: bool)
      requires Valid() && (e.ExecutionSuspended? || e.ExecutionResumed? || e.Informational? || e.Unrecognised?)
      modifies this`isSuspended, this`handled
      ensures Valid() && (View(), ok) == Dispatch(old(View()), e)
    {
      hide Deref, Wired, Bound, N.CoreInv, N.NoLostWakeUp, HeldIn;
      MarkHandled(e);
      if e.ExecutionSuspended? { isSuspended := true; }
      if e.ExecutionResumed? { isSuspended := false; }
      ok := !e.Unrecognised?;
    }

    /** Routes an event other than a resumption to its handler. */
    method DispatchEvent(e: Event) returns (ok: bool)
      requires Valid() && !e.ExecutionResumed?
      modifies this
      ensures Valid() && Dispatches(old(View()), e, View(), ok)
    {
      hide Deref, Wired, Bound, N.CoreInv, N.NoLostWakeUp, HeldIn, Terminates;
      ok := true;
      match e {
        case Resolved(r) => DispatchResolved(r);
        case Recorded(rec) => ok := DispatchRecorded(rec);
        case EventRaised(name, payload) => DispatchRaised(name, payload);
        case ExecutionTerminated => DispatchTerminated();
        case ExecutionSuspended => ok := DispatchFlag(e);
        case Informational => ok := DispatchFlag(e);
        case Unrecognised => ok := DispatchFlag(e);
      }
    }

    /** An event is ignored after termination, held back while suspended, and dispatched otherwise. */
    method HandleEvent(e: Event) returns (ok: bool)
      requires Valid() && !e.ExecutionResumed?
      modifies this
      ensures Valid() && Handles(old(View()), e, View(), ok)
    {
      hide Deref, Wired, Bound, N.CoreInv, N.NoLostWakeUp, Dispatch, Terminates;
      if isTerminated {
        return true;
      }
      if isSuspended && !e.ExecutionTerminated? {
        suspendedEvents := suspendedEvents + [e];
        return true;
      }
      ok := DispatchEvent(e);
    }

    method HandleEach(held: seq<Event>) returns (ok: bool)
      requires Valid() && HeldIn(held)
      modifies this
      ensures Valid() && (View(), ok) == HandleAll(old(View()), held)
    {
      hide Deref, Wired, Bound, N.CoreInv, N.NoLostWakeUp, Handle, HandleAll;
      ghost var s := View();
      assert held[..0] == [];
      HandleAllNone(s);
      for i := 0 to |held|
        invariant Valid() && HandleAll(s, held[..i]) == (View(), true)
      {
        HandleAllSnoc(s, held, i);
        ok := HandleEvent(held[i]);
        if !ok { return; }
      }
      assert held[..|held|] == held;
      return true;
    }

    method EndResume()
      requires Valid()
      modifies this`suspendedEvents
      ensures Valid() && View() == old(View()).(held := [])
    {
      hide Deref, Wired, Bound, N.CoreInv, N.NoLostWakeUp;
      suspendedEvents := [];
    }

    /** Resuming processes the held events in order; a failing event ends it. */
    method OnExecutionResumed() returns (ok: bool)
      requires Valid()
      modifies this
      ensures Valid() && (View(), ok) == Resume(old(View()))
    {
      hide Deref, Wired, Bound, N.CoreInv, N.NoLostWakeUp, HandleAll, HeldIn;
      ghost var s := View();
      ok := DispatchFlag(ExecutionResumed);
      assert suspendedEvents == s.held;
      ok := HandleEach(suspendedEvents);
      if ok {
        EndResume();
      }
    }

    method ProcessEvent(e: Event) returns (ok: bool)
      requires Valid()
      modifies this
      ensures Valid() && Processes(old(View()), e, View(), ok)
    {
      hide Deref, Wired, Bound, N.CoreInv, N.NoLostWakeUp, Dispatch, Dispatches, Resume;
      if e.ExecutionResumed? && !isTerminated {
        ok := OnExecutionResumed();
      } else if e.ExecutionResumed? {
        ok := true;
      } else {
        ok := HandleEvent(e);
      }
    }

    /** Takes and processes the next event of the history, until there is none (lines 259-271). */
    method ProcessNextEvent() returns (more: bool, ok: bool)
      requires Valid()
      modifies this, history
      ensures Valid()
      ensures var h, i := history.oldEvents + history.newEvents, old(history.index);
              if i >= |h| then !more && ok && View() == old(View()) && history.index == i
              else && more && history.index == i + 1 && (history.isReplaying <==> i < |history.oldEvents|)
                   && Arrives(old(View()), h[i], View(), ok)
    {
      hide Deref, Wired, Bound, N.CoreInv, N.NoLostWakeUp, Processes;
      var e := history.GetNextHistoryEvent();
      if e.None? { return false, true; }
      if !isTerminated {
        arrived := arrived + [e.value];
      }
      ok := ProcessEvent(e.value);
      more := true;
    }

    /******* The actions a replay returns (lines 930-950 and 1364-1394) *******/

    method ResolutionBufferedFrom(timer: int) returns (found: bool)
      ensures found <==> exists key :: key in bufferedResolutions && key.id >= timer
    {
      var rest := bufferedResolutions.Keys;
      while rest != {}
        invariant rest <= bufferedResolutions.Keys
        invariant forall key :: key in bufferedResolutions && key !in rest ==> key.id < timer
        decreases rest
      {
        var key := Pick(rest);
        if key.id >= timer { return true; }
        rest := rest - {key};
      }
      return false;
    }

    method ActionIDProvisional(id: int) returns (withheld: bool)
      ensures withheld == Withheld(Core(), id)
    {
      if |bufferedResolutions| == 0 { return false; }
      var rest := optionalTimerIDs;
      while rest != {}
        invariant rest <= optionalTimerIDs
        invariant forall t, key :: t in optionalTimerIDs && t !in rest && t <= id && key in bufferedResolutions ==>
          key.id < t
        decreases rest
      {
        var timer := Pick(rest);
        rest := rest - {timer};
        if timer <= id {
          var found := ResolutionBufferedFrom(timer);
          if found { return true; }
        }
      }
      return false;
    }

    /** The kept events, in the order they were kept under each name. */
    method CarryoverEvents() returns (carried: seq<(Name, string)>)
      ensures Carries(carried, bufferedExternalEvents)
    {
      hide CarriedFor;
      carried := [];
      CarriedNone();
      var rest := bufferedExternalEvents.Keys;
      while rest != {}
        invariant rest <= bufferedExternalEvents.Keys
        invariant forall name ::
          CarriedFor(carried, name) == if name in rest then [] else X.Get(bufferedExternalEvents, name)
        decreases rest
      {
        var name := Pick(rest);
        rest := rest - {name};
        carried := AppendEvents(carried, name, bufferedExternalEvents[name]);
      }
    }

    method EmittedIds() returns (ids: set<int>)
      ensures ids == Emitted(View())
    {
      hide Withheld;
      ids := {};
      if isSuspended && !isTerminated { return; }
      var rest := pendingActions.Keys;
      while rest != {}
        invariant rest <= pendingActions.Keys
        invariant ids == set k | k in pendingActions && k !in rest &&
          (IsTerminal(pendingActions[k].item.work) || !Withheld(Core(), k))
        decreases rest
      {
        var id := Pick(rest);
        rest := rest - {id};
        var withheld := ActionIDProvisional(id);
        if IsTerminal(pendingActions[id].item.work) || !withheld {
          ids := ids + {id};
        }
      }
    }

    /**
     The actions in ascending order; a completion that keeps external events carries all of them over, and
     no pending work is skipped in front of new work.
     */
    method Actions() returns (out: seq<Emission>)
      ensures var ids := N.Ascending(Emitted(View()));
              |out| == |ids| &&
              forall i :: 0 <= i < |out| ==>
                && ids[i] in pendingActions && out[i].action == pendingActions[ids[i]]
                && Carries(out[i].carryover, if Keeps(View(), out[i].action) then bufferedExternalEvents else map[])
      ensures var ids := N.Ascending(Emitted(View()));
              forall i, k :: 0 <= i < |ids| && ids[i] in pendingActions &&
                             !IsTerminal(pendingActions[ids[i]].item.work) && k in pendingActions && k <= ids[i] ==>
                exists j :: 0 <= j <= i && ids[j] == k
      ensures isSuspended && !isTerminated ==> out == []
      ensures (!isSuspended || isTerminated) && (bufferedResolutions == map[] || optionalTimerIDs == {}) ==>
        forall k :: k in pendingActions ==> exists i :: 0 <= i < |out| && out[i].action == pendingActions[k]
    {
      hide Emitted, N.Ascending, Carries;
      var chosen := EmittedIds();
      EmittedPending(View());
      CarriesNothing();
      var carried := CarryoverEvents();
      var ids := N.Ascending(chosen);
      out := [];
      for i := 0 to |ids|
        invariant |out| == i
        invariant forall j :: 0 <= j < i ==>
          && ids[j] in pendingActions && out[j].action == pendingActions[ids[j]]
          && Carries(out[j].carryover, if Keeps(View(), out[j].action) then bufferedExternalEvents else map[])
      {
        assert ids[i] in chosen;
        var action := pendingActions[ids[i]];
        var keeps := continuedAsNew && saveBufferedExternalEvents && action.item.work.Completion?;
        out := out + [Emission(action, if keeps then carried else [])];
      }
      forall i, k | 0 <= i < |ids| && ids[i] in pendingActions && !IsTerminal(pendingActions[ids[i]].item.work) &&
                    k in pendingActions && k <= ids[i]
        ensures exists j :: 0 <= j <= i && ids[j] == k
      {
        EmittedIsPrefix(View(), ids, i, k);
      }
      if isSuspended && !isTerminated {
        SuspendedReturnsNothing(View());
      } else if bufferedResolutions == map[] || optionalTimerIDs == {} {
        forall k | k in pendingActions ensures exists i :: 0 <= i < |out| && out[i].action == pendingActions[k] {
          ReturnedWhen(View(), k);
          var i :| 0 <= i < |ids| && ids[i] == k;
          assert out[i].action == pendingActions[k];
        }
      }
    }
  }

  method AppendEvents(carried: seq<(Name, string)>, name: Name, events: seq<string>) returns (all: seq<(Name, string)>)
    ensures forall other ::
      CarriedFor(all, other) ==
      if other == name then CarriedFor(carried, other) + events else CarriedFor(carried, other)
  {
    hide CarriedFor;
    all := carried;
    for i := 0 to |events|
      invariant forall other ::
        CarriedFor(all, other) ==
        if other == name then CarriedFor(carried, other) + events[..i] else CarriedFor(carried, other)
    {
      CarriedSnoc(all, name, events[i]);
      assert events[..i + 1] == events[..i] + [events[i]];
      all := all + [(name, events[i])];
    }
    assert events[..|events|] == events;
  }
}
