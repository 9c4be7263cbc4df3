/**
 The runtime state of a workflow instance and its duplicate detection
 (backend/runtimestate/runtimestate.go, backend/runtimestate/dedup).
 */
module RuntimeStates {
  import opened Work

  /** Where a message or an event is sent; an empty application is the local one. */
  datatype Router = Router(targetAppID: string)

  /** The workflow to which a child reports; a parent that predates routing names no application. */
  datatype Parent = Parent(instanceID: string, executionID: string, taskScheduledId: int, appID: Option<string>)

  datatype Start = Start(name: string, instanceID: string, executionID: string, input: string, parent: Option<Parent>)

  datatype Finished = Finished(status: Status, result: string, failure: Option<string>)

  /** What a resolution carries. */
  datatype Payload = Result(value: string) | Failure(details: string)

  datatype Event =
    | WorkflowStarted
    | ExecutionStarted(start: Start)
    | ExecutionCompleted(id: int, finished: Finished)
    | ExecutionSuspended
    | ExecutionResumed
    | ExecutionStalled
    | ExecutionTerminated(input: string, recurse: bool)
    | Resolved(key: ResolutionKey, payload: Payload)
    | TaskScheduled(id: int, name: string, executionID: string)
    | TimerCreated(id: int, fireAt: int)
    | ChildCreated(id: int, name: string, instanceID: string, router: Router)
    | DetachedCreated(id: int, instanceID: string)
    | EventSent(id: int, instanceID: string, name: string, data: string)
    | EventRaised(name: string, data: string)

  /** What the backend delivers to another instance, or to the instance itself, after the turn. */
  datatype Message = Message(target: string, event: Event, router: Router)

  /** A timer the backend has to fire. */
  datatype DueTimer = DueTimer(id: int, fireAt: int)

  datatype State = State(
    instanceID: string,
    past: seq<Event>,
    recent: seq<Event>,
    start: Option<Start>,
    completed: Option<Finished>,
    suspended: bool,
    stalled: bool,
    restarted: bool,
    tasks: seq<Event>,
    timers: seq<DueTimer>,
    messages: seq<Message>)

  function Empty(instanceID: string): State {
    State(instanceID, [], [], None, None, false, false, false, [], [], [])
  }

  /******* Adding an event *******/

  /** A resolution of this key is among the events. */
  predicate Present(events: seq<Event>, key: ResolutionKey) {
    exists i :: 0 <= i < |events| && events[i].Resolved? && events[i].key == key
  }

  predicate Known(s: State, key: ResolutionKey) {
    Present(s.past, key) || Present(s.recent, key)
  }

  /** An execution starts once, completes once, and each piece of its work resolves once. */
  predicate Accepts(s: State, e: Event) {
    && (e.ExecutionStarted? ==> s.start.None?)
    && (e.ExecutionCompleted? ==> s.completed.None?)
    && (e.Resolved? ==> !Known(s, e.key))
  }

  function Note(s: State, e: Event): State {
    s.(start := if e.ExecutionStarted? then Some(e.start) else s.start,
       completed := if e.ExecutionCompleted? then Some(e.finished) else s.completed,
       suspended := if e.ExecutionSuspended? then true else if e.ExecutionResumed? then false else s.suspended,
       stalled := e.ExecutionStalled?)
  }

  function AddEvent(s: State, e: Event): State {
    if Accepts(s, e) then Note(s, e).(recent := s.recent + [e]) else s
  }

  function AddEvents(s: State, events: seq<Event>): State {
    if events == [] then s else AddEvent(AddEvents(s, events[..|events| - 1]), events[|events| - 1])
  }

  /** Every key resolves at most once in the recorded history. */
  ghost predicate ResolvedOnce(events: seq<Event>) {
    forall i, j :: 0 <= i < j < |events| && events[i].Resolved? && events[j].Resolved? ==>
      events[i].key != events[j].key
  }

  lemma AddEventKeepsOnce(s: State, e: Event)
    requires ResolvedOnce(s.past + s.recent)
    ensures ResolvedOnce(AddEvent(s, e).past + AddEvent(s, e).recent)
  {
    var all := s.past + s.recent;
    if Accepts(s, e) {
      assert s.past + (s.recent + [e]) == all + [e];
      forall i | 0 <= i < |all| && all[i].Resolved? && e.Resolved? ensures all[i].key != e.key {
        if i < |s.past| { assert s.past[i] == all[i]; } else { assert s.recent[i - |s.past|] == all[i]; }
      }
    }
  }

  /** Whatever arrives, in whatever order, no piece of work is ever recorded as resolved twice. */
  lemma {:induction false} HistoryResolvesOnce(s: State, events: seq<Event>)
    requires ResolvedOnce(s.past + s.recent)
    ensures ResolvedOnce(AddEvents(s, events).past + AddEvents(s, events).recent)
  {
    if events != [] {
      HistoryResolvesOnce(s, events[..|events| - 1]);
      AddEventKeepsOnce(AddEvents(s, events[..|events| - 1]), events[|events| - 1]);
    }
  }

  /** The event says again what the state, or an earlier event, has said: a start, a completion, a resolution. */
  predicate Repeats(s: State, earlier: seq<Event>, e: Event) {
    || (e.ExecutionStarted? && (s.start.Some? || exists i :: 0 <= i < |earlier| && earlier[i].ExecutionStarted?))
    || (e.ExecutionCompleted? &&
        (s.completed.Some? || exists i :: 0 <= i < |earlier| && earlier[i].ExecutionCompleted?))
    || (e.Resolved? && (Known(s, e.key) || Present(earlier, e.key)))
  }

  /** The events that repeat nothing, in order. */
  function Fresh(s: State, events: seq<Event>): seq<Event> {
    if events == [] then []
    else
      var front, last := events[..|events| - 1], events[|events| - 1];
      Fresh(s, front) + (if Repeats(s, front, last) then [] else [last])
  }

  /** What the events mention is what the state knows afterwards. */
  lemma {:induction false} AddEventsKnow(s: State, events: seq<Event>, key: ResolutionKey)
    ensures var r := AddEvents(s, events);
            && (r.start.Some? <==> s.start.Some? || exists i :: 0 <= i < |events| && events[i].ExecutionStarted?)
            && (r.completed.Some? <==>
                  s.completed.Some? || exists i :: 0 <= i < |events| && events[i].ExecutionCompleted?)
            && (Known(r, key) <==> Known(s, key) || Present(events, key))
  {
    if events != [] {
      var front, last := events[..|events| - 1], events[|events| - 1];
      var r := AddEvents(s, front);
      AddEventsKnow(s, front, key);
      assert forall i :: 0 <= i < |front| ==> front[i] == events[i];
      assert events[|events| - 1] == last;
      AddEventKnows(r, last, key);
    }
  }

  lemma {:induction false} AddEventKnows(s: State, e: Event, key: ResolutionKey)
    ensures Known(AddEvent(s, e), key) <==> Known(s, key) || (e.Resolved? && e.key == key)
  {
    var r := AddEvent(s, e);
    if Accepts(s, e) {
      assert r.recent[|s.recent|] == e;
      assert forall i :: 0 <= i < |s.recent| ==> r.recent[i] == s.recent[i];
    }
  }

  /** Whatever arrives, exactly the events that repeat nothing are recorded, in order. */
  lemma {:induction false} RecordedExactly(s: State, events: seq<Event>)
    ensures AddEvents(s, events).recent == s.recent + Fresh(s, events)
  {
    if events != [] {
      var front, last := events[..|events| - 1], events[|events| - 1];
      RecordedExactly(s, front);
      AddEventsKnow(s, front, if last.Resolved? then last.key else Key(TaskKind, 0));
      assert Accepts(AddEvents(s, front), last) <==> !Repeats(s, front, last);
    }
  }

  /** The last event of this batch that suspends or resumes does not resume. */
  predicate LeftSuspended(was: bool, events: seq<Event>) {
    if events == [] then was
    else
      var last := events[|events| - 1];
      last.ExecutionSuspended? || (!last.ExecutionResumed? && LeftSuspended(was, events[..|events| - 1]))
  }

  /** The first start and the first completion stay; the last suspend or resume decides. */
  lemma {:induction false} SummaryExact(s: State, events: seq<Event>, i: nat)
    ensures var r := AddEvents(s, events);
            && (s.start.Some? ==> r.start == s.start) && (s.completed.Some? ==> r.completed == s.completed)
            && (r.suspended <==> LeftSuspended(s.suspended, events))
    ensures i < |events| && !Repeats(s, events[..i], events[i]) ==>
            && (events[i].ExecutionStarted? ==> AddEvents(s, events).start == Some(events[i].start))
            && (events[i].ExecutionCompleted? ==> AddEvents(s, events).completed == Some(events[i].finished))
  {
    if events != [] {
      var front, last := events[..|events| - 1], events[|events| - 1];
      SummaryExact(s, front, i);
      AddEventsKnow(s, front, Key(TaskKind, 0));
      if i < |front| { assert front[..i] == events[..i] && front[i] == events[i]; }
    }
  }

  /******* The constant-time duplicate detector (dedup/set.go) *******/

  function KindNumber(kind: Kind): nat {
    match kind
    case TaskKind => 1
    case TimerKind => 2
    case ChildKind => 3
  }

  predicate Int32(id: int) {
    -0x8000_0000 <= id < 0x8000_0000
  }

  /** A kind above bit 32 and the id, reinterpreted as unsigned, below. */
  function PackKey(key: ResolutionKey): nat {
    KindNumber(key.kind) * 0x1_0000_0000 + key.id % 0x1_0000_0000
  }

  /** Packing loses nothing on 32-bit ids. */
  lemma PackInjective(a: ResolutionKey, b: ResolutionKey)
    requires Int32(a.id) && Int32(b.id)
    ensures PackKey(a) == PackKey(b) <==> a == b
  {
    assert a.id % 0x1_0000_0000 == if a.id >= 0 then a.id else a.id + 0x1_0000_0000;
    assert b.id % 0x1_0000_0000 == if b.id >= 0 then b.id else b.id + 0x1_0000_0000;
  }

  ghost predicate Ids32(events: seq<Event>) {
    forall i :: 0 <= i < |events| && events[i].Resolved? ==> Int32(events[i].key.id)
  }

  /** The set holds exactly the packed keys of these events. */
  ghost predicate Detects(packed: set<nat>, events: seq<Event>) {
    && (forall i :: 0 <= i < |events| && events[i].Resolved? ==> PackKey(events[i].key) in packed)
    && (forall p :: p in packed ==> exists i :: 0 <= i < |events| && events[i].Resolved? && PackKey(events[i].key) == p)
  }

  lemma DetectsPresent(packed: set<nat>, events: seq<Event>, key: ResolutionKey)
    requires Detects(packed, events) && Ids32(events) && Int32(key.id)
    ensures PackKey(key) in packed <==> Present(events, key)
  {
    if PackKey(key) in packed {
      var i :| 0 <= i < |events| && events[i].Resolved? && PackKey(events[i].key) == PackKey(key);
      PackInjective(events[i].key, key);
    }
  }

  class DedupSet {
    var keys: set<nat>

    constructor ()
      ensures keys == {}
    {
      keys := {};
    }

    /** Whether the events the set was made for resolve the key. */
    method Has(key: ResolutionKey, ghost events: seq<Event>) returns (present: bool)
      requires Detects(keys, events) && Ids32(events) && Int32(key.id)
      ensures present <==> Present(events, key)
    {
      DetectsPresent(keys, events, key);
      present := PackKey(key) in keys;
    }

    /** Adds a key; true if it was already there. */
    method Add(key: ResolutionKey) returns (duplicate: bool)
      modifies this
      ensures keys == old(keys) + {PackKey(key)} && (duplicate <==> PackKey(key) in old(keys))
    {
      duplicate := PackKey(key) in keys;
      if !duplicate {
        keys := keys + {PackKey(key)};
      }
    }

    method Populate(events: seq<Event>, ghost before: seq<Event>)
      requires Detects(keys, before)
      modifies this
      ensures Detects(keys, before + events)
    {
      assert before + events[..0] == before;
      for i := 0 to |events|
        invariant Detects(keys, before + events[..i])
      {
        ghost var was := keys;
        if events[i].Resolved? {
          var duplicate := Add(events[i].key);
        }
        DetectsNext(was, before + events[..i], events[i], keys);
        assert before + events[..i + 1] == before + events[..i] + [events[i]];
      }
      assert before + events[..|events|] == before + events;
    }
  }

  lemma DetectsNothing()
    ensures Detects({}, [])
  {
  }

  lemma AtInt32(events: seq<Event>, i: nat)
    requires Ids32(events) && i < |events|
    ensures events[i].Resolved? ==> Int32(events[i].key.id)
  {
  }

  lemma DetectsNext(packed: set<nat>, events: seq<Event>, e: Event, next: set<nat>)
    requires Detects(packed, events) && next == if e.Resolved? then packed + {PackKey(e.key)} else packed
    ensures Detects(next, events + [e])
  {
    var all := events + [e];
    forall p | p in next ensures exists i :: 0 <= i < |all| && all[i].Resolved? && PackKey(all[i].key) == p {
      if p in packed {
        var i :| 0 <= i < |events| && events[i].Resolved? && PackKey(events[i].key) == p;
        assert all[i] == events[i];
      } else {
        assert all[|events|] == e;
      }
    }
  }

  /******* The state as it is updated in place *******/

  class RuntimeState {
    const instanceID: string
    var oldEvents: seq<Event>
    var newEvents: seq<Event>
    var startEvent: Option<Start>
    var completedEvent: Option<Finished>
    var isSuspended: bool
    var stalled: bool
    var continuedAsNew: bool
    var pendingTasks: seq<Event>
    var pendingTimers: seq<DueTimer>
    var pendingMessages: seq<Message>

    ghost function View(): State
      reads this
    {
      State(instanceID, oldEvents, newEvents, startEvent, completedEvent, isSuspended, stalled, continuedAsNew,
            pendingTasks, pendingTimers, pendingMessages)
    }

    constructor (instanceID: string)
      ensures View() == Empty(instanceID)
    {
      this.instanceID := instanceID;
      oldEvents, newEvents, startEvent, completedEvent := [], [], None, None;
      isSuspended, stalled, continuedAsNew := false, false, false;
      pendingTasks, pendingTimers, pendingMessages := [], [], [];
    }

    /** Scans the recorded events for a resolution of the key. */
    method IsPresent(key: ResolutionKey) returns (present: bool)
      ensures present <==> Known(View(), key)
    {
      for i := 0 to |oldEvents|
        invariant !Present(oldEvents[..i], key)
      {
        if oldEvents[i].Resolved? && oldEvents[i].key == key { return true; }
      }
      assert oldEvents[..|oldEvents|] == oldEvents;
      for i := 0 to |newEvents|
        invariant !Present(newEvents[..i], key)
      {
        if newEvents[i].Resolved? && newEvents[i].key == key { return true; }
      }
      assert newEvents[..|newEvents|] == newEvents;
      return false;
    }

    /** Updates the summary fields and appends an accepted event. */
    method Append(e: Event)
      modifies this`newEvents, this`startEvent, this`completedEvent, this`isSuspended, this`stalled
      ensures View() == Note(old(View()), e).(recent := old(newEvents) + [e])
    {
      if e.ExecutionStarted? {
        startEvent := Some(e.start);
      } else if e.ExecutionCompleted? {
        completedEvent := Some(e.finished);
      } else if e.ExecutionSuspended? {
        isSuspended := true;
      } else if e.ExecutionResumed? {
        isSuspended := false;
      }
      stalled := e.ExecutionStalled?;
      newEvents := newEvents + [e];
    }

    /** Appends the event unless it is a duplicate, which is found by scanning. */
    method Add(e: Event) returns (accepted: bool)
      modifies this`newEvents, this`startEvent, this`completedEvent, this`isSuspended, this`stalled
      ensures accepted <==> Accepts(old(View()), e)
      ensures View() == AddEvent(old(View()), e)
    {
      if e.ExecutionStarted? && startEvent.Some? { return false; }
      if e.ExecutionCompleted? && completedEvent.Some? { return false; }
      if e.Resolved? {
        var present := IsPresent(e.key);
        if present { return false; }
      }
      Append(e);
      return true;
    }

    /** Appends a batch, with a set in place of the scans; the result is the same. */
    method AddAll(events: seq<Event>) returns (accepted: seq<bool>)
      requires Ids32(oldEvents) && Ids32(newEvents) && Ids32(events)
      modifies this`newEvents, this`startEvent, this`completedEvent, this`isSuspended, this`stalled
      ensures View() == AddEvents(old(View()), events)
      ensures |accepted| == |events|
      ensures forall i :: 0 <= i < |events| ==>
        (accepted[i] <==> Accepts(AddEvents(old(View()), events[..i]), events[i]))
    {
      hide Accepts, AddEvent, Detects, Ids32;
      var seen := new DedupSet();
      DetectsNothing();
      seen.Populate(oldEvents, []);
      assert [] + oldEvents == oldEvents;
      seen.Populate(newEvents, oldEvents);
      accepted := [];
      assert events[..0] == [];
      for i := 0 to |events|
        invariant |accepted| == i && View() == AddEvents(old(View()), events[..i])
        invariant oldEvents == old(oldEvents) && Ids32(newEvents) && Detects(seen.keys, oldEvents + newEvents)
        invariant forall j :: 0 <= j < i ==> (accepted[j] <==> Accepts(AddEvents(old(View()), events[..j]), events[j]))
      {
        assert events[..i + 1][..i] == events[..i];
        AtInt32(events, i);
        var ok := AddSeen(events[i], seen);
        accepted := accepted + [ok];
      }
      assert events[..|events|] == events;
    }

    method AddSeen(e: Event, seen: DedupSet) returns (accepted: bool)
      requires Ids32(oldEvents) && Ids32(newEvents) && Detects(seen.keys, oldEvents + newEvents)
      requires (e.Resolved? ==> Int32(e.key.id))
      modifies this`newEvents, this`startEvent, this`completedEvent, this`isSuspended, this`stalled, seen
      ensures accepted <==> Accepts(old(View()), e)
      ensures View() == AddEvent(old(View()), e)
      ensures Ids32(newEvents) && Detects(seen.keys, oldEvents + newEvents)
    {
      if e.ExecutionStarted? && startEvent.Some? { return false; }
      if e.ExecutionCompleted? && completedEvent.Some? { return false; }
      ghost var was := seen.keys;
      ghost var all := oldEvents + newEvents;
      if e.Resolved? {
        KnownInAll(View(), e.key);
        DetectsPresent(seen.keys, all, e.key);
        var duplicate := seen.Add(e.key);
        if duplicate { return false; }
      }
      Append(e);
      DetectsNext(was, all, e, seen.keys);
      assert oldEvents + newEvents == all + [e];
      return true;
    }
  }

  lemma KnownInAll(s: State, key: ResolutionKey)
    ensures Known(s, key) <==> Present(s.past + s.recent, key)
    ensures Ids32(s.past) && Ids32(s.recent) ==> Ids32(s.past + s.recent)
  {
    var all := s.past + s.recent;
    if Present(s.past, key) {
      var i :| 0 <= i < |s.past| && s.past[i].Resolved? && s.past[i].key == key;
      assert all[i] == s.past[i];
    }
    if Present(s.recent, key) {
      var i :| 0 <= i < |s.recent| && s.recent[i].Resolved? && s.recent[i].key == key;
      assert all[|s.past| + i] == s.recent[i];
    }
  }
}
