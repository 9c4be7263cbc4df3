/**
 Applying a turn's actions to the runtime state (backend/runtimestate/applier.go:63-504).

 Fresh identifiers, the derivation of a child's instance id and the name of the own application
 are parameters.
 */
module Applier {
  import opened Work
  import opened RuntimeStates

  datatype WorkflowAction =
    | Complete(id: int, status: Status, result: string, failure: Option<string>, carryover: seq<Event>, router: Router)
    | CreateTimer(id: int, fireAt: int)
    | ScheduleTask(id: int, name: string, executionID: string)
    | CreateChild(id: int, name: string, instanceID: string, input: string, router: Router)
    | CreateDetached(id: int, name: string, instanceID: string, executionID: string, input: string, router: Router)
    | SendEvent(id: int, instanceID: string, name: string, data: string, router: Router)
    | TerminateOther(instanceID: string, reason: string, recurse: bool, router: Router)
    | VersionNotAvailable
    | UnknownAction

  datatype Ids = Ids(appID: string, mint: int -> string, childID: (string, string, int) -> string)

  /** How far a list of actions was applied. */
  datatype Verdict = Applied(s: State) | Restarted(s: State) | Refusal(s: State)

  /******* What one action does *******/

  function ChildInstance(s: State, ids: Ids, a: WorkflowAction): string
    requires a.CreateChild?
  {
    if a.instanceID != "" then a.instanceID
    else ids.childID(s.instanceID, if s.start.Some? then s.start.value.executionID else "", a.id)
  }

  /** The history event an action records. */
  function RecordOf(s: State, ids: Ids, a: WorkflowAction): seq<Event> {
    match a
    case CreateTimer(id, fireAt) => [Event.TimerCreated(id, fireAt)]
    case ScheduleTask(id, name, executionID) => [Event.TaskScheduled(id, name, executionID)]
    case CreateChild(id, name, _, _, router) => [Event.ChildCreated(id, name, ChildInstance(s, ids, a), router)]
    case CreateDetached(id, _, instanceID, _, _, _) => [Event.DetachedCreated(id, instanceID)]
    case SendEvent(id, instanceID, name, data, _) => [EventSent(id, instanceID, name, data)]
    case _ => []
  }

  function TaskOf(resolved: ResolutionKey -> bool, a: WorkflowAction): seq<Event> {
    if a.ScheduleTask? && !resolved(Key(TaskKind, a.id)) then [Event.TaskScheduled(a.id, a.name, a.executionID)] else []
  }

  function TimerOf(resolved: ResolutionKey -> bool, a: WorkflowAction): seq<DueTimer> {
    if a.CreateTimer? && !resolved(Key(TimerKind, a.id)) then [DueTimer(a.id, a.fireAt)] else []
  }

  /** How a child finds back to the workflow that creates it (lines 531-546). */
  function ParentInfo(s: State, ids: Ids, id: int): Parent {
    Parent(s.instanceID, if s.start.Some? then s.start.value.executionID else "", id, Some(ids.appID))
  }

  function MessageOf(s: State, resolved: ResolutionKey -> bool, ids: Ids, a: WorkflowAction): seq<Message> {
    match a
    case CreateChild(id, name, _, input, router) =>
      if resolved(Key(ChildKind, id)) then []
      else
        var child := ChildInstance(s, ids, a);
        [Message(child, ExecutionStarted(Start(name, child, ids.mint(id), input, Some(ParentInfo(s, ids, id)))),
                 router)]
    case CreateDetached(id, name, instanceID, executionID, input, router) =>
      var own := if executionID != "" then executionID else ids.mint(id);
      [Message(instanceID, ExecutionStarted(Start(name, instanceID, own, input, None)), router)]
    case SendEvent(id, instanceID, name, data, router) =>
      [Message(instanceID, EventSent(id, instanceID, name, data), router)]
    case TerminateOther(instanceID, reason, recurse, router) =>
      [Message(instanceID, ExecutionTerminated(reason, recurse), router)]
    case VersionNotAvailable => [Message("", ExecutionStalled, Router(""))]
    case _ => []
  }

  function StatusName(status: Status): string {
    match status
    case Completed => "ORCHESTRATION_STATUS_COMPLETED"
    case Failed => "ORCHESTRATION_STATUS_FAILED"
    case Terminated => "ORCHESTRATION_STATUS_TERMINATED"
    case ContinuedAsNew => "ORCHESTRATION_STATUS_CONTINUED_AS_NEW"
  }

  /** Every end but success is a failure to the parent, even one without details. */
  function PayloadOf(a: WorkflowAction): Payload
    requires a.Complete?
  {
    if a.status == Completed then Result(a.result)
    else Failure(if a.failure.Some? then a.failure.value
                 else "child workflow ended with status " + StatusName(a.status))
  }

  /** The result a completed workflow reports to its parent, in the parent's application if that is known. */
  function Report(s: State, a: WorkflowAction): seq<Message>
    requires a.Complete?
  {
    if s.start.None? || s.start.value.parent.None? then []
    else
      var parent := s.start.value.parent.value;
      [Message(parent.instanceID, Resolved(Key(ChildKind, parent.taskScheduledId), PayloadOf(a)),
               if parent.appID.Some? then Router(parent.appID.value) else a.router)]
  }

  function Finish(s: State, a: WorkflowAction): State
    requires a.Complete?
  {
    AddEvent(s, ExecutionCompleted(a.id, Finished(a.status, a.result, a.failure))).(
      messages := s.messages + Report(s, a))
  }

  /** A new generation: the started events and the carried-over events, and nothing else. */
  function Restart(s: State, ids: Ids, a: WorkflowAction): State
    requires a.Complete? && s.start.Some?
  {
    var start := s.start.value.(instanceID := s.instanceID, executionID := ids.mint(a.id), input := a.result);
    AddEvents(Empty(s.instanceID).(restarted := true), [WorkflowStarted, ExecutionStarted(start)] + a.carryover)
  }

  predicate IsRestart(a: WorkflowAction) {
    a.Complete? && a.status == ContinuedAsNew
  }

  /** Actions the applier refuses; without a start event there is no name for a new generation or a child. */
  predicate Refused(s: State, a: WorkflowAction) {
    a.UnknownAction? || (a.CreateDetached? && a.instanceID == "") || (s.start.None? && (IsRestart(a) || a.CreateChild?))
  }

  function Extend(s: State, resolved: ResolutionKey -> bool, ids: Ids, a: WorkflowAction): State {
    s.(recent := s.recent + RecordOf(s, ids, a), tasks := s.tasks + TaskOf(resolved, a),
       timers := s.timers + TimerOf(resolved, a),
       messages := s.messages + MessageOf(s, resolved, ids, a),
       stalled := if RecordOf(s, ids, a) == [] then s.stalled else false)
  }

  function ApplyOne(s: State, resolved: ResolutionKey -> bool, ids: Ids, a: WorkflowAction): Verdict {
    if a.Complete? && s.completed.Some? then Applied(s)
    else if Refused(s, a) then Refusal(s)
    else if IsRestart(a) then Restarted(Restart(s, ids, a))
    else if a.Complete? then Applied(Finish(s, a))
    else Applied(Extend(s, resolved, ids, a))
  }

  function ApplyAll(s: State, resolved: ResolutionKey -> bool, ids: Ids, actions: seq<WorkflowAction>): Verdict
    decreases actions
  {
    if actions == [] then Applied(s)
    else
      var v := ApplyOne(s, resolved, ids, actions[0]);
      if v.Applied? then ApplyAll(v.s, resolved, ids, actions[1..]) else v
  }

  /** What the dedup set answers at the start of a pass. */
  function Snapshot(s: State): ResolutionKey -> bool {
    key => Known(s, key)
  }

  function Apply(s: State, ids: Ids, actions: seq<WorkflowAction>): Verdict {
    ApplyAll(s.(stalled := false), Snapshot(s), ids, actions)
  }

  lemma {:induction false} ApplySnoc(s: State, resolved: ResolutionKey -> bool, ids: Ids, actions: seq<WorkflowAction>,
                                     i: nat)
    requires i < |actions| && ApplyAll(s, resolved, ids, actions[..i]).Applied?
    ensures var v := ApplyOne(ApplyAll(s, resolved, ids, actions[..i]).s, resolved, ids, actions[i]);
            && ApplyAll(s, resolved, ids, actions[..i + 1]) == v
            && (!v.Applied? ==> ApplyAll(s, resolved, ids, actions) == v)
    decreases i
  {
    if i > 0 {
      var s1 := ApplyOne(s, resolved, ids, actions[0]).s;
      assert actions[..i][0] == actions[0] && actions[..i][1..] == actions[1..][..i - 1];
      assert actions[..i + 1][1..] == actions[1..][..i];
      ApplySnoc(s1, resolved, ids, actions[1..], i - 1);
      assert actions[1..][i - 1] == actions[i];
    } else {
      assert actions[..0] == [] && actions[..1] == [actions[0]] && actions[..1][1..] == [];
    }
  }

  /******* Each list on its own *******/

  /** The first completion is recorded; the others are not. */
  function RecordStep(s: State, ids: Ids, completed: bool, a: WorkflowAction): seq<Event> {
    if !a.Complete? then RecordOf(s, ids, a)
    else if completed then [] else [ExecutionCompleted(a.id, Finished(a.status, a.result, a.failure))]
  }

  function Records(s: State, ids: Ids, completed: bool, actions: seq<WorkflowAction>): seq<Event>
    decreases actions
  {
    if actions == [] then []
    else RecordStep(s, ids, completed, actions[0]) + Records(s, ids, completed || actions[0].Complete?, actions[1..])
  }

  function Tasks(resolved: ResolutionKey -> bool, actions: seq<WorkflowAction>): seq<Event>
    decreases actions
  {
    if actions == [] then [] else TaskOf(resolved, actions[0]) + Tasks(resolved, actions[1..])
  }

  function Timers(resolved: ResolutionKey -> bool, actions: seq<WorkflowAction>): seq<DueTimer>
    decreases actions
  {
    if actions == [] then [] else TimerOf(resolved, actions[0]) + Timers(resolved, actions[1..])
  }

  function MessageStep(s: State, resolved: ResolutionKey -> bool, ids: Ids, completed: bool,
                       a: WorkflowAction): seq<Message> {
    if !a.Complete? then MessageOf(s, resolved, ids, a) else if completed then [] else Report(s, a)
  }

  function Messages(s: State, resolved: ResolutionKey -> bool, ids: Ids, completed: bool,
                    actions: seq<WorkflowAction>): seq<Message>
    decreases actions
  {
    if actions == [] then []
    else MessageStep(s, resolved, ids, completed, actions[0]) +
         Messages(s, resolved, ids, completed || actions[0].Complete?, actions[1..])
  }

  /** What the per-action functions look at does not change during a pass. */
  ghost predicate SameInstance(s: State, t: State) {
    s.instanceID == t.instanceID && s.start == t.start
  }

  lemma {:induction false} SameLists(s: State, t: State, resolved: ResolutionKey -> bool, ids: Ids, completed: bool,
                                     actions: seq<WorkflowAction>)
    requires SameInstance(s, t)
    ensures Records(s, ids, completed, actions) == Records(t, ids, completed, actions)
    ensures Messages(s, resolved, ids, completed, actions) == Messages(t, resolved, ids, completed, actions)
    decreases actions
  {
    if actions != [] { SameLists(s, t, resolved, ids, completed || actions[0].Complete?, actions[1..]); }
  }

  lemma OneAppends(s: State, resolved: ResolutionKey -> bool, ids: Ids, a: WorkflowAction)
    requires ApplyOne(s, resolved, ids, a).Applied?
    ensures var r, done := ApplyOne(s, resolved, ids, a).s, s.completed.Some?;
            && SameInstance(s, r) && r.past == s.past && r.restarted == s.restarted
            && (r.completed.Some? <==> done || a.Complete?)
            && r.recent == s.recent + RecordStep(s, ids, done, a)
            && r.tasks == s.tasks + TaskOf(resolved, a)
            && r.timers == s.timers + TimerOf(resolved, a)
            && r.messages == s.messages + MessageStep(s, resolved, ids, done, a)
  {
    hide RecordOf, MessageOf;
  }

  /**
   Applier refinement: unless a continue-as-new or a refused action ends the pass, the history and
   the three outboxes grow independently of each other, by one record per recorded action and by
   one entry per scheduled piece of work that was not resolved when the pass began.
   */
  lemma {:induction false} ApplyAppends(s: State, resolved: ResolutionKey -> bool, ids: Ids,
                                        actions: seq<WorkflowAction>)
    requires ApplyAll(s, resolved, ids, actions).Applied?
    ensures var r, done := ApplyAll(s, resolved, ids, actions).s, s.completed.Some?;
            && SameInstance(s, r) && r.past == s.past && r.restarted == s.restarted
            && r.recent == s.recent + Records(s, ids, done, actions)
            && r.tasks == s.tasks + Tasks(resolved, actions)
            && r.timers == s.timers + Timers(resolved, actions)
            && r.messages == s.messages + Messages(s, resolved, ids, done, actions)
    decreases actions
  {
    hide ApplyOne, RecordStep, MessageStep, TaskOf, TimerOf;
    if actions != [] {
      var t := ApplyOne(s, resolved, ids, actions[0]).s;
      OneAppends(s, resolved, ids, actions[0]);
      ApplyAppends(t, resolved, ids, actions[1..]);
      SameLists(s, t, resolved, ids, t.completed.Some?, actions[1..]);
    }
  }

  /******* The pass as a loop over the state *******/

  datatype Outcome = Done | NewGeneration | Rejected

  function VerdictOf(outcome: Outcome, s: State): Verdict {
    match outcome
    case Done => Applied(s)
    case NewGeneration => Restarted(s)
    case Rejected => Refusal(s)
  }

  predicate HasId(a: WorkflowAction) {
    a.Complete? || a.CreateTimer? || a.ScheduleTask? || a.CreateChild? || a.CreateDetached? || a.SendEvent?
  }

  predicate Id32(a: WorkflowAction) {
    HasId(a) ==> Int32(a.id)
  }

  /** The dedup set answers as the snapshot does. */
  ghost predicate Answers(keys: set<nat>, known: seq<Event>, resolved: ResolutionKey -> bool) {
    Detects(keys, known) && Ids32(known) && forall key: ResolutionKey :: resolved(key) <==> Present(known, key)
  }

  /** Replaces the contents of a state with those of a new one (lines 506-523). */
  method Replace(s: RuntimeState, source: RuntimeState)
    requires s.instanceID == source.instanceID
    modifies s
    ensures s.View() == old(source.View())
  {
    s.oldEvents, s.newEvents, s.startEvent, s.completedEvent :=
      source.oldEvents, source.newEvents, source.startEvent, source.completedEvent;
    s.isSuspended, s.stalled, s.continuedAsNew := source.isSuspended, source.stalled, source.continuedAsNew;
    s.pendingTasks, s.pendingTimers, s.pendingMessages :=
      source.pendingTasks, source.pendingTimers, source.pendingMessages;
  }

  /** Adds events one by one; what a duplicate check rejects is dropped. */
  method AddEach(s: RuntimeState, events: seq<Event>)
    modifies s
    ensures s.View() == AddEvents(old(s.View()), events)
  {
    hide AddEvent;
    assert events[..0] == [];
    for i := 0 to |events|
      invariant s.View() == AddEvents(old(s.View()), events[..i])
    {
      assert events[..i + 1][..i] == events[..i];
      var accepted := s.Add(events[i]);
    }
    assert events[..|events|] == events;
  }

  method Regenerate(s: RuntimeState, ids: Ids, a: WorkflowAction)
    requires a.Complete? && s.startEvent.Some?
    modifies s
    ensures s.View() == Restart(old(s.View()), ids, a)
  {
    hide AddEvents;
    var next := new RuntimeState(s.instanceID);
    next.continuedAsNew := true;
    var start := s.startEvent.value.(instanceID := s.instanceID, executionID := ids.mint(a.id), input := a.result);
    AddEach(next, [WorkflowStarted, ExecutionStarted(start)] + a.carryover);
    AddEventsKeepsInstance(Empty(s.instanceID).(restarted := true),
                           [WorkflowStarted, ExecutionStarted(start)] + a.carryover);
    Replace(s, next);
  }

  lemma {:induction false} AddEventsKeepsInstance(s: State, events: seq<Event>)
    ensures AddEvents(s, events).instanceID == s.instanceID
  {
    if events != [] { AddEventsKeepsInstance(s, events[..|events| - 1]); }
  }

  method CompleteWorkflow(s: RuntimeState, a: WorkflowAction)
    requires a.Complete?
    modifies s
    ensures s.View() == Finish(old(s.View()), a)
  {
    var accepted := s.Add(ExecutionCompleted(a.id, Finished(a.status, a.result, a.failure)));
    if s.startEvent.Some? && s.startEvent.value.parent.Some? {
      var parent := s.startEvent.value.parent.value;
      var router := a.router;
      if parent.appID.Some? { router := Router(parent.appID.value); }
      var payload := Result(a.result);
      if a.status != Completed {
        payload := Failure("child workflow ended with status " + StatusName(a.status));
        if a.failure.Some? { payload := Failure(a.failure.value); }
      }
      var report := Resolved(Key(ChildKind, parent.taskScheduledId), payload);
      s.pendingMessages := s.pendingMessages + [Message(parent.instanceID, report, router)];
    }
  }

  /** Records the action's event, if it has one. */
  method RecordAction(s: RuntimeState, ids: Ids, a: WorkflowAction)
    requires !a.Complete?
    modifies s`newEvents, s`startEvent, s`completedEvent, s`isSuspended, s`stalled
    ensures var v, r := old(s.View()), RecordOf(old(s.View()), ids, a);
            s.View() == v.(recent := v.recent + r, stalled := if r == [] then v.stalled else false)
  {
    var accepted := true;
    match a {
      case CreateTimer(id, fireAt) => accepted := s.Add(Event.TimerCreated(id, fireAt));
      case ScheduleTask(id, name, executionID) => accepted := s.Add(Event.TaskScheduled(id, name, executionID));
      case CreateChild(id, name, instanceID, input, router) =>
        var child := instanceID;
        if child == "" {
          child := ids.childID(s.instanceID, if s.startEvent.Some? then s.startEvent.value.executionID else "", id);
        }
        accepted := s.Add(Event.ChildCreated(id, name, child, router));
      case CreateDetached(id, name, instanceID, executionID, input, router) =>
        accepted := s.Add(Event.DetachedCreated(id, instanceID));
      case SendEvent(id, instanceID, name, data, router) => accepted := s.Add(EventSent(id, instanceID, name, data));
      case _ =>
    }
  }

  /** Fills the outboxes, unless the work was resolved before the pass began. */
  method DispatchAction(s: RuntimeState, seen: DedupSet, ghost known: seq<Event>,
                        ghost resolved: ResolutionKey -> bool, ids: Ids, a: WorkflowAction)
    requires !a.Complete? && !a.UnknownAction? && Id32(a) && Answers(seen.keys, known, resolved)
    modifies s`pendingTasks, s`pendingTimers, s`pendingMessages
    ensures var v := old(s.View());
            s.View() == v.(tasks := v.tasks + TaskOf(resolved, a), timers := v.timers + TimerOf(resolved, a),
                           messages := v.messages + MessageOf(v, resolved, ids, a))
  {
    if a.ScheduleTask? {
      var present := seen.Has(Key(TaskKind, a.id), known);
      if !present { s.pendingTasks := s.pendingTasks + [Event.TaskScheduled(a.id, a.name, a.executionID)]; }
    } else if a.CreateTimer? {
      var present := seen.Has(Key(TimerKind, a.id), known);
      if !present { s.pendingTimers := s.pendingTimers + [DueTimer(a.id, a.fireAt)]; }
    } else if a.CreateChild? {
      var present := seen.Has(Key(ChildKind, a.id), known);
      if !present {
        var executionID := if s.startEvent.Some? then s.startEvent.value.executionID else "";
        var child := if a.instanceID != "" then a.instanceID else ids.childID(s.instanceID, executionID, a.id);
        var parent := Parent(s.instanceID, executionID, a.id, Some(ids.appID));
        var start := Start(a.name, child, ids.mint(a.id), a.input, Some(parent));
        s.pendingMessages := s.pendingMessages + [Message(child, ExecutionStarted(start), a.router)];
      }
    } else if a.CreateDetached? {
      var executionID := a.executionID;
      if executionID == "" { executionID := ids.mint(a.id); }
      var start := Start(a.name, a.instanceID, executionID, a.input, None);
      s.pendingMessages := s.pendingMessages + [Message(a.instanceID, ExecutionStarted(start), a.router)];
    } else if a.SendEvent? {
      s.pendingMessages := s.pendingMessages +
        [Message(a.instanceID, EventSent(a.id, a.instanceID, a.name, a.data), a.router)];
    } else if a.TerminateOther? {
      s.pendingMessages := s.pendingMessages +
        [Message(a.instanceID, ExecutionTerminated(a.reason, a.recurse), a.router)];
    } else {
      s.pendingMessages := s.pendingMessages + [Message("", ExecutionStalled, Router(""))];
    }
  }

  method ApplyAction(s: RuntimeState, seen: DedupSet, ghost known: seq<Event>, ghost resolved: ResolutionKey -> bool,
                     ids: Ids, a: WorkflowAction) returns (outcome: Outcome)
    requires Id32(a) && Answers(seen.keys, known, resolved)
    modifies s
    ensures VerdictOf(outcome, s.View()) == ApplyOne(old(s.View()), resolved, ids, a)
  {
    hide RecordOf, MessageOf, Answers, Restart, TaskOf, TimerOf;
    ghost var v := s.View();
    if a.Complete? {
      if s.completedEvent.Some? { return Done; }
      if a.status == ContinuedAsNew {
        if s.startEvent.None? { return Rejected; }
        Regenerate(s, ids, a);
        return NewGeneration;
      }
      CompleteWorkflow(s, a);
      return Done;
    }
    if a.UnknownAction? || (a.CreateDetached? && a.instanceID == "") || (a.CreateChild? && s.startEvent.None?) {
      return Rejected;
    }
    RecordAction(s, ids, a);
    MessageOfRecorded(v, s.View(), resolved, ids, a);
    DispatchAction(s, seen, known, resolved, ids, a);
    return Done;
  }

  lemma MessageOfRecorded(s: State, t: State, resolved: ResolutionKey -> bool, ids: Ids, a: WorkflowAction)
    requires SameInstance(s, t)
    ensures MessageOf(s, resolved, ids, a) == MessageOf(t, resolved, ids, a)
  {
  }

  /** The whole pass. */
  method Actions(s: RuntimeState, ids: Ids, actions: seq<WorkflowAction>) returns (outcome: Outcome)
    requires Ids32(s.oldEvents) && Ids32(s.newEvents) && forall i :: 0 <= i < |actions| ==> Id32(actions[i])
    modifies s
    ensures VerdictOf(outcome, s.View()) == Apply(old(s.View()), ids, actions)
  {
    hide ApplyOne, Answers, Detects, Known, Ids32;
    ghost var v := s.View();
    ghost var known, resolved := v.past + v.recent, Snapshot(v);
    s.stalled := false;
    var seen := new DedupSet();
    DetectsNothing();
    seen.Populate(s.oldEvents, []);
    assert [] + s.oldEvents == s.oldEvents;
    seen.Populate(s.newEvents, s.oldEvents);
    SnapshotAnswers(v, seen.keys);
    assert actions[..0] == [];
    for i := 0 to |actions|
      invariant ApplyAll(v.(stalled := false), resolved, ids, actions[..i]) == Applied(s.View())
      invariant Answers(seen.keys, known, resolved)
    {
      ApplySnoc(v.(stalled := false), resolved, ids, actions, i);
      outcome := ApplyAction(s, seen, known, resolved, ids, actions[i]);
      if !outcome.Done? { return; }
    }
    assert actions[..|actions|] == actions;
    return Done;
  }

  lemma SnapshotAnswers(s: State, keys: set<nat>)
    requires Ids32(s.past) && Ids32(s.recent) && Detects(keys, s.past + s.recent)
    ensures Answers(keys, s.past + s.recent, Snapshot(s))
  {
    forall key: ResolutionKey ensures Snapshot(s)(key) <==> Present(s.past + s.recent, key) {
      KnownInAll(s, key);
    }
    KnownInAll(s, Key(TaskKind, 0));
  }
}
