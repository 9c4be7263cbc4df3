/** What every pass of the applier guarantees. */
module ApplierTheorems {
  import opened Work
  import opened RuntimeStates
  import opened Applier

  /******* Counting *******/

  function Count<T>(q: seq<T>, p: T -> bool): nat {
    if q == [] then 0 else (if p(q[0]) then 1 else 0) + Count(q[1..], p)
  }

  lemma {:induction false} CountConcat<T>(a: seq<T>, b: seq<T>, p: T -> bool)
    ensures Count(a + b, p) == Count(a, p) + Count(b, p)
  {
    if a == [] {
      assert a + b == b;
    } else {
      assert (a + b)[1..] == a[1..] + b;
      CountConcat(a[1..], b, p);
    }
  }

  lemma CountOne<T>(x: T, p: T -> bool)
    ensures Count([x], p) == if p(x) then 1 else 0
  {
    assert [x][1..] == [];
  }

  /******* Each kind of work *******/

  /** What a function finds in the elements of a list, in order. */
  function Collect<T, U>(q: seq<T>, f: T -> Option<U>): seq<U> {
    if q == [] then [] else (if f(q[0]).Some? then [f(q[0]).value] else []) + Collect(q[1..], f)
  }

  lemma {:induction false} CollectConcat<T, U>(a: seq<T>, b: seq<T>, f: T -> Option<U>)
    ensures Collect(a + b, f) == Collect(a, f) + Collect(b, f)
  {
    if a == [] {
      assert a + b == b;
    } else {
      assert (a + b)[0] == a[0] && (a + b)[1..] == a[1..] + b;
      CollectConcat(a[1..], b, f);
      var head := if f(a[0]).Some? then [f(a[0]).value] else [];
      var rest := Collect(a[1..], f);
      assert Collect(a + b, f) == head + (rest + Collect(b, f)) == head + rest + Collect(b, f);
    }
  }

  /** At most one element, of which something is found or not. */
  lemma CollectFew<T, U>(q: seq<T>, f: T -> Option<U>)
    requires |q| <= 1
    ensures Collect(q, f) == if q != [] && f(q[0]).Some? then [f(q[0]).value] else []
  {
  }

  datatype EventKind = OfActivity | OfTimer | OfChild | OfDetached | OfSend

  function Recorded(kind: EventKind): Event -> Option<Event> {
    (e: Event) =>
      if (match kind
          case OfActivity => e.TaskScheduled?
          case OfTimer => e.TimerCreated?
          case OfChild => e.ChildCreated?
          case OfDetached => e.DetachedCreated?
          case OfSend => e.EventSent?)
      then Some(e) else None
  }

  /** The instance of a child: the one asked for, or one derived from the workflow's own execution. */
  function Instance(s: State, ids: Ids, asked: string, id: int): string {
    if asked != "" then asked
    else ids.childID(s.instanceID, if s.start.Some? then s.start.value.executionID else "", id)
  }

  /** What an action of this kind asks history to record, with all it says. */
  function Asked(s: State, ids: Ids, kind: EventKind): WorkflowAction -> Option<Event> {
    (a: WorkflowAction) =>
      match kind
      case OfActivity => if a.ScheduleTask? then Some(Event.TaskScheduled(a.id, a.name, a.executionID)) else None
      case OfTimer => if a.CreateTimer? then Some(Event.TimerCreated(a.id, a.fireAt)) else None
      case OfChild =>
        if a.CreateChild? then Some(Event.ChildCreated(a.id, a.name, Instance(s, ids, a.instanceID, a.id), a.router))
        else None
      case OfDetached => if a.CreateDetached? then Some(Event.DetachedCreated(a.id, a.instanceID)) else None
      case OfSend => if a.SendEvent? then Some(EventSent(a.id, a.instanceID, a.name, a.data)) else None
  }

  lemma RecordedStep(s: State, ids: Ids, completed: bool, kind: EventKind, a: WorkflowAction)
    ensures Collect(RecordStep(s, ids, completed, a), Recorded(kind)) ==
            if Asked(s, ids, kind)(a).Some? then [Asked(s, ids, kind)(a).value] else []
  {
    CollectFew(RecordStep(s, ids, completed, a), Recorded(kind));
  }

  /** History records exactly the work that was asked for, of each kind, in order and with all that was asked. */
  lemma {:induction false} WorkRecorded(s: State, ids: Ids, completed: bool, kind: EventKind,
                                        actions: seq<WorkflowAction>)
    ensures Collect(Records(s, ids, completed, actions), Recorded(kind)) == Collect(actions, Asked(s, ids, kind))
    decreases actions
  {
    hide RecordStep, Recorded, Asked;
    if actions != [] {
      var a := actions[0];
      RecordedStep(s, ids, completed, kind, a);
      WorkRecorded(s, ids, completed || a.Complete?, kind, actions[1..]);
      CollectConcat(RecordStep(s, ids, completed, a),
                    Records(s, ids, completed || a.Complete?, actions[1..]), Recorded(kind));
    }
  }

  function UnresolvedTask(resolved: ResolutionKey -> bool): WorkflowAction -> Option<Event> {
    (a: WorkflowAction) =>
      if a.ScheduleTask? && !resolved(Key(TaskKind, a.id))
      then Some(Event.TaskScheduled(a.id, a.name, a.executionID)) else None
  }

  function UnfiredTimer(resolved: ResolutionKey -> bool): WorkflowAction -> Option<DueTimer> {
    (a: WorkflowAction) =>
      if a.CreateTimer? && !resolved(Key(TimerKind, a.id)) then Some(DueTimer(a.id, a.fireAt)) else None
  }

  /** Exactly the activities that were not resolved yet are dispatched, in order, as they were asked for. */
  lemma {:induction false} TasksDispatched(resolved: ResolutionKey -> bool, actions: seq<WorkflowAction>)
    ensures Tasks(resolved, actions) == Collect(actions, UnresolvedTask(resolved))
    decreases actions
  {
    if actions != [] { TasksDispatched(resolved, actions[1..]); }
  }

  /** Exactly the timers that had not fired yet are set, in order, as they were asked for. */
  lemma {:induction false} TimersSet(resolved: ResolutionKey -> bool, actions: seq<WorkflowAction>)
    ensures Timers(resolved, actions) == Collect(actions, UnfiredTimer(resolved))
    decreases actions
  {
    if actions != [] { TimersSet(resolved, actions[1..]); }
  }

  datatype MessageKind = ToChild | ToDetached | ToReceiver | ToTerminated

  function Sent(kind: MessageKind): Message -> Option<Message> {
    (m: Message) =>
      if (match kind
          case ToChild => m.event.ExecutionStarted? && m.event.start.parent.Some?
          case ToDetached => m.event.ExecutionStarted? && m.event.start.parent.None?
          case ToReceiver => m.event.EventSent?
          case ToTerminated => m.event.ExecutionTerminated?)
      then Some(m) else None
  }

  /**
   What an action of this kind asks to be sent: a child that was not resolved yet is started with a way back to
   its parent, a detached workflow without one and under the identity asked for, if any.
   */
  function AskedToSend(s: State, resolved: ResolutionKey -> bool, ids: Ids,
                       kind: MessageKind): WorkflowAction -> Option<Message> {
    (a: WorkflowAction) =>
      match kind
      case ToChild =>
        if a.CreateChild? && !resolved(Key(ChildKind, a.id)) then
          var child := Instance(s, ids, a.instanceID, a.id);
          var own := if s.start.Some? then s.start.value.executionID else "";
          var back := Parent(s.instanceID, own, a.id, Some(ids.appID));
          Some(Message(child, ExecutionStarted(Start(a.name, child, ids.mint(a.id), a.input, Some(back))), a.router))
        else None
      case ToDetached =>
        if a.CreateDetached? then
          var own := if a.executionID == "" then ids.mint(a.id) else a.executionID;
          Some(Message(a.instanceID, ExecutionStarted(Start(a.name, a.instanceID, own, a.input, None)), a.router))
        else None
      case ToReceiver =>
        if a.SendEvent? then Some(Message(a.instanceID, EventSent(a.id, a.instanceID, a.name, a.data), a.router))
        else None
      case ToTerminated =>
        if a.TerminateOther? then Some(Message(a.instanceID, ExecutionTerminated(a.reason, a.recurse), a.router))
        else None
  }

  lemma SentStep(s: State, resolved: ResolutionKey -> bool, ids: Ids, completed: bool, kind: MessageKind,
                 a: WorkflowAction)
    ensures Collect(MessageStep(s, resolved, ids, completed, a), Sent(kind)) ==
            if AskedToSend(s, resolved, ids, kind)(a).Some? then [AskedToSend(s, resolved, ids, kind)(a).value] else []
  {
    CollectFew(MessageStep(s, resolved, ids, completed, a), Sent(kind));
  }

  /** Exactly the messages that were asked for are sent, of each kind, in order and with all that was asked. */
  lemma {:induction false} MessagesSent(s: State, resolved: ResolutionKey -> bool, ids: Ids, completed: bool,
                                        kind: MessageKind, actions: seq<WorkflowAction>)
    ensures Collect(Messages(s, resolved, ids, completed, actions), Sent(kind)) ==
            Collect(actions, AskedToSend(s, resolved, ids, kind))
    decreases actions
  {
    hide MessageStep, Sent, AskedToSend;
    if actions != [] {
      var a := actions[0];
      SentStep(s, resolved, ids, completed, kind, a);
      MessagesSent(s, resolved, ids, completed || a.Complete?, kind, actions[1..]);
      CollectConcat(MessageStep(s, resolved, ids, completed, a),
                    Messages(s, resolved, ids, completed || a.Complete?, actions[1..]), Sent(kind));
    }
  }

  /******* The parent is told once *******/

  function IsReport(): Message -> bool {
    (m: Message) => m.event.Resolved?
  }

  predicate HasParent(s: State) {
    s.start.Some? && s.start.value.parent.Some?
  }

  lemma ReportStep(s: State, resolved: ResolutionKey -> bool, ids: Ids, completed: bool, a: WorkflowAction)
    ensures Count(MessageStep(s, resolved, ids, completed, a), IsReport()) ==
            if a.Complete? && !completed && HasParent(s) then 1 else 0
  {
    var ms := MessageStep(s, resolved, ids, completed, a);
    if ms != [] { CountOne(ms[0], IsReport()); }
  }

  /** A pass reports to the parent once if it completes a child workflow, and not at all otherwise. */
  lemma {:induction false} ParentToldOnce(s: State, resolved: ResolutionKey -> bool, ids: Ids, completed: bool,
                                          actions: seq<WorkflowAction>)
    ensures Count(Messages(s, resolved, ids, completed, actions), IsReport()) ==
            if !completed && HasCompletion(actions) && HasParent(s) then 1 else 0
    decreases actions
  {
    hide MessageStep, IsReport;
    if actions != [] {
      var a := actions[0];
      ReportStep(s, resolved, ids, completed, a);
      ParentToldOnce(s, resolved, ids, completed || a.Complete?, actions[1..]);
      CountConcat(MessageStep(s, resolved, ids, completed, a),
                  Messages(s, resolved, ids, completed || a.Complete?, actions[1..]), IsReport());
      assert actions == [a] + actions[1..];
    }
  }

  /** A start message with a parent comes from one of the pass's children, and names it. */
  lemma {:induction false} StartNamesChild(s: State, resolved: ResolutionKey -> bool, ids: Ids, completed: bool,
                                           actions: seq<WorkflowAction>, m: Message) returns (i: nat)
    requires m in Messages(s, resolved, ids, completed, actions) && m.event.ExecutionStarted? &&
      m.event.start.parent.Some?
    ensures i < |actions| && actions[i].CreateChild? && !resolved(Key(ChildKind, actions[i].id))
    ensures m.target == ChildInstance(s, ids, actions[i]) == m.event.start.instanceID
    ensures m.event.start.parent == Some(ParentInfo(s, ids, actions[i].id))
    decreases actions
  {
    var a := actions[0];
    if m in MessageStep(s, resolved, ids, completed, a) {
      i := 0;
    } else {
      var j := StartNamesChild(s, resolved, ids, completed || a.Complete?, actions[1..], m);
      i := j + 1;
    }
  }

  lemma {:induction false} AddEventsKeepsStart(s: State, events: seq<Event>)
    requires s.start.Some?
    ensures AddEvents(s, events).start == s.start
  {
    if events != [] { AddEventsKeepsStart(s, events[..|events| - 1]); }
  }

  lemma {:induction false} RestartKeepsParent(t: State, ids: Ids, c: WorkflowAction)
    requires c.Complete? && t.start.Some?
    ensures var r := Restart(t, ids, c); r.start.Some? && r.start.value.parent == t.start.value.parent
  {
    var start := t.start.value.(instanceID := t.instanceID, executionID := ids.mint(c.id), input := c.result);
    var s0, opening := Empty(t.instanceID).(restarted := true), [WorkflowStarted, ExecutionStarted(start)];
    AddEventsConcat(s0, opening, c.carryover);
    assert opening[..1] == [WorkflowStarted] && [WorkflowStarted][..0] == [];
    assert AddEvents(s0, [WorkflowStarted]) == AddEvent(s0, WorkflowStarted);
    assert AddEvents(s0, opening) == AddEvent(AddEvent(s0, WorkflowStarted), ExecutionStarted(start));
    AddEventsKeepsStart(AddEvents(s0, opening), c.carryover);
  }

  /** The generations of a workflow that continues as new, one for each completion. */
  function Generation(t: State, ids: Ids, restarts: seq<WorkflowAction>): State
    requires t.start.Some? && forall i :: 0 <= i < |restarts| ==> restarts[i].Complete?
    decreases restarts
  {
    if restarts == [] then t
    else
      RestartKeepsParent(t, ids, restarts[0]);
      Generation(Restart(t, ids, restarts[0]), ids, restarts[1..])
  }

  lemma {:induction false} GenerationKeepsParent(t: State, ids: Ids, restarts: seq<WorkflowAction>)
    requires t.start.Some? && forall i :: 0 <= i < |restarts| ==> restarts[i].Complete?
    ensures var r := Generation(t, ids, restarts); r.start.Some? && r.start.value.parent == t.start.value.parent
    decreases restarts
  {
    if restarts != [] {
      RestartKeepsParent(t, ids, restarts[0]);
      GenerationKeepsParent(Restart(t, ids, restarts[0]), ids, restarts[1..]);
    }
  }

  /**
   A child reports back: whichever generation of it completes, the one message it sends goes to the
   instance and application that created it and resolves the very number it was created under.
   */
  lemma {:induction false} ChildReportsBack(s: State, resolved: ResolutionKey -> bool, ids: Ids, completed: bool,
                                            actions: seq<WorkflowAction>,
                                            m: Message, t: State, childIds: Ids,
                                            restarts: seq<WorkflowAction>, c: WorkflowAction)
    returns (i: nat, payload: Payload)
    requires m in Messages(s, resolved, ids, completed, actions) && m.event.ExecutionStarted? &&
      m.event.start.parent.Some?
    requires t.start == Some(m.event.start) && c.Complete?
    requires forall i :: 0 <= i < |restarts| ==> restarts[i].Complete?
    ensures i < |actions| && actions[i].CreateChild? && !resolved(Key(ChildKind, actions[i].id))
    ensures Report(Generation(t, childIds, restarts), c) ==
            [Message(s.instanceID, Resolved(Key(ChildKind, actions[i].id), payload), Router(ids.appID))]
    ensures if c.status == Completed then payload == Result(c.result)
            else payload.Failure? && (c.failure.Some? ==> payload.details == c.failure.value)
  {
    hide Generation, Messages, ChildInstance;
    i := StartNamesChild(s, resolved, ids, completed, actions, m);
    GenerationKeepsParent(t, childIds, restarts);
    payload := PayloadOf(c);
  }

  predicate HasCompletion(actions: seq<WorkflowAction>) {
    exists i :: 0 <= i < |actions| && actions[i].Complete?
  }

  /******* Completions *******/

  /** No action restarts, and none is refused. */
  ghost predicate Ordinary(s: State, actions: seq<WorkflowAction>) {
    forall i :: 0 <= i < |actions| ==> !actions[i].Complete? && !Refused(s, actions[i])
  }

  function WithoutCompletions(actions: seq<WorkflowAction>): seq<WorkflowAction> {
    if actions == [] then []
    else (if actions[0].Complete? then [] else [actions[0]]) + WithoutCompletions(actions[1..])
  }

  lemma {:induction false} ApplyConcat(s: State, resolved: ResolutionKey -> bool, ids: Ids, a: seq<WorkflowAction>,
                                       b: seq<WorkflowAction>)
    ensures ApplyAll(s, resolved, ids, a + b) ==
            if ApplyAll(s, resolved, ids, a).Applied? then ApplyAll(ApplyAll(s, resolved, ids, a).s, resolved, ids, b)
            else ApplyAll(s, resolved, ids, a)
    decreases a
  {
    if a == [] {
      assert a + b == b;
    } else {
      assert (a + b)[1..] == a[1..] + b;
      var v := ApplyOne(s, resolved, ids, a[0]);
      if v.Applied? { ApplyConcat(v.s, resolved, ids, a[1..], b); }
    }
  }

  /** Once completed, later completions make no difference. */
  lemma {:induction false} LaterCompletionsIgnored(s: State, resolved: ResolutionKey -> bool, ids: Ids,
                                                   actions: seq<WorkflowAction>)
    requires s.completed.Some?
    ensures ApplyAll(s, resolved, ids, actions) == ApplyAll(s, resolved, ids, WithoutCompletions(actions))
    ensures !ApplyAll(s, resolved, ids, actions).Restarted? &&
      ApplyAll(s, resolved, ids, actions).s.completed == s.completed
    decreases actions
  {
    if actions != [] {
      var v := ApplyOne(s, resolved, ids, actions[0]);
      var rest := WithoutCompletions(actions[1..]);
      if actions[0].Complete? {
        LaterCompletionsIgnored(s, resolved, ids, actions[1..]);
        assert WithoutCompletions(actions) == rest;
      } else {
        assert WithoutCompletions(actions) == [actions[0]] + rest;
        assert ([actions[0]] + rest)[1..] == rest;
        if v.Applied? { LaterCompletionsIgnored(v.s, resolved, ids, actions[1..]); }
      }
    }
  }

  /** Ordinary actions neither complete nor end the pass. */
  lemma {:induction false} OrdinaryApplies(s: State, resolved: ResolutionKey -> bool, ids: Ids,
                                           actions: seq<WorkflowAction>)
    requires Ordinary(s, actions)
    ensures var v := ApplyAll(s, resolved, ids, actions);
            v.Applied? && v.s.completed == s.completed && v.s.start == s.start && v.s.instanceID == s.instanceID
    decreases actions
  {
    if actions != [] {
      var v := ApplyOne(s, resolved, ids, actions[0]);
      assert Ordinary(v.s, actions[1..]);
      OrdinaryApplies(v.s, resolved, ids, actions[1..]);
    }
  }

  /** The first completion wins: nothing after it completes differently, restarts or resets anything. */
  lemma {:induction false} FirstCompletionWins(s: State, resolved: ResolutionKey -> bool, ids: Ids,
                                               before: seq<WorkflowAction>, c: WorkflowAction,
                                               after: seq<WorkflowAction>)
    requires s.completed.None? && Ordinary(s, before) && c.Complete? && !IsRestart(c)
    ensures var v := ApplyAll(s, resolved, ids, before + [c] + after);
            && !v.Restarted? && v.s.completed == Some(Finished(c.status, c.result, c.failure))
            && v == ApplyAll(s, resolved, ids, before + [c] + WithoutCompletions(after))
  {
    OrdinaryApplies(s, resolved, ids, before);
    var s1 := ApplyAll(s, resolved, ids, before).s;
    ApplyConcat(s, resolved, ids, before, [c]);
    var s2 := Finish(s1, c);
    assert [c][1..] == [];
    assert ApplyAll(s1, resolved, ids, [c]) == Applied(s2);
    ApplyConcat(s, resolved, ids, before + [c], after);
    ApplyConcat(s, resolved, ids, before + [c], WithoutCompletions(after));
    LaterCompletionsIgnored(s2, resolved, ids, after);
  }

  /** A continue-as-new leaves the new generation only, whatever was applied before it or would come after it. */
  lemma {:induction false} RestartLeavesNewGeneration(s: State, resolved: ResolutionKey -> bool, ids: Ids,
                                                      before: seq<WorkflowAction>, c: WorkflowAction,
                                                      after: seq<WorkflowAction>)
    requires s.completed.None? && s.start.Some? && Ordinary(s, before) && IsRestart(c)
    ensures var v := ApplyAll(s, resolved, ids, before + [c] + after);
            && v == Restarted(Restart(s, ids, c))
            && v.s.past == [] && v.s.tasks == [] && v.s.timers == [] && v.s.messages == [] && v.s.restarted
  {
    OrdinaryApplies(s, resolved, ids, before);
    var s1 := ApplyAll(s, resolved, ids, before).s;
    ApplyConcat(s, resolved, ids, before, [c]);
    assert ApplyAll(s1, resolved, ids, [c]) == Restarted(Restart(s1, ids, c));
    ApplyConcat(s, resolved, ids, before + [c], after);
    var start := s.start.value.(instanceID := s.instanceID, executionID := ids.mint(c.id), input := c.result);
    AddEventsOutbox(Empty(s.instanceID).(restarted := true), [WorkflowStarted, ExecutionStarted(start)] + c.carryover);
  }

  lemma {:induction false} AddEventsOutbox(s: State, events: seq<Event>)
    ensures var r := AddEvents(s, events);
            && r.past == s.past && r.tasks == s.tasks && r.timers == s.timers && r.messages == s.messages
            && r.restarted == s.restarted && r.instanceID == s.instanceID
  {
    if events != [] { AddEventsOutbox(s, events[..|events| - 1]); }
  }

  /** Events that are neither starts, completions nor resolutions are all kept. */
  lemma {:induction false} PlainEventsKept(s: State, events: seq<Event>)
    requires forall i :: 0 <= i < |events| ==>
      !events[i].ExecutionStarted? && !events[i].ExecutionCompleted? && !events[i].Resolved?
    ensures AddEvents(s, events).recent == s.recent + events && AddEvents(s, events).start == s.start &&
      AddEvents(s, events).completed == s.completed
    ensures (forall i :: 0 <= i < |events| ==> events[i].EventRaised?) && !s.suspended && !s.stalled ==>
      !AddEvents(s, events).suspended && !AddEvents(s, events).stalled
  {
    if events != [] {
      PlainEventsKept(s, events[..|events| - 1]);
      assert events == events[..|events| - 1] + [events[|events| - 1]];
    }
  }

  /** The new generation's history: the two started events, then the carried-over external events in order. */
  lemma {:induction false} NewGenerationHistory(s: State, ids: Ids, c: WorkflowAction)
    requires c.Complete? && s.start.Some?
    requires forall i :: 0 <= i < |c.carryover| ==> c.carryover[i].EventRaised?
    ensures var r := Restart(s, ids, c);
            var start := s.start.value.(instanceID := s.instanceID, executionID := ids.mint(c.id), input := c.result);
            && r.recent == [WorkflowStarted, ExecutionStarted(start)] + c.carryover
            && r.start == Some(start) && r.completed.None? && r.restarted && !r.suspended && !r.stalled
  {
    var start := s.start.value.(instanceID := s.instanceID, executionID := ids.mint(c.id), input := c.result);
    var e0 := Empty(s.instanceID).(restarted := true);
    AddEventsConcat(e0, [WorkflowStarted, ExecutionStarted(start)], c.carryover);
    assert [WorkflowStarted, ExecutionStarted(start)][..1] == [WorkflowStarted] && [WorkflowStarted][..0] == [];
    var two := AddEvents(e0, [WorkflowStarted, ExecutionStarted(start)]);
    assert two == AddEvent(AddEvents(e0, [WorkflowStarted]), ExecutionStarted(start));
    assert AddEvents(e0, [WorkflowStarted]) == AddEvent(e0, WorkflowStarted);
    PlainEventsKept(two, c.carryover);
    AddEventsOutbox(e0, [WorkflowStarted, ExecutionStarted(start)] + c.carryover);
  }

  lemma {:induction false} AddEventsConcat(s: State, a: seq<Event>, b: seq<Event>)
    ensures AddEvents(s, a + b) == AddEvents(AddEvents(s, a), b)
  {
    if b == [] {
      assert a + b == a;
    } else {
      assert (a + b)[..|a + b| - 1] == a + b[..|b| - 1];
      AddEventsConcat(s, a, b[..|b| - 1]);
    }
  }

  /** Without a continue-as-new among the actions a pass never resets the history. */
  lemma {:induction false} NoRestartWithoutRequest(s: State, resolved: ResolutionKey -> bool, ids: Ids,
                                                   actions: seq<WorkflowAction>)
    requires forall i :: 0 <= i < |actions| ==> !IsRestart(actions[i])
    ensures !ApplyAll(s, resolved, ids, actions).Restarted?
    decreases actions
  {
    if actions != [] {
      var v := ApplyOne(s, resolved, ids, actions[0]);
      if v.Applied? { NoRestartWithoutRequest(v.s, resolved, ids, actions[1..]); }
    }
  }

  /******* How a pass ends *******/

  /** The applier takes the action and the history goes on; a child needs a started workflow. */
  predicate Acceptable(a: WorkflowAction, started: bool) {
    && !a.UnknownAction?
    && (a.CreateDetached? ==> a.instanceID != "")
    && (a.Complete? ==> a.status != ContinuedAsNew)
    && (a.CreateChild? ==> started)
  }

  /** The pass gets past the action: it is acceptable, or it completes a workflow that is completed already. */
  ghost predicate GetsPast(s: State, actions: seq<WorkflowAction>, i: nat)
    requires i < |actions|
  {
    || Acceptable(actions[i], s.start.Some?)
    || (actions[i].Complete? && (s.completed.Some? || exists j :: 0 <= j < i && actions[j].Complete?))
  }

  /** The pass gets to the action but not past it. */
  ghost predicate StopsAt(s: State, actions: seq<WorkflowAction>, i: nat) {
    i < |actions| && !GetsPast(s, actions, i) && forall j :: 0 <= j < i ==> GetsPast(s, actions, j)
  }

  lemma {:induction false} GetsPastRest(s: State, t: State, actions: seq<WorkflowAction>, i: nat)
    requires actions != [] && i < |actions[1..]| && t.start.Some? == s.start.Some?
    requires t.completed.Some? <==> s.completed.Some? || actions[0].Complete?
    ensures GetsPast(t, actions[1..], i) <==> GetsPast(s, actions, i + 1)
  {
    if j :| 0 <= j < i && actions[1..][j].Complete? { assert actions[j + 1].Complete?; }
    if j :| 0 < j < i + 1 && actions[j].Complete? { assert actions[1..][j - 1].Complete?; }
  }

  /**
   A pass is applied if and only if it gets past every action. Otherwise it stops at the first it does not get
   past, and starts a new generation if that is a continue-as-new of a started workflow; any other is refused.
   */
  lemma {:induction false} PassEndsAt(s: State, resolved: ResolutionKey -> bool, ids: Ids, actions: seq<WorkflowAction>)
    ensures var v := ApplyAll(s, resolved, ids, actions);
            && (v.Applied? <==> forall i :: 0 <= i < |actions| ==> GetsPast(s, actions, i))
            && (forall i: nat :: StopsAt(s, actions, i) ==>
                  if actions[i].Complete? && s.start.Some? then v.Restarted? else v.Refusal?)
    decreases actions
  {
    hide Acceptable;
    if actions != [] {
      var v := ApplyOne(s, resolved, ids, actions[0]);
      FirstVerdict(s, resolved, ids, actions);
      if v.Applied? {
        OneAppends(s, resolved, ids, actions[0]);
        PassEndsAt(v.s, resolved, ids, actions[1..]);
        hide ApplyOne;
        forall i | 0 <= i < |actions| - 1 ensures GetsPast(v.s, actions[1..], i) <==> GetsPast(s, actions, i + 1) {
          GetsPastRest(s, v.s, actions, i);
        }
        RestEnds(s, v.s, actions);
      }
    }
  }

  lemma {:induction false} FirstVerdict(s: State, resolved: ResolutionKey -> bool, ids: Ids,
                                        actions: seq<WorkflowAction>)
    requires actions != []
    ensures var v := ApplyOne(s, resolved, ids, actions[0]);
            && (v.Applied? <==> GetsPast(s, actions, 0))
            && (!v.Applied? ==> if actions[0].Complete? && s.start.Some? then v.Restarted? else v.Refusal?)
  {
    hide Restart, Finish, Extend;
  }

  /** What stops the rest of the actions stops all of them. */
  lemma {:induction false} RestEnds(s: State, t: State, actions: seq<WorkflowAction>)
    requires actions != [] && GetsPast(s, actions, 0)
    requires forall i :: 0 <= i < |actions| - 1 ==> (GetsPast(t, actions[1..], i) <==> GetsPast(s, actions, i + 1))
    ensures (forall i :: 0 <= i < |actions| ==> GetsPast(s, actions, i)) <==>
            forall i :: 0 <= i < |actions[1..]| ==> GetsPast(t, actions[1..], i)
    ensures forall i: nat :: StopsAt(s, actions, i) ==> i > 0 && StopsAt(t, actions[1..], i - 1)
  {
    hide GetsPast;
    forall i | 0 < i < |actions| ensures GetsPast(s, actions, i) <==> GetsPast(t, actions[1..], i - 1) {
      assert GetsPast(t, actions[1..], i - 1) <==> GetsPast(s, actions, i - 1 + 1);
    }
    forall i: nat | StopsAt(s, actions, i) ensures i > 0 && StopsAt(t, actions[1..], i - 1) {
      forall j | 0 <= j < i - 1 ensures GetsPast(t, actions[1..], j) { assert GetsPast(s, actions, j + 1); }
    }
  }
}
