/**
 Processing one workflow work item (backend/orchestration.go:78-226 and 241-298,
 backend/backend.go:282-342): the continue-as-new loop, enforced termination and its cascade.

 The executor is a parameter: what it returns in each iteration of the loop.
 */
module Processor {
  import opened Work
  import opened RuntimeStates
  import opened Applier
  import opened ApplierTheorems

  const MAX_CONTINUE_AS_NEW := 20

  datatype Execution = Returned(actions: seq<WorkflowAction>) | ExecutorFailed

  datatype Termination = Termination(input: string, recurse: bool)

  /** How a work item ends: its state is committed, or it is abandoned. */
  datatype Ending = Committed(s: State) | Abandoned(s: State)

  /** The first terminate event of the work item. */
  function FirstTermination(events: seq<Event>): Option<Termination> {
    if events == [] then None
    else if events[0].ExecutionTerminated? then Some(Termination(events[0].input, events[0].recurse))
    else FirstTermination(events[1..])
  }

  /** The actions before the first continue-as-new. */
  function BeforeRestart(actions: seq<WorkflowAction>): (q: seq<WorkflowAction>)
    ensures q <= actions && forall i :: 0 <= i < |q| ==> !IsRestart(q[i])
  {
    if actions == [] || IsRestart(actions[0]) then [] else [actions[0]] + BeforeRestart(actions[1..])
  }

  /** A state that has events but no start event is not executed. */
  predicate IsValid(s: State) {
    (s.past == [] && s.recent == []) || s.start.Some?
  }

  /** Executes, applies, and executes again while the workflow continues as new. */
  function Loop(s: State, ids: nat -> Ids, exec: nat -> Execution, terminating: bool, k: nat): Ending
    decreases MAX_CONTINUE_AS_NEW + 1 - k
  {
    if exec(k).ExecutorFailed? || k > MAX_CONTINUE_AS_NEW then Abandoned(s)
    else
      match Apply(s, ids(k), if terminating then BeforeRestart(exec(k).actions) else exec(k).actions)
      case Refusal(t) => Abandoned(t)
      case Restarted(t) => if k >= MAX_CONTINUE_AS_NEW then Abandoned(t) else Loop(t, ids, exec, terminating, k + 1)
      case Applied(t) => Committed(t)
  }

  /** Drops the pending work and completes as terminated. */
  function Force(s: State, ids: Ids, input: string): State {
    Apply(s.(tasks := [], timers := [], messages := []), ids, [Complete(-1, Terminated, input, None, [], Router(""))]).s
  }

  function Execute(s: State, newEvents: seq<Event>, ids: nat -> Ids, exec: nat -> Execution): Ending {
    var t := FirstTermination(newEvents);
    var started := AddEvents(AddEvent(s, WorkflowStarted), newEvents);
    match Loop(started, ids, exec, t.Some?, 0)
    case Abandoned(r) => Abandoned(r)
    case Committed(r) =>
      if t.None? || r.completed.Some? then Committed(r)
      else Committed(Force(r, ids(MAX_CONTINUE_AS_NEW + 1), t.value.input))
  }

  /******* Children *******/

  /** The children recorded in the events, each with the router of its first record. */
  function Children(events: seq<Event>): map<string, Router> {
    if events == [] then map[]
    else
      var m, e := Children(events[..|events| - 1]), events[|events| - 1];
      if e.ChildCreated? && e.instanceID !in m then m[e.instanceID := e.router] else m
  }

  predicate RecordsChild(e: Event, child: string) {
    e.ChildCreated? && e.instanceID == child
  }

  /** Exactly the recorded children, each under the router of the first event that records it. */
  lemma {:induction false} ChildrenRecorded(events: seq<Event>, child: string)
    ensures child in Children(events) <==> exists i :: 0 <= i < |events| && RecordsChild(events[i], child)
    ensures forall i :: 0 <= i < |events| && RecordsChild(events[i], child) &&
                        (forall j :: 0 <= j < i ==> !RecordsChild(events[j], child)) ==>
      child in Children(events) && Children(events)[child] == events[i].router
  {
    if events != [] {
      var front, last := events[..|events| - 1], events[|events| - 1];
      ChildrenRecorded(front, child);
      if child in Children(front) {
        var i :| 0 <= i < |front| && RecordsChild(front[i], child);
        assert RecordsChild(events[i], child);
      }
      assert forall i :: 0 <= i < |front| ==> front[i] == events[i];
    }
  }

  /** One terminate message for each child and no other message. */
  ghost predicate Cascade(messages: seq<Message>, children: map<string, Router>, t: Termination) {
    && (forall i :: 0 <= i < |messages| ==>
          messages[i].target in children &&
          messages[i] == Message(messages[i].target, ExecutionTerminated(t.input, t.recurse),
                                 children[messages[i].target]))
    && (forall i, j :: 0 <= i < j < |messages| ==> messages[i].target != messages[j].target)
    && (forall c :: c in children ==> exists i :: 0 <= i < |messages| && messages[i].target == c)
  }

  /** What is appended to the messages at the end. */
  ghost predicate Cascaded(s: State, r: State, t: Option<Termination>) {
    if t.Some? && t.value.recurse && s.completed.Some?
    then |s.messages| <= |r.messages| && r == s.(messages := s.messages + r.messages[|s.messages|..]) &&
         Cascade(r.messages[|s.messages|..], Children(s.past + s.recent), t.value)
    else r == s
  }

  /******* Termination *******/

  lemma ForceCompletes(s: State, ids: Ids, input: string)
    requires s.completed.None?
    ensures var r := Force(s, ids, input);
            && r.completed == Some(Finished(Terminated, input, None)) && r.past == s.past && r.restarted == s.restarted
            && r.recent == s.recent + [ExecutionCompleted(-1, Finished(Terminated, input, None))]
            && r.tasks == [] && r.timers == [] && |r.messages| == (if HasParent(s) then 1 else 0)
            && (forall i :: 0 <= i < |r.messages| ==>
                  r.messages[i].event.Resolved? && r.messages[i].event.payload.Failure?)
  {
    var c := Complete(-1, Terminated, input, None, [], Router(""));
    var t := s.(tasks := [], timers := [], messages := [], stalled := false);
    assert [c][1..] == [];
    assert ApplyAll(t, Snapshot(s.(tasks := [], timers := [], messages := [])), ids, [c]) == Applied(Finish(t, c));
  }

  /** With a terminate event in the work item the history is never reset. */
  lemma TerminatingLoop(s: State, ids: nat -> Ids, exec: nat -> Execution)
    requires Loop(s, ids, exec, true, 0).Committed?
    ensures var r := Loop(s, ids, exec, true, 0).s;
            s.recent <= r.recent && r.past == s.past && r.restarted == s.restarted
  {
    var actions := BeforeRestart(exec(0).actions);
    NoRestartWithoutRequest(s.(stalled := false), Snapshot(s), ids(0), actions);
    ApplyAppends(s.(stalled := false), Snapshot(s), ids(0), actions);
  }

  /**
   Termination wins: a work item that carries a terminate event, is executed and is committed ends
   completed. Its history is that of before, extended; it never continued as new.
   */
  lemma TerminationEnds(s: State, newEvents: seq<Event>, ids: nat -> Ids, exec: nat -> Execution)
    requires FirstTermination(newEvents).Some? && Execute(s, newEvents, ids, exec).Committed?
    ensures var r, started := Execute(s, newEvents, ids, exec).s, AddEvents(AddEvent(s, WorkflowStarted), newEvents);
            && r.completed.Some? && r.past == s.past && r.restarted == s.restarted && started.recent <= r.recent
  {
    hide AddEvents, AddEvent, Loop, Force;
    var started := AddEvents(AddEvent(s, WorkflowStarted), newEvents);
    StartedKeeps(s, newEvents);
    TerminatingLoop(started, ids, exec);
    var r := Loop(started, ids, exec, true, 0).s;
    if r.completed.None? { ForceCompletes(r, ids(MAX_CONTINUE_AS_NEW + 1), FirstTermination(newEvents).value.input); }
  }

  lemma StartedKeeps(s: State, newEvents: seq<Event>)
    ensures var started := AddEvents(AddEvent(s, WorkflowStarted), newEvents);
            started.past == s.past && started.restarted == s.restarted
  {
    AddEventsOutbox(AddEvent(s, WorkflowStarted), newEvents);
  }

  /** The workflow continues as new in every iteration that is allowed. */
  ghost predicate AlwaysRestarts(s: State, ids: nat -> Ids, exec: nat -> Execution, k: nat)
    decreases MAX_CONTINUE_AS_NEW + 1 - k
  {
    k <= MAX_CONTINUE_AS_NEW ==>
      && exec(k).Returned? && Apply(s, ids(k), exec(k).actions).Restarted?
      && AlwaysRestarts(Apply(s, ids(k), exec(k).actions).s, ids, exec, k + 1)
  }

  /******* What a turn records *******/

  /** Work that the state or a new event resolves is not dispatched again. */
  function ResolvedBy(s: State, newEvents: seq<Event>): ResolutionKey -> bool {
    key => Known(s, key) || Present(newEvents, key)
  }

  predicate Mentions(s: State, newEvents: seq<Event>) {
    s.start.Some? || exists i :: 0 <= i < |newEvents| && newEvents[i].ExecutionStarted?
  }

  predicate Ended(s: State, newEvents: seq<Event>) {
    s.completed.Some? || exists i :: 0 <= i < |newEvents| && newEvents[i].ExecutionCompleted?
  }

  /**
   A turn: its start, the new events that repeat nothing, and the records of its actions, in this order; the
   work that was not resolved before is dispatched.
   */
  ghost predicate Turned(s: State, r: State, newEvents: seq<Event>, ids: Ids, actions: seq<WorkflowAction>) {
    var resolved, ended := ResolvedBy(s, newEvents), Ended(s, newEvents);
    && r.instanceID == s.instanceID && r.past == s.past && r.restarted == s.restarted
    && r.recent == s.recent + [WorkflowStarted] + Fresh(s, newEvents) + Records(r, ids, ended, actions)
    && r.tasks == s.tasks + Tasks(resolved, actions) && r.timers == s.timers + Timers(resolved, actions)
    && r.messages == s.messages + Messages(r, resolved, ids, ended, actions)
  }

  lemma {:induction false} FreshSame(s: State, t: State, events: seq<Event>)
    requires s.start.Some? == t.start.Some? && s.completed.Some? == t.completed.Some?
    requires forall key :: Known(s, key) == Known(t, key)
    ensures Fresh(s, events) == Fresh(t, events)
  {
    if events != [] { FreshSame(s, t, events[..|events| - 1]); }
  }

  lemma {:induction false} OutboxSame(s: State, ids: Ids, completed: bool, p: ResolutionKey -> bool,
                                      q: ResolutionKey -> bool, actions: seq<WorkflowAction>)
    requires forall key :: p(key) == q(key)
    ensures Tasks(p, actions) == Tasks(q, actions) && Timers(p, actions) == Timers(q, actions)
    ensures Messages(s, p, ids, completed, actions) == Messages(s, q, ids, completed, actions)
    decreases actions
  {
    if actions != [] { OutboxSame(s, ids, completed || actions[0].Complete?, p, q, actions[1..]); }
  }

  /** The state when the executor is called. */
  lemma {:induction false} StartedWith(s: State, newEvents: seq<Event>)
    ensures var t := AddEvents(AddEvent(s, WorkflowStarted), newEvents);
            && t.recent == s.recent + [WorkflowStarted] + Fresh(s, newEvents)
            && (t.start.Some? <==> Mentions(s, newEvents)) && (t.completed.Some? <==> Ended(s, newEvents))
            && (forall key :: Known(t, key) == ResolvedBy(s, newEvents)(key))
  {
    var s1 := AddEvent(s, WorkflowStarted);
    forall key ensures Known(s1, key) == Known(s, key) { AddEventKnows(s, WorkflowStarted, key); }
    FreshSame(s1, s, newEvents);
    RecordedExactly(s1, newEvents);
    forall key ensures Known(AddEvents(s1, newEvents), key) == ResolvedBy(s, newEvents)(key) {
      AddEventsKnow(s1, newEvents, key);
    }
    AddEventsKnow(s1, newEvents, Key(TaskKind, 0));
  }

  lemma {:induction false} NoTermination(events: seq<Event>)
    requires forall i :: 0 <= i < |events| ==> !events[i].ExecutionTerminated?
    ensures FirstTermination(events).None?
  {
    if events != [] { NoTermination(events[1..]); }
  }

  lemma {:induction false} TurnApplied(t: State, ids: Ids, actions: seq<WorkflowAction>,
                                       resolved: ResolutionKey -> bool)
    requires forall i :: 0 <= i < |actions| ==> Acceptable(actions[i], t.start.Some?)
    requires forall key :: Known(t, key) == resolved(key)
    ensures var v, done := Apply(t, ids, actions), t.completed.Some?;
            && v.Applied? && SameInstance(t, v.s) && v.s.past == t.past && v.s.restarted == t.restarted
            && v.s.recent == t.recent + Records(v.s, ids, done, actions)
            && v.s.tasks == t.tasks + Tasks(resolved, actions)
            && v.s.timers == t.timers + Timers(resolved, actions)
            && v.s.messages == t.messages + Messages(v.s, resolved, ids, done, actions)
  {
    var t0 := t.(stalled := false);
    PassEndsAt(t0, Snapshot(t), ids, actions);
    ApplyAppends(t0, Snapshot(t), ids, actions);
    var r := Apply(t, ids, actions).s;
    SameLists(t0, r, Snapshot(t), ids, t.completed.Some?, actions);
    OutboxSame(r, ids, t.completed.Some?, Snapshot(t), resolved, actions);
  }

  /** A work item without a terminate event whose actions are all acceptable is one turn. */
  lemma {:induction false} TurnRecorded(s: State, newEvents: seq<Event>, ids: nat -> Ids, exec: nat -> Execution)
    requires forall i :: 0 <= i < |newEvents| ==> !newEvents[i].ExecutionTerminated?
    requires exec(0).Returned?
    requires forall i :: 0 <= i < |exec(0).actions| ==> Acceptable(exec(0).actions[i], Mentions(s, newEvents))
    ensures var v := Execute(s, newEvents, ids, exec);
            v.Committed? && Turned(s, v.s, newEvents, ids(0), exec(0).actions)
  {
    hide Acceptable, Records, Tasks, Timers, Messages, Fresh, FirstTermination, Apply;
    var t := AddEvents(AddEvent(s, WorkflowStarted), newEvents);
    NoTermination(newEvents);
    StartedWith(s, newEvents);
    AddEventsOutbox(AddEvent(s, WorkflowStarted), newEvents);
    hide AddEvents;
    TurnApplied(t, ids(0), exec(0).actions, ResolvedBy(s, newEvents));
  }

  /** The first n passes continue as new, and the last of them leaves the generation t. */
  ghost predicate Restarts(s: State, ids: nat -> Ids, exec: nat -> Execution, k: nat, n: nat, t: State)
    decreases n - k
  {
    if k >= n then t == s
    else
      && exec(k).Returned? && Apply(s, ids(k), exec(k).actions).Restarted?
      && Restarts(Apply(s, ids(k), exec(k).actions).s, ids, exec, k + 1, n, t)
  }

  lemma {:induction false} LoopReaches(s: State, ids: nat -> Ids, exec: nat -> Execution, k: nat, n: nat, t: State)
    requires k <= n <= 20 && Restarts(s, ids, exec, k, n, t)
    ensures Loop(s, ids, exec, false, k) == Loop(t, ids, exec, false, n)
    decreases n - k
  {
    hide Apply;
    if k < n { LoopReaches(Apply(s, ids(k), exec(k).actions).s, ids, exec, k + 1, n, t); }
  }

  /** After up to 20 generations within one work item, the first that does not continue as new is committed. */
  lemma {:induction false} LastGenerationCommitted(s: State, ids: nat -> Ids, exec: nat -> Execution, n: nat, t: State)
    requires n <= 20 && Restarts(s, ids, exec, 0, n, t) && exec(n).Returned?
    requires forall i :: 0 <= i < |exec(n).actions| ==> Acceptable(exec(n).actions[i], t.start.Some?)
    ensures var v := Loop(s, ids, exec, false, 0);
            && v.Committed? && v.s.past == t.past && v.s.restarted == t.restarted
            && v.s.recent == t.recent + Records(v.s, ids(n), t.completed.Some?, exec(n).actions)
            && v.s.tasks == t.tasks + Tasks(Snapshot(t), exec(n).actions)
            && v.s.timers == t.timers + Timers(Snapshot(t), exec(n).actions)
            && v.s.messages == t.messages + Messages(v.s, Snapshot(t), ids(n), t.completed.Some?, exec(n).actions)
  {
    hide Apply, Acceptable, Records, Tasks, Timers, Messages;
    LoopReaches(s, ids, exec, 0, n, t);
    TurnApplied(t, ids(n), exec(n).actions, Snapshot(t));
  }

  /******* The work item processed in place *******/

  method FindTermination(events: seq<Event>) returns (t: Option<Termination>)
    ensures t == FirstTermination(events)
    ensures t.None? <==> forall i :: 0 <= i < |events| ==> !events[i].ExecutionTerminated?
    ensures t.Some? ==>
      exists i :: 0 <= i < |events| && events[i] == ExecutionTerminated(t.value.input, t.value.recurse) &&
                  forall j :: 0 <= j < i ==> !events[j].ExecutionTerminated?
  {
    for i := 0 to |events|
      invariant FirstTermination(events) == FirstTermination(events[i..])
      invariant forall j :: 0 <= j < i ==> !events[j].ExecutionTerminated?
    {
      if events[i].ExecutionTerminated? { return Some(Termination(events[i].input, events[i].recurse)); }
      assert events[i..][1..] == events[i + 1..];
    }
    assert events[|events|..] == [];
    return None;
  }

  lemma {:induction false} BeforeRestartAt(actions: seq<WorkflowAction>, i: nat)
    requires i <= |actions| && (forall j :: 0 <= j < i ==> !IsRestart(actions[j])) &&
      (i < |actions| ==> IsRestart(actions[i]))
    ensures BeforeRestart(actions) == actions[..i]
    decreases i
  {
    if i > 0 {
      BeforeRestartAt(actions[1..], i - 1);
      assert actions[..i] == [actions[0]] + actions[1..][..i - 1];
    }
  }

  method TruncateAtRestart(actions: seq<WorkflowAction>) returns (kept: seq<WorkflowAction>)
    ensures kept == BeforeRestart(actions)
    ensures kept <= actions && forall i :: 0 <= i < |kept| ==> !(kept[i].Complete? && kept[i].status == ContinuedAsNew)
    ensures kept < actions ==> actions[|kept|].Complete? && actions[|kept|].status == ContinuedAsNew
  {
    for i := 0 to |actions|
      invariant forall j :: 0 <= j < i ==> !IsRestart(actions[j])
    {
      if IsRestart(actions[i]) {
        BeforeRestartAt(actions, i);
        return actions[..i];
      }
    }
    BeforeRestartAt(actions, |actions|);
    return actions[..|actions|];
  }

  /** Collects each child once, with the router of its first record. */
  method GetChildWorkflowInstances(oldEvents: seq<Event>, newEvents: seq<Event>) returns (children: map<string, Router>)
    ensures children == Children(oldEvents + newEvents)
  {
    children := map[];
    var events := oldEvents + newEvents;
    assert events[..0] == [];
    for i := 0 to |events|
      invariant children == Children(events[..i])
    {
      assert events[..i + 1][..i] == events[..i];
      if events[i].ChildCreated? && events[i].instanceID !in children {
        children := children[events[i].instanceID := events[i].router];
      }
    }
    assert events[..|events|] == events;
  }

  /** Builds one terminate message for each child, the children being visited in any order. */
  method CascadeMessages(children: map<string, Router>, t: Termination) returns (messages: seq<Message>)
    ensures Cascade(messages, children, t)
  {
    messages := [];
    var rest := children.Keys;
    while rest != {}
      invariant rest <= children.Keys
      invariant Cascade(messages, map c | c in children && c !in rest :: children[c], t)
      decreases rest
    {
      var c := Pick(rest);
      ghost var seen := map c | c in children && c !in rest :: children[c];
      rest := rest - {c};
      ghost var now := map c | c in children && c !in rest :: children[c];
      assert now == seen[c := children[c]];
      CascadeNext(messages, seen, c, children[c], t);
      messages := messages + [Message(c, ExecutionTerminated(t.input, t.recurse), children[c])];
    }
    assert (map c | c in children && c !in rest :: children[c]) == children;
  }

  lemma CascadeNext(messages: seq<Message>, seen: map<string, Router>, c: string, router: Router, t: Termination)
    requires Cascade(messages, seen, t) && c !in seen
    ensures Cascade(messages + [Message(c, ExecutionTerminated(t.input, t.recurse), router)], seen[c := router], t)
  {
    var next := messages + [Message(c, ExecutionTerminated(t.input, t.recurse), router)];
    forall k | k == c || k in seen ensures exists i :: 0 <= i < |next| && next[i].target == k {
      if k == c {
        assert next[|messages|].target == k;
      } else {
        var i :| 0 <= i < |messages| && messages[i].target == k;
        assert next[i].target == k;
      }
    }
  }

  method AppendCascadeTerminateMessages(s: RuntimeState, t: Termination)
    requires s.completedEvent.Some?
    modifies s`pendingMessages
    ensures Cascaded(old(s.View()), s.View(), Some(t))
  {
    hide Cascade;
    if !t.recurse { return; }
    var children := GetChildWorkflowInstances(s.oldEvents, s.newEvents);
    var messages := CascadeMessages(children, t);
    s.pendingMessages := s.pendingMessages + messages;
    assert s.pendingMessages[|old(s.pendingMessages)|..] == messages;
  }

  /** Ids are 32-bit numbers. */
  ghost predicate Fits32(a: WorkflowAction) {
    Id32(a) && (a.Complete? ==> Ids32(a.carryover))
  }

  ghost predicate ExecutionFits(x: Execution) {
    x.Returned? ==> forall i :: 0 <= i < |x.actions| ==> Fits32(x.actions[i])
  }

  lemma {:induction false} AddEventsKeeps32(s: State, events: seq<Event>)
    requires Ids32(s.past) && Ids32(s.recent) && Ids32(events)
    ensures Ids32(AddEvents(s, events).past) && Ids32(AddEvents(s, events).recent)
  {
    if events != [] { AddEventsKeeps32(s, events[..|events| - 1]); }
  }

  lemma OneKeeps32(s: State, resolved: ResolutionKey -> bool, ids: Ids, a: WorkflowAction)
    requires Ids32(s.past) && Ids32(s.recent) && Fits32(a)
    ensures var r := ApplyOne(s, resolved, ids, a).s; Ids32(r.past) && Ids32(r.recent)
  {
    var v := ApplyOne(s, resolved, ids, a);
    if v.Restarted? {
      var start := s.start.value.(instanceID := s.instanceID, executionID := ids.mint(a.id), input := a.result);
      AddEventsKeeps32(Empty(s.instanceID).(restarted := true),
                       [WorkflowStarted, ExecutionStarted(start)] + a.carryover);
    } else if v.Applied? {
      OneAppends(s, resolved, ids, a);
    }
  }

  lemma {:induction false} ApplyKeeps32(s: State, resolved: ResolutionKey -> bool, ids: Ids,
                                        actions: seq<WorkflowAction>)
    requires Ids32(s.past) && Ids32(s.recent) && forall i :: 0 <= i < |actions| ==> Fits32(actions[i])
    ensures var r := ApplyAll(s, resolved, ids, actions).s; Ids32(r.past) && Ids32(r.recent)
    decreases actions
  {
    hide ApplyOne, Ids32;
    if actions != [] {
      OneKeeps32(s, resolved, ids, actions[0]);
      ApplyKeeps32(ApplyOne(s, resolved, ids, actions[0]).s, resolved, ids, actions[1..]);
    }
  }

  /**
   Executes and applies until the workflow no longer continues as new. The executor is called at most 21
   times, and once only in a terminating work item; a workflow that always continues as new is abandoned.
   */
  method ExecuteLoop(s: RuntimeState, ids: nat -> Ids, exec: nat -> Execution, terminating: bool)
    returns (ok: bool, calls: nat)
    requires Ids32(s.oldEvents) && Ids32(s.newEvents) && forall k :: ExecutionFits(exec(k))
    modifies s
    ensures Loop(old(s.View()), ids, exec, terminating, 0) == if ok then Committed(s.View()) else Abandoned(s.View())
    ensures 1 <= calls <= 21 && (terminating ==> calls == 1)
    ensures !terminating && AlwaysRestarts(old(s.View()), ids, exec, 0) ==> !ok && calls == 21
  {
    hide Apply, Ids32, Fits32;
    var k := 0;
    calls := 0;
    while true
      invariant k <= MAX_CONTINUE_AS_NEW && Ids32(s.oldEvents) && Ids32(s.newEvents) && calls == k &&
        (terminating ==> k == 0)
      invariant Loop(old(s.View()), ids, exec, terminating, 0) == Loop(s.View(), ids, exec, terminating, k)
      invariant AlwaysRestarts(old(s.View()), ids, exec, 0) && !terminating ==> AlwaysRestarts(s.View(), ids, exec, k)
      decreases MAX_CONTINUE_AS_NEW - k
    {
      var result := exec(k);
      calls := calls + 1;
      if result.ExecutorFailed? { return false, calls; }
      var actions := result.actions;
      if terminating { actions := TruncateAtRestart(actions); }
      ghost var v := s.View();
      assert ExecutionFits(exec(k));
      PassKeeps32(v, ids(k), actions);
      if terminating { TerminatingPass(v, ids(k), result.actions); }
      var outcome := Actions(s, ids(k), actions);
      if outcome.Rejected? { return false, calls; }
      if outcome.Done? { return true, calls; }
      if k >= MAX_CONTINUE_AS_NEW { return false, calls; }
      k := k + 1;
    }
    return false, calls;
  }

  lemma TerminatingPass(s: State, ids: Ids, actions: seq<WorkflowAction>)
    ensures !Apply(s, ids, BeforeRestart(actions)).Restarted?
  {
    NoRestartWithoutRequest(s.(stalled := false), Snapshot(s), ids, BeforeRestart(actions));
  }

  lemma PassKeeps32(s: State, ids: Ids, actions: seq<WorkflowAction>)
    requires Ids32(s.past) && Ids32(s.recent) && forall i :: 0 <= i < |actions| ==> Fits32(actions[i])
    ensures Ids32(Apply(s, ids, actions).s.past) && Ids32(Apply(s, ids, actions).s.recent)
    ensures forall i :: 0 <= i < |actions| ==> Id32(actions[i])
  {
    ApplyKeeps32(s.(stalled := false), Snapshot(s), ids, actions);
  }

  /** Completes as terminated what the executor left incomplete. */
  method ForceTermination(s: RuntimeState, ids: Ids, input: string)
    requires s.completedEvent.None? && Ids32(s.oldEvents) && Ids32(s.newEvents)
    modifies s
    ensures s.View() == Force(old(s.View()), ids, input)
  {
    hide Apply, Ids32;
    s.pendingTasks, s.pendingTimers, s.pendingMessages := [], [], [];
    var outcome := Actions(s, ids, [Complete(-1, Terminated, input, None, [], Router(""))]);
  }

  /** A whole work item; an instance that is invalid or already completed is not executed. */
  method ProcessWorkItem(s: RuntimeState, newEvents: seq<Event>, ids: nat -> Ids, exec: nat -> Execution)
    returns (ok: bool)
    requires Ids32(s.oldEvents) && Ids32(s.newEvents) && Ids32(newEvents) && forall k :: ExecutionFits(exec(k))
    modifies s
    ensures var before, t := old(s.View()), FirstTermination(newEvents);
            if !IsValid(before) || before.completed.Some? then ok && Cascaded(before, s.View(), t)
            else match Execute(before, newEvents, ids, exec)
              case Abandoned(r) => !ok && s.View() == r
              case Committed(r) => ok && Cascaded(r, s.View(), t)
    ensures var before := old(s.View());
            && before.completed.None? && (before.past + before.recent == [] || before.start.Some?)
            && (forall i :: 0 <= i < |newEvents| ==> !newEvents[i].ExecutionTerminated?) && exec(0).Returned?
            && (forall i :: 0 <= i < |exec(0).actions| ==>
                  Acceptable(exec(0).actions[i], Mentions(before, newEvents)))
            ==> ok && Turned(before, s.View(), newEvents, ids(0), exec(0).actions)
    ensures var before := old(s.View());
            before.completed.Some? || (before.past + before.recent != [] && before.start.None?) ==>
              ok && s.View() == before.(messages := s.View().messages)
  {
    hide Loop, Force, Ids32, ExecutionFits, Cascade, FirstTermination, AddEvents, AddEvent;
    hide Turned, Acceptable, Mentions;
    ghost var before := s.View();
    if exec(0).Returned? && (forall i :: 0 <= i < |newEvents| ==> !newEvents[i].ExecutionTerminated?) &&
       (forall i :: 0 <= i < |exec(0).actions| ==> Acceptable(exec(0).actions[i], Mentions(before, newEvents))) {
      TurnRecorded(before, newEvents, ids, exec);
      NoTermination(newEvents);
    }
    var t := FindTermination(newEvents);
    if ((s.oldEvents == [] && s.newEvents == []) || s.startEvent.Some?) && s.completedEvent.None? {
      ok := StartAndExecute(s, newEvents, ids, exec, t);
      if !ok { return; }
    }
    if t.Some? && s.completedEvent.Some? {
      AppendCascadeTerminateMessages(s, t.value);
    }
    ok := true;
  }

  method StartAndExecute(s: RuntimeState, newEvents: seq<Event>, ids: nat -> Ids, exec: nat -> Execution,
                         t: Option<Termination>) returns (ok: bool)
    requires Ids32(s.oldEvents) && Ids32(s.newEvents) && Ids32(newEvents) && t == FirstTermination(newEvents) &&
      forall k :: ExecutionFits(exec(k))
    modifies s
    ensures Execute(old(s.View()), newEvents, ids, exec) == if ok then Committed(s.View()) else Abandoned(s.View())
  {
    hide Loop, Force, Ids32, ExecutionFits, FirstTermination, AddEvents, AddEvent;
    ghost var v := s.View();
    StartKeeps32(v, newEvents);
    var accepted := s.Add(WorkflowStarted);
    var each := s.AddAll(newEvents);
    LoopKeeps32(s.View(), ids, exec, t.Some?, 0);
    var calls: nat;
    ok, calls := ExecuteLoop(s, ids, exec, t.Some?);
    if !ok { return; }
    if t.Some? && s.completedEvent.None? {
      ForceTermination(s, ids(MAX_CONTINUE_AS_NEW + 1), t.value.input);
    }
  }

  lemma StartKeeps32(s: State, newEvents: seq<Event>)
    requires Ids32(s.past) && Ids32(s.recent) && Ids32(newEvents)
    ensures var s1 := AddEvent(s, WorkflowStarted);
            && Ids32(s1.past) && Ids32(s1.recent)
            && Ids32(AddEvents(s1, newEvents).past) && Ids32(AddEvents(s1, newEvents).recent)
  {
    AddEventsKeeps32(AddEvent(s, WorkflowStarted), newEvents);
  }

  lemma {:induction false} LoopKeeps32(s: State, ids: nat -> Ids, exec: nat -> Execution, terminating: bool, k: nat)
    requires Ids32(s.past) && Ids32(s.recent) && forall j :: ExecutionFits(exec(j))
    ensures Ids32(Loop(s, ids, exec, terminating, k).s.past) && Ids32(Loop(s, ids, exec, terminating, k).s.recent)
    decreases MAX_CONTINUE_AS_NEW + 1 - k
  {
    hide Apply, Ids32, Fits32;
    if exec(k).Returned? && k <= MAX_CONTINUE_AS_NEW {
      assert ExecutionFits(exec(k));
      var actions := if terminating then BeforeRestart(exec(k).actions) else exec(k).actions;
      PassKeeps32(s, ids(k), actions);
      var v := Apply(s, ids(k), actions);
      if v.Restarted? && k < MAX_CONTINUE_AS_NEW { LoopKeeps32(v.s, ids, exec, terminating, k + 1); }
    }
  }
}
