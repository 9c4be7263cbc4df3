/**
 One replay of a workflow (task/orchestrator.go): the numbering of its work, the external events
 it waits for, and how suspension and termination gate the events of its history.

 The fields arrived and handled are history variables: the events given to the replay before it
 was terminated, and those among them that reached a handler.
 */
module Replay {
  import opened Work
  import N = Numbering
  import T = NumberingTheorems
  import X = ExternalEvents

  datatype Event =
    | Resolved(r: Resolution)
    | Recorded(e: ScheduleEvent)
    | EventRaised(name: Name, payload: string)
    | ExecutionSuspended
    | ExecutionResumed
    | ExecutionTerminated
    | Informational
    | Unrecognised

  datatype State = State(
    core: N.State,
    ext: X.Ext,
    callbacks: map<Item, X.Waiter>,
    suspended: bool,
    held: seq<Event>,
    terminated: bool,
    continuing: bool,
    keep: bool,
    arrived: seq<Event>,
    handled: seq<Event>)

  const INIT := State(N.INIT, X.NONE, map[], false, [], false, false, false, [], [])

  /******* Handlers *******/

  /** The waiters whose timer has completed between two numbering states. */
  function Expired(s: State, core: N.State): set<X.Waiter> {
    set item | item in s.callbacks && item in core.outcome && item !in s.core.outcome :: s.callbacks[item]
  }

  /** Moves to a new numbering state and runs the callbacks of the timers that completed. */
  function Settle(s: State, core: N.State): State {
    s.(core := core, ext := X.Expire(s.ext, Expired(s, core)))
  }

  function Completions(core: N.State): set<int> {
    set k | k in core.actions && core.actions[k].item.work.Completion?
  }

  ghost predicate OneCompletion(core: N.State) {
    forall a, b :: a in Completions(core) && b in Completions(core) ==> a == b
  }

  function Restarts(core: N.State): set<int> {
    set k | k in core.actions && core.actions[k].item.work == Completion(ContinuedAsNew)
  }

  /** A recorded completion wins over termination, except a continue-as-new, which termination replaces. */
  function Terminate(core: N.State): N.State {
    if Completions(core) != Restarts(core) then core
    else N.Schedule(core.(actions := core.actions - Restarts(core)), Completion(Terminated))
  }

  function Dispatch(s: State, e: Event): (State, bool)
    requires N.Inv(s.core)
  {
    var s0 := s.(handled := s.handled + [e]);
    match e
    case Resolved(r) => (Settle(s0, N.Deliver(s.core, r)), true)
    case Recorded(rec) =>
      var (core, ok) := N.OnScheduled(s.core, rec);
      (Settle(s0, core), ok)
    case EventRaised(name, payload) => (s0.(ext := X.Raise(s.ext, name, payload)), true)
    case ExecutionSuspended => (s0.(suspended := true), true)
    case ExecutionTerminated => (s0.(terminated := true, core := Terminate(s.core)), true)
    case ExecutionResumed => (s0.(suspended := false), true)
    case Informational => (s0, true)
    case Unrecognised => (s0, false)
  }

  /** An event is ignored after termination, held while suspended, and dispatched otherwise. */
  function Handle(s: State, e: Event): (State, bool)
    requires N.Inv(s.core)
  {
    if s.terminated then (s, true)
    else if s.suspended && !e.ExecutionResumed? && !e.ExecutionTerminated? then (s.(held := s.held + [e]), true)
    else Dispatch(s, e)
  }

  function HandleAll(s: State, es: seq<Event>): (State, bool)
    requires N.Inv(s.core)
    decreases es
  {
    if es == [] then (s, true)
    else
      HandleAdvances(s, es[0]);
      var (s1, ok) := Handle(s, es[0]);
      if ok then HandleAll(s1, es[1..]) else (s1, false)
  }

  /** Resuming replays the held events in order and then forgets them. */
  function Resume(s: State): (State, bool)
    requires N.Inv(s.core)
  {
    var (s1, ok) := HandleAll(Dispatch(s, ExecutionResumed).0, s.held);
    if ok then (s1.(held := []), true) else (s1, false)
  }

  function Process(s: State, e: Event): (State, bool)
    requires N.Inv(s.core)
  {
    if e.ExecutionResumed? && !s.terminated then Resume(s) else Handle(s, e)
  }

  function Arrive(s: State, e: Event): (State, bool)
    requires N.Inv(s.core)
  {
    Process(if s.terminated then s else s.(arrived := s.arrived + [e]), e)
  }

  function Call(s: State, w: Work): State {
    Settle(s, N.Schedule(s.core, w))
  }

  /** Waits for an event; a wait that must be queued is backed by a timer. */
  function WaitFor(s: State, name: Name, timeout: int, now: int): State {
    var x := X.Wait(s.ext, name, timeout == 0);
    if !X.Queues(s.ext, name, timeout == 0) then s.(ext := x)
    else
      var w := Timer(ExternalEvent(name), if timeout > 0 then now + timeout else INDEFINITE);
      var s1 := s.(ext := x, callbacks := s.callbacks[Item(s.core.issued, w) := X.Waiter(|s.ext.waiters|, name)]);
      Settle(s1, N.Schedule(s.core, w))
  }

  /** New work is withheld while it could be numbered differently by a buffered result. */
  predicate Withheld(core: N.State, id: int) {
    exists t, key :: t in core.optional && t <= id && key in core.buffered && key.id >= t
  }

  /** The numbers of the actions a replay returns. */
  function Emitted(s: State): set<int> {
    if s.suspended && !s.terminated then {}
    else set k | k in s.core.actions && (IsTerminal(s.core.actions[k].item.work) || !Withheld(s.core, k))
  }

  /******* Invariant *******/

  ghost predicate HeldIn(held: seq<Event>) {
    forall i :: 0 <= i < |held| ==> !held[i].ExecutionResumed? && !held[i].ExecutionTerminated?
  }

  /** Every callback belongs to an issued waiter, and a completed timer leaves no waiter behind. */
  ghost predicate Linked(s: State) {
    && (forall item :: item in s.callbacks ==> item.n < s.core.issued && X.Issued(s.ext, s.callbacks[item]))
    && (forall item :: item in s.callbacks && item in s.core.outcome ==> s.callbacks[item] in s.ext.done)
  }

  ghost predicate Inv(s: State) {
    N.Inv(s.core) && X.Inv(s.ext) && HeldIn(s.held) && Linked(s)
  }

  lemma TerminateAdvances(core: N.State)
    requires N.Inv(core)
    ensures T.Advances(core, Terminate(core))
  {
    var c := core.(actions := core.actions - Restarts(core));
    T.DiscardAdvances(core, Restarts(core));
    T.ScheduleAdvances(c, Completion(Terminated));
    T.ExtendsTransitive(core, c, N.Schedule(c, Completion(Terminated)));
  }

  lemma HandleAdvances(s: State, e: Event)
    requires N.Inv(s.core)
    ensures T.Advances(s.core, Handle(s, e).0.core)
  {
    assert T.Advances(s.core, s.core);
    match e
    case Resolved(r) => T.DeliverAdvances(s.core, r);
    case Recorded(rec) => T.OnScheduledAdvances(s.core, rec);
    case ExecutionTerminated => TerminateAdvances(s.core);
    case _ =>
  }

  /******* The invariant is kept by user code and by every event *******/

  lemma SettleKeepsInv(s: State, core: N.State)
    requires T.Advances(s.core, core) && X.Inv(s.ext) && HeldIn(s.held)
    requires forall item :: item in s.callbacks ==> item.n < core.issued && X.Issued(s.ext, s.callbacks[item])
    requires forall item :: item in s.callbacks && item in s.core.outcome ==> s.callbacks[item] in s.ext.done
    ensures Inv(Settle(s, core))
    ensures forall name :: X.Raised(Settle(s, core).ext, name) == X.Raised(s.ext, name)
  {
    X.ExpireKeepsInv(s.ext, Expired(s, core));
    forall item | item in s.callbacks && item in core.outcome
      ensures s.callbacks[item] in Settle(s, core).ext.done
    {
      if item !in s.core.outcome { assert s.callbacks[item] in Expired(s, core); }
    }
  }

  lemma CallKeepsInv(s: State, w: Work)
    requires Inv(s)
    ensures Inv(Call(s, w)) && T.Advances(s.core, Call(s, w).core)
    ensures forall name :: X.Raised(Call(s, w).ext, name) == X.Raised(s.ext, name)
  {
    T.ScheduleAdvances(s.core, w);
    SettleKeepsInv(s, N.Schedule(s.core, w));
  }

  lemma WaitExtendsWaiters(x: X.Ext, name: Name, zero: bool)
    ensures forall w :: X.Issued(x, w) ==> X.Issued(X.Wait(x, name, zero), w)
    ensures forall w :: w in x.done ==> w in X.Wait(x, name, zero).done
    ensures X.Issued(X.Wait(x, name, zero), X.Waiter(|x.waiters|, name))
  {
  }

  lemma WaitForKeepsInv(s: State, name: Name, timeout: int, now: int)
    requires Inv(s)
    ensures Inv(WaitFor(s, name, timeout, now)) && T.Advances(s.core, WaitFor(s, name, timeout, now).core)
    ensures forall other :: X.Raised(WaitFor(s, name, timeout, now).ext, other) == X.Raised(s.ext, other)
  {
    var x := X.Wait(s.ext, name, timeout == 0);
    X.WaitKeepsInv(s.ext, name, timeout == 0);
    WaitExtendsWaiters(s.ext, name, timeout == 0);
    assert T.Advances(s.core, s.core);
    if X.Queues(s.ext, name, timeout == 0) {
      var w := Timer(ExternalEvent(name), if timeout > 0 then now + timeout else INDEFINITE);
      BackedByTimer(s, x, X.Waiter(|s.ext.waiters|, name), w);
    }
  }

  lemma BackedByTimer(s: State, x: X.Ext, waiter: X.Waiter, w: Work)
    requires Inv(s) && X.Inv(x) && X.Issued(x, waiter)
    requires forall v :: X.Issued(s.ext, v) ==> X.Issued(x, v)
    requires forall v :: v in s.ext.done ==> v in x.done
    ensures var s1 := s.(ext := x, callbacks := s.callbacks[Item(s.core.issued, w) := waiter]);
            var s2 := Settle(s1, N.Schedule(s.core, w));
            Inv(s2) && T.Advances(s.core, s2.core) && forall name :: X.Raised(s2.ext, name) == X.Raised(x, name)
  {
    hide X.Inv;
    var item := Item(s.core.issued, w);
    T.ScheduleAdvances(s.core, w);
    assert item !in s.core.outcome;
    SettleKeepsInv(s.(ext := x, callbacks := s.callbacks[item := waiter]), N.Schedule(s.core, w));
  }

  function Payloads(es: seq<Event>, name: Name): seq<string> {
    if es == [] then []
    else
      var e := es[|es| - 1];
      Payloads(es[..|es| - 1], name) + (if e.EventRaised? && e.name == name then [e.payload] else [])
  }

  lemma PayloadsSnoc(es: seq<Event>, e: Event, name: Name)
    ensures Payloads(es + [e], name) == Payloads(es, name) + Payloads([e], name)
  {
    assert (es + [e])[..|es|] == es;
    assert [e][..0] == [];
  }

  lemma {:induction false} PayloadsConcat(es: seq<Event>, fs: seq<Event>, name: Name)
    ensures Payloads(es + fs, name) == Payloads(es, name) + Payloads(fs, name)
  {
    if fs == [] {
      assert es + fs == es;
    } else {
      var front, e := fs[..|fs| - 1], fs[|fs| - 1];
      assert es + fs == (es + front) + [e];
      assert fs == front + [e];
      PayloadsConcat(es, front, name);
      PayloadsSnoc(es + front, e, name);
      PayloadsSnoc(front, e, name);
    }
  }

  lemma PayloadsOne(e: Event, before: seq<string>, name: Name)
    ensures before + Payloads([e], name) == if e.EventRaised? && e.name == name then before + [e.payload] else before
  {
    assert [e][..0] == [];
  }

  lemma SettledKeepsInv(s: State, e: Event, core: N.State)
    requires Inv(s) && T.Advances(s.core, core)
    ensures Inv(Settle(s.(handled := s.handled + [e]), core))
    ensures forall name :: X.Raised(Settle(s.(handled := s.handled + [e]), core).ext, name) == X.Raised(s.ext, name)
  {
    hide X.Inv, N.Inv;
    SettleKeepsInv(s.(handled := s.handled + [e]), core);
  }

  lemma TerminatedKeepsInv(s: State, e: Event)
    requires Inv(s)
    ensures Inv(s.(core := Terminate(s.core), terminated := true, handled := s.handled + [e]))
  {
    hide X.Inv;
    TerminateAdvances(s.core);
    assert Terminate(s.core).outcome == s.core.outcome;
  }

  /** A dispatched event keeps the invariant; only a raised event adds to what was raised. */
  lemma DispatchKeepsInv(s: State, e: Event)
    requires Inv(s)
    ensures Inv(Dispatch(s, e).0)
    ensures forall name :: X.Raised(Dispatch(s, e).0.ext, name) == X.Raised(s.ext, name) + Payloads([e], name)
  {
    hide N.Inv, N.Deliver, N.OnScheduled, X.Inv;
    forall name ensures X.Raised(s.ext, name) + Payloads([e], name) ==
                        if e.EventRaised? && e.name == name then X.Raised(s.ext, name) + [e.payload]
                        else X.Raised(s.ext, name)
    {
      PayloadsOne(e, X.Raised(s.ext, name), name);
    }
    match e
    case Resolved(r) => T.DeliverAdvances(s.core, r); SettledKeepsInv(s, e, N.Deliver(s.core, r));
    case Recorded(rec) => T.OnScheduledAdvances(s.core, rec); SettledKeepsInv(s, e, N.OnScheduled(s.core, rec).0);
    case EventRaised(name, payload) => RaiseKeepsInv(s.(handled := s.handled + [e]), name, payload);
    case ExecutionTerminated => TerminatedKeepsInv(s, e);
    case _ =>
  }

  lemma RaiseKeepsInv(s: State, name: Name, payload: string)
    requires Inv(s)
    ensures Inv(s.(ext := X.Raise(s.ext, name, payload)))
    ensures forall other :: X.Raised(X.Raise(s.ext, name, payload), other) ==
                            X.Raised(s.ext, other) + (if other == name then [payload] else [])
  {
    X.RaiseKeepsInv(s.ext, name, payload);
    var x := X.Raise(s.ext, name, payload);
    assert x.waiters == s.ext.waiters;
    assert forall w :: w in s.ext.done ==> w in x.done;
  }

  lemma HandleKeepsInv(s: State, e: Event)
    requires Inv(s) && !e.ExecutionResumed?
    ensures Inv(Handle(s, e).0)
  {
    if !s.terminated && !(s.suspended && !e.ExecutionTerminated?) { DispatchKeepsInv(s, e); }
  }

  lemma {:induction false} HandleAllKeepsInv(s: State, es: seq<Event>)
    requires Inv(s) && HeldIn(es)
    ensures Inv(HandleAll(s, es).0) && T.Advances(s.core, HandleAll(s, es).0.core)
    decreases es
  {
    assert T.Advances(s.core, s.core);
    if es != [] {
      HandleKeepsInv(s, es[0]);
      HandleAdvances(s, es[0]);
      var s1 := Handle(s, es[0]).0;
      if Handle(s, es[0]).1 {
        assert HeldIn(es[1..]);
        HandleAllKeepsInv(s1, es[1..]);
        T.ExtendsTransitive(s.core, s1.core, HandleAll(s, es).0.core);
      }
    }
  }

  lemma ArriveKeepsInv(s: State, e: Event)
    requires Inv(s)
    ensures Inv(Arrive(s, e).0) && T.Advances(s.core, Arrive(s, e).0.core)
    ensures s.terminated ==> Arrive(s, e) == (s, true)
    ensures !s.terminated && s.suspended && !e.ExecutionResumed? && !e.ExecutionTerminated? ==>
      Arrive(s, e) == (s.(arrived := s.arrived + [e], held := s.held + [e]), true)
  {
    var s0 := if s.terminated then s else s.(arrived := s.arrived + [e]);
    assert T.Advances(s.core, s.core);
    if e.ExecutionResumed? {
      if !s.terminated {
        HandleAllKeepsInv(Dispatch(s0, ExecutionResumed).0, s.held);
      }
    } else {
      HandleKeepsInv(s0, e);
      HandleAdvances(s0, e);
    }
  }

  /******* Suspension *******/

  /** The held events that a resume reaches: those up to the first further suspension. */
  function Reached(es: seq<Event>): seq<Event> {
    if es == [] || es[0].ExecutionSuspended? then es[..if es == [] then 0 else 1]
    else [es[0]] + Reached(es[1..])
  }

  /** No suspension among the held events is followed by another held event. */
  predicate NoNestedSuspend(es: seq<Event>) {
    forall i :: 0 <= i < |es| - 1 ==> !es[i].ExecutionSuspended?
  }

  lemma {:induction false} ReachedAllIff(es: seq<Event>)
    ensures Reached(es) == es <==> NoNestedSuspend(es)
    ensures Reached(es) <= es
  {
    if es != [] {
      ReachedAllIff(es[1..]);
      if es[0].ExecutionSuspended? {
        if |es| > 1 { assert es[0].ExecutionSuspended? && 0 < |es| - 1; }
      } else {
        assert es == [es[0]] + es[1..];
        if NoNestedSuspend(es[1..]) {
          forall i | 0 <= i < |es| - 1 ensures !es[i].ExecutionSuspended? {
            if i > 0 { assert es[i] == es[1..][i - 1]; }
          }
        } else {
          var i :| 0 <= i < |es[1..]| - 1 && es[1..][i].ExecutionSuspended?;
          assert es[i + 1].ExecutionSuspended?;
        }
      }
    }
  }

  lemma {:induction false} HandleAllHolds(s: State, es: seq<Event>)
    requires Inv(s) && s.suspended && !s.terminated && HeldIn(es)
    ensures HandleAll(s, es) == (s.(held := s.held + es), true)
    decreases es
  {
    if es == [] {
      assert s.held + es == s.held;
    } else {
      HandleKeepsInv(s, es[0]);
      assert HeldIn(es[1..]);
      HandleAllHolds(Handle(s, es[0]).0, es[1..]);
      assert s.held + [es[0]] + es[1..] == s.held + es;
    }
  }

  lemma HandleDispatches(s: State, e: Event)
    requires Inv(s) && !s.suspended && !s.terminated && !e.ExecutionResumed? && !e.ExecutionTerminated?
    ensures Handle(s, e) == Dispatch(s, e)
    ensures var s1 := Dispatch(s, e).0;
            Inv(s1) && !s1.terminated && (s1.suspended <==> e.ExecutionSuspended?)
            && s1.handled == s.handled + [e] && s1.arrived == s.arrived && s1.held == s.held
  {
    DispatchKeepsInv(s, e);
  }

  /** A handler accepts the event; only records and unknown events can be refused. */
  predicate Accepts(core: N.State, e: Event)
    requires N.Inv(core)
  {
    !e.Unrecognised? && (e.Recorded? ==> N.OnScheduled(core, e.e).1)
  }

  /** What a handler does to the numbering. */
  function After(core: N.State, e: Event): (core': N.State)
    requires N.Inv(core)
    ensures N.Inv(core')
  {
    match e
    case Resolved(r) => N.DeliverKeepsInv(core, r); N.Deliver(core, r)
    case Recorded(rec) => N.OnScheduledKeepsInv(core, rec); N.OnScheduled(core, rec).0
    case _ => core
  }

  /** The first held event that is refused when the events before it are handled; none behind a suspension is. */
  function FirstRefused(core: N.State, es: seq<Event>): (i: Option<nat>)
    requires N.Inv(core)
    ensures i.Some? ==> i.value < |es|
    decreases es
  {
    if es == [] || es[0].ExecutionSuspended? then None
    else if !Accepts(core, es[0]) then Some(0)
    else
      var i := FirstRefused(After(core, es[0]), es[1..]);
      if i.Some? then Some(i.value + 1) else None
  }

  /** The held events a resume hands to handlers. */
  function Handed(core: N.State, es: seq<Event>): seq<Event>
    requires N.Inv(core)
  {
    var i := FirstRefused(core, es);
    if i.Some? then es[..i.value + 1] else Reached(es)
  }

  lemma {:induction false} HandedStep(core: N.State, es: seq<Event>)
    requires N.Inv(core) && es != [] && !es[0].ExecutionSuspended?
    ensures Handed(core, es) == if Accepts(core, es[0]) then [es[0]] + Handed(After(core, es[0]), es[1..]) else [es[0]]
  {
    var rest := FirstRefused(After(core, es[0]), es[1..]);
    if Accepts(core, es[0]) && rest.Some? {
      assert es[..rest.value + 2] == [es[0]] + es[1..][..rest.value + 1];
    }
  }

  lemma DispatchStep(s: State, e: Event)
    requires Inv(s) && !e.ExecutionTerminated?
    ensures Dispatch(s, e).1 == Accepts(s.core, e) && Dispatch(s, e).0.core == After(s.core, e)
  {
  }

  /** How handling a list of events ends: accepted or refused, what was handled, what is held, and what was raised. */
  ghost predicate Outcome(s: State, es: seq<Event>, s': State, ok: bool)
    requires N.Inv(s.core)
  {
    && (ok <==> FirstRefused(s.core, es).None?)
    && s'.handled == s.handled + Handed(s.core, es) && s'.arrived == s.arrived && !s'.terminated
    && (!ok ==> s'.held == s.held && !s'.suspended)
    && (forall name :: X.Raised(s'.ext, name) == X.Raised(s.ext, name) + Payloads(Handed(s.core, es), name))
  }

  lemma {:induction false} HandleAllOutcome(s: State, es: seq<Event>)
    requires Inv(s) && !s.suspended && !s.terminated && HeldIn(es)
    ensures Outcome(s, es, HandleAll(s, es).0, HandleAll(s, es).1)
    decreases es
  {
    if es == [] {
      assert s.handled + Handed(s.core, es) == s.handled;
    } else {
      HandleDispatches(s, es[0]);
      DispatchKeepsInv(s, es[0]);
      DispatchStep(s, es[0]);
      assert HeldIn(es[1..]);
      if es[0].ExecutionSuspended? {
        HandleAllHolds(Dispatch(s, es[0]).0, es[1..]);
        assert Handed(s.core, es) == [es[0]];
      } else {
        OutcomeStep(s, es);
      }
    }
  }

  lemma {:induction false} OutcomeStep(s: State, es: seq<Event>)
    requires Inv(s) && !s.suspended && !s.terminated && HeldIn(es) && es != [] && !es[0].ExecutionSuspended? &&
      HeldIn(es[1..])
    requires Inv(Dispatch(s, es[0]).0)
    ensures Outcome(s, es, HandleAll(s, es).0, HandleAll(s, es).1)
    decreases es, 0
  {
    hide N.Inv, Dispatch, Accepts, After, FirstRefused, Handed, X.Inv, X.Raised, Linked, Payloads;
    HandleDispatches(s, es[0]);
    DispatchKeepsInv(s, es[0]);
    DispatchStep(s, es[0]);
    HandedStep(s.core, es);
    RefusedStep(s.core, es);
    var s1, rest := Dispatch(s, es[0]).0, Handed(After(s.core, es[0]), es[1..]);
    if Accepts(s.core, es[0]) {
      HandleAllOutcome(s1, es[1..]);
      assert s.handled + [es[0]] + rest == s.handled + ([es[0]] + rest);
      forall name ensures Payloads([es[0]] + rest, name) == Payloads([es[0]], name) + Payloads(rest, name) {
        PayloadsConcat([es[0]], rest, name);
      }
    }
  }

  lemma {:induction false} RefusedStep(core: N.State, es: seq<Event>)
    requires N.Inv(core) && es != [] && !es[0].ExecutionSuspended?
    ensures FirstRefused(core, es).None? <==> Accepts(core, es[0]) && FirstRefused(After(core, es[0]), es[1..]).None?
  {
  }

  /** The whole resume. */
  lemma {:induction false} ResumeOutcome(s: State)
    requires Inv(s) && !s.terminated
    ensures var (s', ok) := Resume(s);
            && (ok <==> FirstRefused(s.core, s.held).None?)
            && s'.handled == s.handled + [ExecutionResumed] + Handed(s.core, s.held)
            && s'.arrived == s.arrived && !s'.terminated
            && s'.held == (if ok then [] else s.held) && (!ok ==> !s'.suspended)
            && (forall name :: X.Raised(s'.ext, name) == X.Raised(s.ext, name) + Payloads(Handed(s.core, s.held), name))
  {
    hide N.Inv, FirstRefused, Handed;
    DispatchKeepsInv(s, ExecutionResumed);
    HandleAllOutcome(Dispatch(s, ExecutionResumed).0, s.held);
  }

  /**
   A resume hands every held event to its handler and keeps none back exactly when no held suspension
   precedes another held event and no held event is refused.
   */
  lemma {:induction false} ResumeReachesAllIff(s: State)
    requires Inv(s) && !s.terminated
    ensures var s' := Resume(s).0;
            s'.handled == s.handled + [ExecutionResumed] + s.held && s'.held == [] <==>
            NoNestedSuspend(s.held) && FirstRefused(s.core, s.held).None?
  {
    hide N.Inv, Resume;
    ResumeOutcome(s);
    ReachedAllIff(s.held);
    var base := s.handled + [ExecutionResumed];
    if FirstRefused(s.core, s.held).None? && base + Reached(s.held) == base + s.held {
      assert Reached(s.held) == (base + Reached(s.held))[|base|..] == (base + s.held)[|base|..] == s.held;
    }
  }

  /** The held events behind the first held suspension: an accepted resume forgets them. */
  function Forgotten(es: seq<Event>): seq<Event> {
    ReachedAllIff(es);
    es[|Reached(es)|..]
  }

  predicate NoneRaised(es: seq<Event>) {
    forall i :: 0 <= i < |es| ==> !es[i].EventRaised?
  }

  /** The held events that a resume forgets, or hands out although it keeps them. */
  function Mishandled(core: N.State, held: seq<Event>): seq<Event>
    requires N.Inv(core)
  {
    if FirstRefused(core, held).None? then Forgotten(held) else Handed(core, held)
  }

  /** A resume forgets no raised event and hands out none that it keeps. */
  ghost predicate Conserving(core: N.State, held: seq<Event>)
    requires N.Inv(core)
  {
    NoneRaised(Mishandled(core, held))
  }

  ghost predicate NoPayloads(es: seq<Event>) {
    forall name :: Payloads(es, name) == []
  }

  lemma {:induction false} NoneRaisedIff(es: seq<Event>)
    ensures NoneRaised(es) <==> NoPayloads(es)
  {
    if es != [] {
      var front, e := es[..|es| - 1], es[|es| - 1];
      NoneRaisedIff(front);
      assert NoneRaised(es) <==> NoneRaised(front) && !e.EventRaised?;
      if !NoneRaised(front) {
        var name :| Payloads(front, name) != [];
        assert Payloads(es, name) != [];
      } else if e.EventRaised? {
        assert Payloads(front, e.name) == [];
        assert Payloads(es, e.name) != [];
      } else {
        forall name ensures Payloads(es, name) == [] { assert Payloads(front, name) == []; }
      }
    }
  }

  /** Any state holding a suspension followed by a raised event loses that event when resumed. */
  lemma {:induction false} ResumeLosesEvent(s: State, name: Name, payload: string)
    requires Inv(s) && !s.terminated && s.held == [ExecutionSuspended, EventRaised(name, payload)]
    ensures Resume(s).1 && X.Raised(Resume(s).0.ext, name) == X.Raised(s.ext, name) && Resume(s).0.held == []
  {
    hide N.Inv, Resume;
    ResumeOutcome(s);
    assert Handed(s.core, s.held) == [ExecutionSuspended];
    assert [ExecutionSuspended][..0] == [];
    assert Payloads([ExecutionSuspended], name) == [];
  }

  /** Any state holding a raised event followed by an unknown event hands it out with every resume. */
  lemma {:induction false} ResumeRepeatsEvent(s: State, name: Name, payload: string)
    requires Inv(s) && !s.terminated && s.held == [EventRaised(name, payload), Unrecognised]
    ensures var (s', ok) := Resume(s);
            && !ok && s'.held == s.held && !s'.terminated && !s'.suspended
            && X.Raised(s'.ext, name) == X.Raised(s.ext, name) + [payload]
  {
    hide N.Inv, Resume;
    ResumeOutcome(s);
    var e := EventRaised(name, payload);
    assert s.held[1..] == [Unrecognised];
    assert After(s.core, e) == s.core && FirstRefused(s.core, [Unrecognised]) == Some(0);
    assert FirstRefused(s.core, s.held) == Some(1) && s.held[..2] == s.held;
    PayloadsConcat([e], [Unrecognised], name);
    assert [e] + [Unrecognised] == s.held && [e][..0] == [] && [Unrecognised][..0] == [];
    assert Payloads([Unrecognised], name) == [] && Payloads([e], name) == [payload];
  }

  /** A refused resume can have completed a task before: whoever awaits it is then given the error, not the result. */
  lemma {:induction false} RefusedResumeCompletes(s: State, r: Resolution)
    requires Inv(s) && !s.terminated && s.held == [Resolved(r), Unrecognised] && N.Matches(s.core, r.KeyOf())
    ensures var (s', ok) := Resume(s);
            !ok && s.core.tasks[r.id] !in s.core.outcome &&
            s.core.tasks[r.id] in s'.core.outcome && s'.core.outcome[s.core.tasks[r.id]] == OutcomeOf(r)
  {
    var s1 := Dispatch(s, ExecutionResumed).0;
    DispatchKeepsInv(s1, Resolved(r));
    var s2 := Handle(s1, Resolved(r)).0;
    assert s.held[1..] == [Unrecognised] && [Unrecognised][1..] == [];
    assert HandleAll(s1, s.held) == HandleAll(s2, [Unrecognised]);
    assert HandleAll(s2, [Unrecognised]) == (Dispatch(s2, Unrecognised).0, false);
  }

  /******* Returned actions *******/

  /**
   A suspended replay returns nothing, unless it was terminated. Any other returns every ending, and all that is
   pending unless a result is held back while an optional timer is outstanding.
   */
  lemma {:induction false} ReturnedWhen(s: State, k: int)
    requires k in s.core.actions
    ensures s.suspended && !s.terminated ==> Emitted(s) == {}
    ensures !s.suspended || s.terminated ==>
      && (IsTerminal(s.core.actions[k].item.work) ==> k in Emitted(s))
      && (s.core.buffered == map[] || s.core.optional == {} ==> k in Emitted(s))
      && (!IsTerminal(s.core.actions[k].item.work) ==>
            (k in Emitted(s) <==>
             forall t, key :: t in s.core.optional && t <= k && key in s.core.buffered ==> key.id < t))
  {
  }

  lemma WithheldUpward(core: N.State, j: int, k: int)
    requires Withheld(core, j) && j <= k
    ensures Withheld(core, k)
  {
    var t, key :| t in core.optional && t <= j && key in core.buffered && key.id >= t;
  }

  /**
   New work is returned in a prefix: with a piece of new work, all pending work of a lower number is returned before it.
   */
  lemma {:induction false} EmittedIsPrefix(s: State, ids: seq<int>, i: nat, k: int)
    requires N.Sorted(ids) && (forall x :: x in ids <==> x in Emitted(s))
    requires i < |ids| && ids[i] in s.core.actions && !IsTerminal(s.core.actions[ids[i]].item.work)
    requires k in s.core.actions && k <= ids[i]
    ensures exists j :: 0 <= j <= i && ids[j] == k
  {
    assert ids[i] in ids;
    if Withheld(s.core, k) { WithheldUpward(s.core, k, ids[i]); }
    assert k in Emitted(s);
    var j :| 0 <= j < |ids| && ids[j] == k;
  }
}
