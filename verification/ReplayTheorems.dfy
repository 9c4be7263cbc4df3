/** What holds over whole replays: termination wins, and no external event is lost or reordered. */
module ReplayTheorems {
  import opened Work
  import N = Numbering
  import T = NumberingTheorems
  import X = ExternalEvents
  import opened Replay

  /** One step of a replay: user code calls the context, returns, or an event is processed. */
  datatype Op =
    | DoCall(work: Work)
    | DoWait(name: Name, timeout: int, now: int)
    | DoContinueAsNew(keep: bool)
    | DoReturn(status: Status)
    | DoFail(versionMissing: bool)
    | DoArrive(e: Event)

  /** A replay with the progress of user code: whether it has returned, and whether the engine gave up. */
  datatype Turn = Turn(s: State, returned: bool, halted: bool)

  const START := Turn(INIT, false, false)

  /**
   User code runs only until it returns. It does not run after termination either: an await ends
   only when its task completes, and a terminated replay ignores all further events.
   */
  predicate Running(t: Turn) {
    !t.returned && !t.halted && !t.s.terminated
  }

  predicate Enabled(t: Turn, op: Op) {
    match op
    case DoCall(w) => Running(t) && !IsTerminal(w)
    case DoWait(_, _, _) => Running(t)
    case DoContinueAsNew(_) => Running(t)
    case DoReturn(status) =>
      Running(t) && (status == Failed || status == if t.s.continuing then ContinuedAsNew else Completed)
    case DoFail(_) => !t.halted && !t.s.terminated
    case DoArrive(_) => !t.halted
  }

  function Next(t: Turn, op: Op): Turn
    requires Inv(t.s)
  {
    match op
    case DoCall(w) => t.(s := Call(t.s, w))
    case DoWait(name, timeout, now) => t.(s := WaitFor(t.s, name, timeout, now))
    case DoContinueAsNew(keep) => t.(s := t.s.(continuing := true, keep := t.s.keep || keep))
    case DoReturn(status) => t.(s := Call(t.s, Completion(status)), returned := true)
    case DoFail(missing) =>
      t.(s := Call(t.s, if missing then VersionNotAvailable else Completion(Failed)), halted := true)
    case DoArrive(e) => t.(s := Arrive(t.s, e).0)
  }

  lemma NextKeepsInv(t: Turn, op: Op)
    requires Inv(t.s)
    ensures Inv(Next(t, op).s) && T.Advances(t.s.core, Next(t, op).s.core)
  {
    assert T.Advances(t.s.core, t.s.core);
    match op
    case DoCall(w) => CallKeepsInv(t.s, w);
    case DoWait(name, timeout, now) => WaitForKeepsInv(t.s, name, timeout, now);
    case DoContinueAsNew(_) =>
    case DoReturn(status) => CallKeepsInv(t.s, Completion(status));
    case DoFail(missing) => CallKeepsInv(t.s, if missing then VersionNotAvailable else Completion(Failed));
    case DoArrive(e) => ArriveKeepsInv(t.s, e);
  }

  ghost predicate Allowed(t: Turn, ops: seq<Op>)
    requires Inv(t.s)
    decreases ops
  {
    ops == [] || (Enabled(t, ops[0]) && (NextKeepsInv(t, ops[0]); Allowed(Next(t, ops[0]), ops[1..])))
  }

  function Run(t: Turn, ops: seq<Op>): (t': Turn)
    requires Inv(t.s)
    ensures Inv(t'.s)
    decreases ops
  {
    if ops == [] then t
    else
      NextKeepsInv(t, ops[0]);
      Run(Next(t, ops[0]), ops[1..])
  }

  lemma StartInv()
    ensures Inv(START.s)
  {
    T.InitInv();
  }

  /** A whole replay never renumbers settled work and never revises a result. */
  lemma {:induction false} ReplayStable(t: Turn, ops: seq<Op>)
    requires Inv(t.s)
    ensures T.Extends(t.s.core, Run(t, ops).s.core)
    decreases ops
  {
    if ops != [] {
      NextKeepsInv(t, ops[0]);
      var t1 := Next(t, ops[0]);
      ReplayStable(t1, ops[1..]);
      T.ExtendsTransitive(t.s.core, t1.s.core, Run(t, ops).s.core);
    }
  }

  /******* Termination *******/

  /** The completions among the pending actions, whatever their numbers. */
  function Endings(core: N.State): set<Item> {
    set k | k in core.actions && core.actions[k].item.work.Completion? :: core.actions[k].item
  }

  lemma ScheduleEndings(c: N.State, w: Work)
    requires N.Inv(c)
    ensures Endings(N.Schedule(c, w)) == Endings(c) + if w.Completion? then {Item(c.issued, w)} else {}
  {
    var reg := N.Register(c, w);
    assert forall k :: k in c.actions ==> k in reg.actions && reg.actions[k] == c.actions[k];
    assert reg.actions[c.seqNo].item == Item(c.issued, w);
    assert Endings(reg) == Endings(c) + if w.Completion? then {Item(c.issued, w)} else {};
    if HasTask(w) {
      ConsumeEndings(reg, WorkKind(w), c.seqNo);
    }
  }

  lemma DeliverEndings(c: N.State, r: Resolution)
    ensures Endings(N.Deliver(c, r)) == Endings(c)
  {
    var c' := N.Deliver(c, r);
    assert forall k :: k in c'.actions <==> k in c.actions;
    assert forall k :: k in c.actions ==> c'.actions[k].item == c.actions[k].item;
  }

  lemma ConsumeEndings(c: N.State, kind: Kind, id: int)
    ensures Endings(N.Consume(c, kind, id)) == Endings(c)
  {
    var key := Key(kind, id);
    if key in c.buffered && !N.Provisional(c, id) {
      DeliverEndings(c.(buffered := c.buffered - {key}), c.buffered[key]);
    }
  }

  lemma {:induction false} ConsumeEachEndings(c: N.State, ids: seq<int>)
    ensures Endings(N.ConsumeEach(c, ids)) == Endings(c)
  {
    if ids != [] {
      var front := N.ConsumeEach(c, ids[..|ids| - 1]);
      var id := ids[|ids| - 1];
      ConsumeEachEndings(c, ids[..|ids| - 1]);
      if id in front.tasks && HasTask(front.tasks[id].work) {
        ConsumeEndings(front, WorkKind(front.tasks[id].work), id);
      }
    }
  }

  lemma DropAtEndings(c: N.State, at: int)
    requires N.Inv(c) && N.OptionalAt(c, at)
    ensures 0 <= at < |c.order| && Endings(N.DropAt(c, at)) == Endings(c)
  {
    var shifted := N.Shift(c, at);
    forall k | k in c.actions && k != at
      ensures N.ShiftedId(at, k) in shifted.actions && shifted.actions[N.ShiftedId(at, k)].item == c.actions[k].item
    {
      assert N.UnshiftedId(at, N.ShiftedId(at, k)) == k;
    }
    assert Endings(shifted) == Endings(c);
    ConsumeEachEndings(shifted, N.Ascending(set k | k in shifted.tasks && k >= at));
  }

  lemma {:induction false} DropAllEndings(c: N.State, id: int)
    requires N.Inv(c)
    ensures Endings(N.DropAll(c, id)) == Endings(c)
    decreases |c.order|
  {
    if N.OptionalAt(c, id) {
      N.DropAtKeepsInv(c, id);
      DropAtEndings(c, id);
      DropAllEndings(N.DropAt(c, id), id);
    }
  }

  lemma RetireEndings(c: N.State, e: ScheduleEvent)
    ensures Endings(N.Retire(c, e).0) == Endings(c)
  {
    var c' := N.Retire(c, e).0;
    assert forall k :: k in c.actions && c.actions[k].item.work.Completion? ==> k in c'.actions;
  }

  lemma ConfirmTimerEndings(c: N.State, id: int)
    requires id in c.actions && c.actions[id].item.work.Timer?
    ensures Endings(N.ConfirmTimer(c, id)) == Endings(c)
  {
    var c' := c.(actions := c.actions - {id}, optional := c.optional - {id});
    assert forall k :: k in c.actions && c.actions[k].item.work.Completion? ==> k in c'.actions;
    assert Endings(c') == Endings(c);
    ConsumeEachEndings(c', N.Ascending(c'.tasks.Keys));
  }

  /** Recorded schedules never retire or drop a completion. */
  lemma OnScheduledEndings(c: N.State, e: ScheduleEvent)
    requires N.Inv(c)
    ensures Endings(N.OnScheduled(c, e).0) == Endings(c)
  {
    match e
    case DetachedCreated(id, _) =>
      if N.OptionalAt(c, id) { DropAtEndings(c, id); }
      RetireEndings(if N.OptionalAt(c, id) then N.DropAt(c, id) else c, e);
    case TimerCreated(id, origin, fireAt) =>
      DropAllEndings(c, id);
      var c1 := if OptionalTimer(origin, fireAt) then c else N.DropAll(c, id);
      if N.Retire(c1, e).1 { ConfirmTimerEndings(c1, id); }
    case TaskScheduled(id) => DropAllEndings(c, id); RetireEndings(N.DropAll(c, id), e);
    case ChildCreated(id) => DropAllEndings(c, id); RetireEndings(N.DropAll(c, id), e);
  }

  /** With at most one pending completion, termination leaves exactly one, and it is not a continue-as-new. */
  lemma TerminateEndings(c: N.State)
    requires N.Inv(c) && (Endings(c) == {} || exists it :: Endings(c) == {it})
    ensures exists it :: Endings(Terminate(c)) == {it} && it.work.Completion? && it.work.status != ContinuedAsNew
  {
    var ends := Endings(c);
    if Completions(c) != Restarts(c) {
      var k := Difference(Completions(c), Restarts(c));
      assert c.actions[k].item in ends;
      var it :| ends == {it};
    } else {
      var c1 := c.(actions := c.actions - Restarts(c));
      T.DiscardAdvances(c, Restarts(c));
      assert Endings(c1) == {} by {
        forall k | k in c1.actions ensures !c1.actions[k].item.work.Completion? {
          assert k in c.actions && k !in Completions(c);
        }
      }
      ScheduleEndings(c1, Completion(Terminated));
      var it := Item(c1.issued, Completion(Terminated));
      assert Endings(Terminate(c)) == {it};
    }
  }

  lemma HandleEndings(s: State, e: Event)
    requires Inv(s) && !e.ExecutionTerminated?
    ensures Endings(Handle(s, e).0.core) == Endings(s.core) && Handle(s, e).0.terminated == s.terminated
  {
    match e
    case Resolved(r) => DeliverEndings(s.core, r);
    case Recorded(rec) => OnScheduledEndings(s.core, rec);
    case _ =>
  }

  lemma {:induction false} HandleAllEndings(s: State, es: seq<Event>)
    requires Inv(s) && HeldIn(es)
    ensures Endings(HandleAll(s, es).0.core) == Endings(s.core) && HandleAll(s, es).0.terminated == s.terminated
    decreases es
  {
    if es != [] {
      HandleEndings(s, es[0]);
      HandleKeepsInv(s, es[0]);
      assert HeldIn(es[1..]);
      if Handle(s, es[0]).1 { HandleAllEndings(Handle(s, es[0]).0, es[1..]); }
    }
  }

  lemma ArriveEndings(s: State, e: Event)
    requires Inv(s)
    ensures s.terminated ==> Arrive(s, e).0.core == s.core && Arrive(s, e).0.terminated
    ensures !s.terminated && !e.ExecutionTerminated? ==>
              Endings(Arrive(s, e).0.core) == Endings(s.core) && !Arrive(s, e).0.terminated
    ensures !s.terminated && e.ExecutionTerminated? ==>
              Arrive(s, e).0.core == Terminate(s.core) && Arrive(s, e).0.terminated
  {
    var s0 := s.(arrived := s.arrived + [e]);
    if !s.terminated && !e.ExecutionTerminated? {
      if e.ExecutionResumed? {
        HandleAllEndings(Dispatch(s0, e).0, s.held);
      } else {
        HandleEndings(s0, e);
      }
    }
  }

  ghost predicate OneEnding(c: N.State) {
    exists it :: Endings(c) == {it}
  }

  ghost predicate EndedForGood(c: N.State) {
    exists it :: Endings(c) == {it} && it.work.Completion? && it.work.status != ContinuedAsNew
  }

  /** A replay has no pending completion until it returns, and exactly one once it is terminated. */
  ghost predicate EndsOnce(t: Turn) {
    && (t.s.terminated ==> !t.halted && EndedForGood(t.s.core))
    && (!t.s.terminated && !t.halted ==> if t.returned then OneEnding(t.s.core) else Endings(t.s.core) == {})
  }

  lemma CallEndings(t: Turn, w: Work)
    requires Inv(t.s) && !t.halted && !t.s.terminated && EndsOnce(t)
    ensures !w.Completion? ==> Endings(Call(t.s, w).core) == Endings(t.s.core)
    ensures w.Completion? && !t.returned ==> OneEnding(Call(t.s, w).core)
  {
    ScheduleEndings(t.s.core, w);
    if w.Completion? && !t.returned {
      assert Endings(Call(t.s, w).core) == {Item(t.s.core.issued, w)};
    }
  }

  lemma WaitEndings(s: State, name: Name, timeout: int, now: int)
    requires Inv(s)
    ensures Endings(WaitFor(s, name, timeout, now).core) == Endings(s.core)
  {
    ScheduleEndings(s.core, Timer(ExternalEvent(name), if timeout > 0 then now + timeout else INDEFINITE));
  }

  lemma NextEndsOnce(t: Turn, op: Op)
    requires Inv(t.s) && EndsOnce(t) && Enabled(t, op)
    ensures EndsOnce(Next(t, op))
  {
    match op
    case DoCall(w) => CallEndings(t, w);
    case DoWait(name, timeout, now) => WaitEndings(t.s, name, timeout, now);
    case DoContinueAsNew(_) =>
    case DoReturn(status) => CallEndings(t, Completion(status));
    case DoFail(_) =>
    case DoArrive(e) =>
      ArriveEndings(t.s, e);
      if !t.s.terminated && e.ExecutionTerminated? { TerminateEndings(t.s.core); }
  }

  lemma {:induction false} RunEndsOnce(t: Turn, ops: seq<Op>)
    requires Inv(t.s) && EndsOnce(t) && Allowed(t, ops)
    ensures EndsOnce(Run(t, ops))
    decreases ops
  {
    if ops != [] {
      NextKeepsInv(t, ops[0]);
      NextEndsOnce(t, ops[0]);
      RunEndsOnce(Next(t, ops[0]), ops[1..]);
    }
  }

  /** The completion among the returned actions. */
  ghost predicate Ends(s: State, k: int) {
    k in Emitted(s) && s.core.actions[k].item.work.Completion?
  }

  lemma StartEndsOnce()
    ensures Inv(START.s) && EndsOnce(START)
  {
    StartInv();
    assert Endings(START.s.core) == {};
  }

  lemma EndingIsEmitted(s: State)
    requires N.Inv(s.core) && s.terminated && EndedForGood(s.core)
    ensures exists k :: Ends(s, k) && s.core.actions[k].item.work.status != ContinuedAsNew &&
                        forall j :: Ends(s, j) ==> j == k
  {
    var it :| Endings(s.core) == {it} && it.work.Completion? && it.work.status != ContinuedAsNew;
    assert it in Endings(s.core);
    var k :| k in s.core.actions && s.core.actions[k].item.work.Completion? && s.core.actions[k].item == it;
    assert Ends(s, k);
    forall j | Ends(s, j) ensures j == k {
      assert s.core.actions[j].item in Endings(s.core);
      assert s.core.order[j] == s.core.order[k];
    }
  }

  /**
   Termination wins: once a terminate event has been processed, whatever happened before and even
   while suspended or with provisional numbers, the replay returns exactly one completion and it
   does not continue as new.
   */
  lemma TerminationWins(ops: seq<Op>)
    requires Allowed(START, ops) && Run(START, ops).s.terminated
    ensures var s := Run(START, ops).s;
            exists k :: Ends(s, k) && s.core.actions[k].item.work.status != ContinuedAsNew &&
                        forall j :: Ends(s, j) ==> j == k
  {
    StartEndsOnce();
    RunEndsOnce(START, ops);
    EndingIsEmitted(Run(START, ops).s);
  }

  /** This pending action ends the workflow for good. */
  predicate EndsForGood(core: N.State, k: int) {
    k in core.actions && core.actions[k].item.work.Completion? && core.actions[k].item.work.status != ContinuedAsNew
  }

  /** Termination leaves a completion that ends the workflow for good as it is, and otherwise adds its own. */
  lemma {:induction false} TerminateDecides(c: N.State)
    requires N.Inv(c) && (Endings(c) == {} || OneEnding(c))
    ensures (exists k :: EndsForGood(c, k)) ==> Endings(Terminate(c)) == Endings(c)
    ensures (forall k :: !EndsForGood(c, k)) ==> Endings(Terminate(c)) == {Item(c.issued, Completion(Terminated))}
  {
    if k :| EndsForGood(c, k) {
      assert k in Completions(c) && k !in Restarts(c);
    } else {
      assert Completions(c) == Restarts(c) by {
        forall k | k in Completions(c) ensures k in Restarts(c) { assert !EndsForGood(c, k); }
      }
      var c1 := c.(actions := c.actions - Restarts(c));
      T.DiscardAdvances(c, Restarts(c));
      assert Endings(c1) == {} by {
        forall k | k in c1.actions ensures !c1.actions[k].item.work.Completion? {
          assert k in c.actions && k !in Completions(c);
        }
      }
      ScheduleEndings(c1, Completion(Terminated));
    }
  }

  /** Nothing changes the work of a terminated replay. */
  lemma {:induction false} TerminatedStays(t: Turn, ops: seq<Op>)
    requires Inv(t.s) && t.s.terminated && Allowed(t, ops)
    ensures Run(t, ops).s.core == t.s.core && Run(t, ops).s.terminated
    decreases ops
  {
    hide Arrive;
    if ops != [] {
      NextKeepsInv(t, ops[0]);
      if ops[0].DoArrive? { ArriveEndings(t.s, ops[0].e); }
      TerminatedStays(Next(t, ops[0]), ops[1..]);
    }
  }

  /** The terminate event has been processed in this state. */
  function AfterTerminate(t: Turn): Turn
    requires Inv(t.s)
  {
    Next(t, DoArrive(ExecutionTerminated))
  }

  lemma {:induction false} DecidedAt(t: Turn)
    requires Inv(t.s) && EndsOnce(t) && !t.halted && !t.s.terminated
    ensures Inv(AfterTerminate(t).s) && AfterTerminate(t).s.terminated
    ensures (exists k :: EndsForGood(t.s.core, k)) ==> Endings(AfterTerminate(t).s.core) == Endings(t.s.core)
    ensures (forall k :: !EndsForGood(t.s.core, k)) ==>
      Endings(AfterTerminate(t).s.core) == {Item(t.s.core.issued, Completion(Terminated))}
    ensures Endings(t.s.core) == {} || OneEnding(t.s.core)
  {
    hide N.Inv, Endings, Terminate, EndsForGood;
    NextKeepsInv(t, DoArrive(ExecutionTerminated));
    ArriveEndings(t.s, ExecutionTerminated);
    TerminateDecides(t.s.core);
  }

  lemma EndingOf(core: N.State, k: int)
    requires k in core.actions && core.actions[k].item.work.Completion?
    ensures core.actions[k].item in Endings(core)
  {
  }

  /**
   What a termination decides: the completion that a replay returns after it is the one the workflow had returned
   before, if that ends the workflow for good, and otherwise a completion as terminated.
   */
  lemma {:induction false} TerminationDecides(before: seq<Op>, more: seq<Op>, j: int)
    requires Inv(START.s) && Allowed(START, before)
    requires var t := Run(START, before);
             && !t.halted && !t.s.terminated && Inv(AfterTerminate(t).s) && Allowed(AfterTerminate(t), more)
             && Ends(Run(AfterTerminate(t), more).s, j)
    ensures var t := Run(START, before);
            var c, s := t.s.core, Run(AfterTerminate(t), more).s;
            && (forall k :: EndsForGood(c, k) ==> s.core.actions[j].item == c.actions[k].item)
            && ((forall k :: !EndsForGood(c, k)) ==>
                  s.core.actions[j].item == Item(c.issued, Completion(Terminated)))
  {
    hide Inv, EndsOnce, Run, AfterTerminate, Endings, Emitted, Allowed;
    StartEndsOnce();
    RunEndsOnce(START, before);
    var t := Run(START, before);
    RunInv(START, before);
    DecidedAt(t);
    TerminatedStays(AfterTerminate(t), more);
    var s := Run(AfterTerminate(t), more).s;
    RunInv(AfterTerminate(t), more);
    EndsPending(s, j);
    EndingOf(s.core, j);
    forall k | EndsForGood(t.s.core, k) ensures s.core.actions[j].item == t.s.core.actions[k].item {
      EndingOf(t.s.core, k);
    }
  }

  lemma RunInv(t: Turn, ops: seq<Op>)
    requires Inv(t.s)
    ensures Inv(Run(t, ops).s)
  {
  }

  lemma EndsPending(s: State, k: int)
    requires Ends(s, k)
    ensures k in s.core.actions && s.core.actions[k].item.work.Completion?
  {
  }

  /** Until the engine gives up, a replay never holds two pending completions, so a termination finds at most one. */
  lemma TerminationFindsOne(ops: seq<Op>)
    requires Allowed(START, ops) && !Run(START, ops).halted
    ensures OneCompletion(Run(START, ops).s.core)
  {
    StartEndsOnce();
    RunEndsOnce(START, ops);
    var c := Run(START, ops).s.core;
    forall a, b | a in Completions(c) && b in Completions(c) ensures a == b {
      assert c.actions[a].item in Endings(c) && c.actions[b].item in Endings(c);
      assert c.order[a] == c.order[b];
    }
  }

  /******* External events *******/

  /** Every event raised before termination is handed out, kept, or held, in order of arrival. */
  ghost predicate Conserved(s: State) {
    forall name :: Payloads(s.arrived, name) == X.Raised(s.ext, name) + Payloads(s.held, name)
  }

  predicate AllAre(q: seq<string>, payload: string) {
    forall i :: 0 <= i < |q| ==> q[i] == payload
  }

  /**
   The steps that conserve events, told from the state before the step: a resume that forgets no raised
   event and repeats none, and a raised event that overtakes no different event held under its name.
   */
  ghost predicate Lossless(t: Turn, op: Op)
    requires Inv(t.s)
  {
    op.DoArrive? && !t.s.terminated ==>
      && (op.e.ExecutionResumed? ==> Conserving(t.s.core, t.s.held))
      && (op.e.EventRaised? && !t.s.suspended ==> AllAre(Payloads(t.s.held, op.e.name), op.e.payload))
  }

  lemma {:induction false} SameTail(a: seq<string>, b: seq<string>, c: seq<string>)
    ensures a + b == a + c <==> b == c
  {
    if a + b == a + c {
      assert b == (a + b)[|a|..] == (a + c)[|a|..] == c;
    }
  }

  /** An accepted resume conserves exactly if what it forgets raises nothing. */
  lemma {:induction false} AcceptedConservesIff(s: State, name: Name)
    requires Inv(s) && FirstRefused(s.core, s.held).None?
    ensures X.Raised(s.ext, name) + Payloads(s.held, name) ==
            X.Raised(s.ext, name) + Payloads(Handed(s.core, s.held), name) + [] <==>
            Payloads(Forgotten(s.held), name) == []
  {
    hide N.Inv, FirstRefused, Payloads, X.Raised, Reached, NoNestedSuspend, X.Inv, Linked;
    ReachedAllIff(s.held);
    assert s.held == Reached(s.held) + Forgotten(s.held);
    PayloadsConcat(Reached(s.held), Forgotten(s.held), name);
    var r, q := X.Raised(s.ext, name), Payloads(Reached(s.held), name);
    SameTail(r + q, Payloads(Forgotten(s.held), name), []);
    assert r + (q + Payloads(Forgotten(s.held), name)) == (r + q) + Payloads(Forgotten(s.held), name);
  }

  /** A refused resume conserves exactly if what it hands out, and keeps, raises nothing. */
  lemma {:induction false} RefusedConservesIff(raised: seq<string>, held: seq<string>, handed: seq<string>)
    ensures raised + held == raised + handed + held <==> handed == []
  {
    if raised + held == raised + handed + held {
      assert |raised + held| == |raised + handed + held|;
    }
  }

  lemma {:induction false} ResumeConservesAt(s: State, name: Name)
    requires Inv(s) && !s.terminated && Payloads(s.arrived, name) == X.Raised(s.ext, name) + Payloads(s.held, name)
    ensures var s' := Arrive(s, ExecutionResumed).0;
            Payloads(s'.arrived, name) == X.Raised(s'.ext, name) + Payloads(s'.held, name) <==>
            Payloads(Mishandled(s.core, s.held), name) == []
  {
    hide N.Inv, Resume, Handed, FirstRefused, Forgotten, NoneRaised;
    var s0 := s.(arrived := s.arrived + [ExecutionResumed]);
    SameInv(s, s0);
    ResumeOutcome(s0);
    PayloadsSnoc(s.arrived, ExecutionResumed, name);
    PayloadsOne(ExecutionResumed, Payloads(s.arrived, name), name);
    if FirstRefused(s.core, s.held).None? {
      AcceptedConservesIff(s, name);
    } else {
      RefusedConservesIff(X.Raised(s.ext, name), Payloads(s.held, name), Payloads(Handed(s.core, s.held), name));
    }
  }

  lemma {:induction false} ResumeConservesIff(s: State)
    requires Inv(s) && Conserved(s) && !s.terminated
    ensures Conserved(Arrive(s, ExecutionResumed).0) <==> Conserving(s.core, s.held)
  {
    hide N.Inv, Arrive, Mishandled, NoneRaised;
    var s', es := Arrive(s, ExecutionResumed).0, Mishandled(s.core, s.held);
    NoneRaisedIff(es);
    forall name
      ensures Payloads(s'.arrived, name) == X.Raised(s'.ext, name) + Payloads(s'.held, name) <==>
              Payloads(es, name) == []
    {
      ResumeConservesAt(s, name);
    }
    if NoPayloads(es) {
      assert Conserved(s');
    } else {
      var name :| Payloads(es, name) != [];
      assert !Conserved(s');
    }
  }

  lemma SameInv(s: State, s': State)
    requires Inv(s) && s' == s.(arrived := s'.arrived)
    ensures Inv(s')
  {
  }

  lemma {:induction false} SwapIff(q: seq<string>, payload: string)
    ensures q + [payload] == [payload] + q <==> AllAre(q, payload)
  {
    if AllAre(q, payload) {
      assert forall i :: 0 <= i < |q| + 1 ==> (q + [payload])[i] == payload && ([payload] + q)[i] == payload;
      assert q + [payload] == [payload] + q;
    }
    if q + [payload] == [payload] + q { SwappedAt(q, payload); }
  }

  lemma {:induction false} SwappedAt(q: seq<string>, payload: string)
    requires q + [payload] == [payload] + q
    ensures AllAre(q, payload)
  {
    if q != [] {
      assert q[0] == (q + [payload])[0] == ([payload] + q)[0] == payload;
      assert q[1..] + [payload] == (q + [payload])[1..] == ([payload] + q)[1..] == q == [payload] + q[1..];
      SwappedAt(q[1..], payload);
    }
  }

  /** An event that is handled at once goes in front of what is held. */
  lemma {:induction false} DirectConservesIff(s: State, e: Event)
    requires Inv(s) && Conserved(s) && !e.ExecutionResumed?
    ensures Conserved(Dispatch(s.(arrived := s.arrived + [e]), e).0) <==>
            (e.EventRaised? ==> AllAre(Payloads(s.held, e.name), e.payload))
  {
    hide N.Inv, X.Raised, AllAre;
    var s0 := s.(arrived := s.arrived + [e]);
    SameInv(s, s0);
    DispatchKeepsInv(s0, e);
    var s' := Dispatch(s0, e).0;
    assert s'.held == s.held && s'.arrived == s0.arrived;
    forall name
      ensures Payloads(s'.arrived, name) == X.Raised(s'.ext, name) + Payloads(s'.held, name) <==>
              (e.EventRaised? && e.name == name ==> AllAre(Payloads(s.held, name), e.payload))
    {
      PayloadsSnoc(s.arrived, e, name);
      DirectAt(X.Raised(s.ext, name), Payloads(s.held, name), e, name);
    }
  }

  lemma {:induction false} DirectAt(raised: seq<string>, held: seq<string>, e: Event, name: Name)
    ensures raised + held + Payloads([e], name) == raised + Payloads([e], name) + held <==>
            (e.EventRaised? && e.name == name ==> AllAre(held, e.payload))
  {
    var p := Payloads([e], name);
    PayloadsOne(e, [], name);
    assert [] + p == p;
    assert raised + held + p == raised + (held + p) && raised + p + held == raised + (p + held);
    SameTail(raised, held + p, p + held);
    if e.EventRaised? && e.name == name {
      assert p == [e.payload];
      SwapIff(held, e.payload);
    } else {
      assert p == [];
    }
  }

  lemma {:induction false} HeldAt(arrived: seq<Event>, raised: seq<string>, held: seq<Event>, e: Event, name: Name)
    requires Payloads(arrived, name) == raised + Payloads(held, name)
    ensures Payloads(arrived + [e], name) == raised + Payloads(held + [e], name)
  {
    hide Payloads;
    PayloadsSnoc(arrived, e, name);
    PayloadsSnoc(held, e, name);
  }

  lemma {:induction false} HeldConserves(s: State, e: Event)
    requires Conserved(s)
    ensures Conserved(s.(arrived := s.arrived + [e], held := s.held + [e]))
  {
    hide Payloads, X.Raised;
    var s' := s.(arrived := s.arrived + [e], held := s.held + [e]);
    forall name ensures Payloads(s'.arrived, name) == X.Raised(s'.ext, name) + Payloads(s'.held, name) {
      HeldAt(s.arrived, X.Raised(s.ext, name), s.held, e, name);
    }
  }

  /** A step conserves events exactly if it is lossless. */
  lemma {:induction false} NextConservesIff(t: Turn, op: Op)
    requires Inv(t.s) && Conserved(t.s)
    ensures Conserved(Next(t, op).s) <==> Lossless(t, op)
  {
    hide N.Inv, Conserving, Dispatch, Resume, AllAre;
    match op {
      case DoCall(w) => CallKeepsInv(t.s, w);
      case DoWait(name, timeout, now) => WaitForKeepsInv(t.s, name, timeout, now);
      case DoContinueAsNew(_) =>
      case DoReturn(status) => CallKeepsInv(t.s, Completion(status));
      case DoFail(missing) => CallKeepsInv(t.s, if missing then VersionNotAvailable else Completion(Failed));
      case DoArrive(e) =>
        if !t.s.terminated {
          if e.ExecutionResumed? {
            ResumeConservesIff(t.s);
          } else if t.s.suspended && !e.ExecutionTerminated? {
            HeldConserves(t.s, e);
          } else {
            DirectConservesIff(t.s, e);
          }
        }
    }
  }

  ghost predicate AllLossless(t: Turn, ops: seq<Op>)
    requires Inv(t.s)
    decreases ops
  {
    ops == [] || (Lossless(t, ops[0]) && (NextKeepsInv(t, ops[0]); AllLossless(Next(t, ops[0]), ops[1..])))
  }

  /** Events are conserved after every step. */
  ghost predicate AlwaysConserved(t: Turn, ops: seq<Op>)
    requires Inv(t.s)
    decreases ops
  {
    Conserved(t.s) && (ops == [] || (NextKeepsInv(t, ops[0]); AlwaysConserved(Next(t, ops[0]), ops[1..])))
  }

  lemma {:induction false} RunConservesIff(t: Turn, ops: seq<Op>)
    requires Inv(t.s) && Conserved(t.s)
    ensures AlwaysConserved(t, ops) <==> AllLossless(t, ops)
    ensures AllLossless(t, ops) ==> Conserved(Run(t, ops).s)
    decreases ops
  {
    hide Conserved, Lossless, Next, Inv;
    if ops != [] {
      NextKeepsInv(t, ops[0]);
      NextConservesIff(t, ops[0]);
      if Lossless(t, ops[0]) { RunConservesIff(Next(t, ops[0]), ops[1..]); }
    }
  }

  /** A replay conserves external events throughout exactly if each of its steps is lossless. */
  lemma {:induction false} EventsConservedIff(ops: seq<Op>)
    ensures Inv(START.s)
    ensures AlwaysConserved(START, ops) <==> AllLossless(START, ops)
  {
    StartInv();
    RunConservesIff(START, ops);
  }

  /**
   External events are conserved and first in, first out: under each name, what arrived is what was
   handed to waiters, followed by what is kept, followed by what is held. In every replay, lossless or
   not, events are kept only while nobody waits, and the queue holds exactly the waiters that are not
   done, oldest first.
   */
  lemma {:induction false} EventsConserved(ops: seq<Op>, name: Name)
    ensures Inv(START.s)
    ensures var s := Run(START, ops).s;
            && (AllLossless(START, ops) ==>
                  Payloads(s.arrived, name) ==
                  X.Get(s.ext.received, name) + X.Get(s.ext.events, name) + Payloads(s.held, name))
            && (X.Get(s.ext.events, name) == [] || X.Get(s.ext.queue, name) == [])
            && X.Ordered(X.Get(s.ext.queue, name))
            && (forall w :: w in X.Get(s.ext.queue, name) <==> X.Pending(s.ext, w) && w.name == name)
  {
    hide N.Inv, Next, Conserving;
    StartInv();
    RunConservesIff(START, ops);
    var x := Run(START, ops).s.ext;
    assert X.QueueOf(x, name, X.Get(x.queue, name));
  }

  /******* Steps that are not lossless *******/

  ghost predicate Leads(t: Turn, op: Op, t': Turn) {
    Inv(t.s) && Enabled(t, op) && t' == Next(t, op) && Inv(t'.s)
  }

  lemma {:induction false} ArriveLeads(t: Turn, e: Event)
    requires Inv(t.s) && !t.halted
    ensures Leads(t, DoArrive(e), t.(s := Arrive(t.s, e).0))
  {
    NextKeepsInv(t, DoArrive(e));
  }

  /** A replay can reach a state whose resume loses an event: suspend twice before it arrives. */
  lemma {:induction false} NestedSuspendReachable(name: Name, payload: string) returns (t1: Turn, t2: Turn, t3: Turn)
    ensures Leads(START, DoArrive(ExecutionSuspended), t1) && Leads(t1, DoArrive(ExecutionSuspended), t2)
    ensures Leads(t2, DoArrive(EventRaised(name, payload)), t3)
    ensures t3.s.held == [ExecutionSuspended, EventRaised(name, payload)] && !t3.s.terminated &&
      !Lossless(t3, DoArrive(ExecutionResumed))
  {
    hide N.Inv;
    StartInv();
    t1 := START.(s := Arrive(START.s, ExecutionSuspended).0);
    ArriveLeads(START, ExecutionSuspended);
    t2 := t1.(s := Arrive(t1.s, ExecutionSuspended).0);
    ArriveLeads(t1, ExecutionSuspended);
    t3 := t2.(s := Arrive(t2.s, EventRaised(name, payload)).0);
    ArriveLeads(t2, EventRaised(name, payload));
    assert Forgotten(t3.s.held)[0] == EventRaised(name, payload);
  }

  /**
   A replay can hand one event out twice: a resume refused after it keeps the buffer, and user code may
   go on and take another resumption.
   */
  lemma {:induction false} RefusedResumeReachable(name: Name, payload: string)
    returns (t1: Turn, t2: Turn, t3: Turn, t4: Turn, t5: Turn)
    ensures Leads(START, DoArrive(ExecutionSuspended), t1) && Leads(t1, DoArrive(EventRaised(name, payload)), t2)
    ensures Leads(t2, DoArrive(Unrecognised), t3) && Leads(t3, DoArrive(ExecutionResumed), t4) &&
      Leads(t4, DoArrive(ExecutionResumed), t5)
    ensures Payloads(t5.s.arrived, name) == [payload] && X.Raised(t5.s.ext, name) == [payload, payload]
  {
    hide N.Inv;
    StartInv();
    var e := EventRaised(name, payload);
    t1 := START.(s := Arrive(START.s, ExecutionSuspended).0);
    ArriveLeads(START, ExecutionSuspended);
    t2 := t1.(s := Arrive(t1.s, e).0);
    ArriveLeads(t1, e);
    t3 := t2.(s := Arrive(t2.s, Unrecognised).0);
    ArriveLeads(t2, Unrecognised);
    assert t3.s.held == [e, Unrecognised] && X.Raised(t3.s.ext, name) == [];
    assert t3.s.arrived == [ExecutionSuspended] + [e] + [Unrecognised];
    t4 := ResumeAgain(t3, name, payload);
    t5 := ResumeAgain(t4, name, payload);
    assert t5.s.arrived == [ExecutionSuspended] + [e] + [Unrecognised] + [ExecutionResumed] + [ExecutionResumed];
    ArrivedOnce(e, t5.s.arrived);
  }

  /** A refused resume hands the event out and keeps it, so that the next one does the same. */
  lemma {:induction false} ResumeAgain(t: Turn, name: Name, payload: string) returns (t': Turn)
    requires Inv(t.s) && !t.halted && !t.s.terminated && t.s.held == [EventRaised(name, payload), Unrecognised]
    ensures Leads(t, DoArrive(ExecutionResumed), t') && !t'.halted && !t'.s.terminated && t'.s.held == t.s.held
    ensures t'.s.arrived == t.s.arrived + [ExecutionResumed] &&
      X.Raised(t'.s.ext, name) == X.Raised(t.s.ext, name) + [payload]
  {
    hide N.Inv, Resume;
    var s0 := t.s.(arrived := t.s.arrived + [ExecutionResumed]);
    SameInv(t.s, s0);
    ResumeRepeatsEvent(s0, name, payload);
    ResumeOutcome(s0);
    t' := t.(s := Arrive(t.s, ExecutionResumed).0);
    ArriveLeads(t, ExecutionResumed);
  }

  lemma {:induction false} ArrivedOnce(e: Event, arrived: seq<Event>)
    requires e.EventRaised?
    requires arrived == [ExecutionSuspended] + [e] + [Unrecognised] + [ExecutionResumed] + [ExecutionResumed]
    ensures Payloads(arrived, e.name) == [e.payload]
  {
    var a, name := [ExecutionSuspended] + [e], e.name;
    PayloadsOne(ExecutionSuspended, [], name);
    PayloadsSnoc([ExecutionSuspended], e, name);
    PayloadsOne(e, [], name);
    PayloadsSnoc(a, Unrecognised, name);
    PayloadsOne(Unrecognised, Payloads(a, name), name);
    PayloadsSnoc(a + [Unrecognised], ExecutionResumed, name);
    PayloadsSnoc(a + [Unrecognised] + [ExecutionResumed], ExecutionResumed, name);
    PayloadsOne(ExecutionResumed, [e.payload], name);
  }
}
