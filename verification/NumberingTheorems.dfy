/** What holds over whole replays: numbers settle for good, and early and late results agree. */
module NumberingTheorems {
  import opened Work
  import opened Numbering

  /** One thing that can happen to the numbering: user code schedules work, or an event arrives. */
  datatype Step =
    | Call(work: Work)
    | Resolve(r: Resolution)
    | Record(e: ScheduleEvent)
    | Withdraw(id: int)

  /** Termination discards a pending continue-as-new completion. */
  function Discard(s: State, id: int): State {
    if id in s.actions && s.actions[id].item.work.Completion?
    then s.(actions := s.actions - {id})
    else s
  }

  /** A valid state reached from a valid state without revising anything final. */
  ghost predicate Advances(s: State, s': State) {
    Inv(s') && Extends(s, s') && s.issued <= s'.issued
  }

  lemma ScheduleAdvances(s: State, w: Work)
    requires Inv(s)
    ensures Advances(s, Schedule(s, w))
  {
    ScheduleKeepsInv(s, w);
    ScheduleExtends(s, w);
  }

  lemma DeliverAdvances(s: State, r: Resolution)
    requires Inv(s)
    ensures Advances(s, Deliver(s, r))
  {
    DeliverKeepsInv(s, r);
    DeliverExtends(s, r);
  }

  lemma OnScheduledAdvances(s: State, e: ScheduleEvent)
    requires Inv(s)
    ensures Advances(s, OnScheduled(s, e).0)
  {
    OnScheduledKeepsInv(s, e);
    OnScheduledExtends(s, e);
    OnScheduledKeepsIssued(s, e);
  }

  lemma DiscardAdvances(s: State, ids: set<int>)
    requires Inv(s) && forall id :: id in ids ==> id !in s.optional
    ensures Advances(s, s.(actions := s.actions - ids))
  {
    var s' := s.(actions := s.actions - ids);
    assert forall k :: Provisional(s', k) == Provisional(s, k);
    assert forall key :: key in s'.buffered ==> Matches(s', key) == Matches(s, key);
  }

  function Next(s: State, step: Step): State
    requires Inv(s)
  {
    match step
    case Call(w) => Schedule(s, w)
    case Resolve(r) => Deliver(s, r)
    case Record(e) => OnScheduled(s, e).0
    case Withdraw(id) => Discard(s, id)
  }

  lemma DiscardKeepsInv(s: State, id: int)
    requires Inv(s)
    ensures Inv(Discard(s, id))
  {
    var s' := Discard(s, id);
    assert forall k :: Provisional(s', k) == Provisional(s, k);
    assert forall key :: key in s'.buffered ==> Matches(s', key) == Matches(s, key);
  }

  lemma NextKeepsInv(s: State, step: Step)
    requires Inv(s)
    ensures Inv(Next(s, step))
  {
    match step
    case Call(w) => ScheduleKeepsInv(s, w);
    case Resolve(r) => DeliverKeepsInv(s, r);
    case Record(e) => OnScheduledKeepsInv(s, e);
    case Withdraw(id) => DiscardKeepsInv(s, id);
  }

  function Run(s: State, steps: seq<Step>): (s': State)
    requires Inv(s)
    ensures Inv(s')
    decreases steps
  {
    if steps == [] then s
    else
      NextKeepsInv(s, steps[0]);
      Run(Next(s, steps[0]), steps[1..])
  }

  lemma {:induction false} RunSnoc(s: State, steps: seq<Step>, last: Step)
    requires Inv(s)
    ensures Run(s, steps + [last]) == Next(Run(s, steps), last)
    decreases steps
  {
    hide Next, Numbering.Inv;
    if steps == [] {
      assert [last][1..] == [];
      NextKeepsInv(s, last);
    } else {
      assert (steps + [last])[1..] == steps[1..] + [last];
      NextKeepsInv(s, steps[0]);
      RunSnoc(Next(s, steps[0]), steps[1..], last);
    }
  }

  /******* Settled numbers *******/

  /** Everything a step may not change: settled numbers, results and resolved keys. */
  ghost predicate Extends(s: State, s': State) {
    && (forall id :: 0 <= id < |s.order| && !Provisional(s, id) ==>
          id < |s'.order| && s'.order[id] == s.order[id] && !Provisional(s', id))
    && (forall item :: item in s.outcome ==> item in s'.outcome && s'.outcome[item] == s.outcome[item])
    && s.resolved <= s'.resolved
  }

  lemma ExtendsTransitive(a: State, b: State, c: State)
    requires Extends(a, b) && Extends(b, c)
    ensures Extends(a, c)
  {
  }

  lemma FinishExtends(s: State, r: Resolution)
    requires CoreInv(s) && Matches(s, r.KeyOf())
    ensures Extends(s, Finish(s, r))
  {
    assert forall k :: Provisional(Finish(s, r), k) == Provisional(s, k);
  }

  lemma DeliverExtends(s: State, r: Resolution)
    requires CoreInv(s)
    ensures Extends(s, Deliver(s, r))
  {
    if Matches(s, r.KeyOf()) { FinishExtends(s, r); }
    else { assert forall k :: Provisional(Deliver(s, r), k) == Provisional(s, k); }
  }

  lemma ConsumeAtExtends(s: State, id: int)
    requires CoreInv(s)
    ensures Extends(s, ConsumeAt(s, id))
  {
    if ConsumeAt(s, id) != s {
      var key := Key(WorkKind(s.tasks[id].work), id);
      var s1 := s.(buffered := s.buffered - {key});
      assert forall k :: Provisional(s1, k) == Provisional(s, k);
      DeliverExtends(s1, s.buffered[key]);
    }
  }

  lemma {:induction false} ConsumeEachExtends(s: State, ids: seq<int>)
    requires CoreInv(s)
    ensures Extends(s, ConsumeEach(s, ids))
  {
    if ids != [] {
      var front := ids[..|ids| - 1];
      var all := set key | key in s.buffered :: key.id;
      ConsumeEachExtends(s, front);
      ConsumeEachKeepsInv(s, front, all);
      ConsumeAtExtends(ConsumeEach(s, front), ids[|ids| - 1]);
    }
  }

  lemma ScheduleExtends(s: State, w: Work)
    requires Inv(s)
    ensures Extends(s, Schedule(s, w))
  {
    RegisterKeepsInv(s, w);
    if HasTask(w) { ConsumeAtExtends(Register(s, w), s.seqNo); }
  }

  lemma DropAtExtends(s: State, at: int)
    requires Inv(s) && OptionalAt(s, at)
    ensures 0 <= at < |s.order| && Extends(s, DropAt(s, at))
  {
    assert at in s.optional;
    ShiftKeepsInv(s, at);
    var shifted := Shift(s, at);
    forall id | 0 <= id < |s.order| && !Provisional(s, id)
      ensures id < |shifted.order| && shifted.order[id] == s.order[id] && !Provisional(shifted, id)
    {
      assert id < at;
      ShiftProvisional(s, at, id);
    }
    ConsumeEachExtends(shifted, Ascending(set k | k in shifted.tasks && k >= at));
  }

  lemma {:induction false} DropAllExtends(s: State, id: int)
    requires Inv(s)
    ensures Extends(s, DropAll(s, id))
    decreases |s.order|
  {
    if OptionalAt(s, id) {
      DropAtKeepsInv(s, id);
      DropAtExtends(s, id);
      DropAllExtends(DropAt(s, id), id);
    }
  }

  lemma RetireExtends(s: State, e: ScheduleEvent)
    ensures Extends(s, Retire(s, e).0)
  {
    assert forall k :: Provisional(Retire(s, e).0, k) == Provisional(s, k);
  }

  lemma ConfirmTimerExtends(s: State, id: int)
    requires Inv(s)
    ensures Extends(s, ConfirmTimer(s, id))
  {
    var s' := s.(actions := s.actions - {id}, optional := s.optional - {id});
    forall k | Provisional(s', k) ensures Provisional(s, k) {
      var t :| t in s'.optional && t <= k;
      assert t in s.optional;
    }
    assert CoreInv(s');
    ConsumeEachExtends(s', Ascending(s'.tasks.Keys));
    ExtendsTransitive(s, s', ConfirmTimer(s, id));
  }

  lemma OnScheduledExtends(s: State, e: ScheduleEvent)
    requires Inv(s)
    ensures Extends(s, OnScheduled(s, e).0)
  {
    DropAllKeepsInv(s, e.id);
    DropAllExtends(s, e.id);
    match e
    case TaskScheduled(id) => RetireExtends(DropAll(s, id), e);
    case ChildCreated(id) => RetireExtends(DropAll(s, id), e);
    case DetachedCreated(id, _) =>
      if OptionalAt(s, id) { DropAtExtends(s, id); }
      RetireExtends(if OptionalAt(s, id) then DropAt(s, id) else s, e);
    case TimerCreated(id, origin, fireAt) =>
      var s1 := if OptionalTimer(origin, fireAt) then s else DropAll(s, id);
      if Retire(s1, e).1 {
        ConfirmTimerExtends(s1, id);
        ExtendsTransitive(s, s1, OnScheduled(s, e).0);
      }
  }

  lemma {:induction false} ConsumeEachKeepsIssued(s: State, ids: seq<int>)
    ensures ConsumeEach(s, ids).issued == s.issued
  {
    if ids != [] { ConsumeEachKeepsIssued(s, ids[..|ids| - 1]); }
  }

  lemma {:induction false} DropAllKeepsIssued(s: State, id: int)
    requires Inv(s)
    ensures DropAll(s, id).issued == s.issued
    decreases |s.order|
  {
    if OptionalAt(s, id) {
      DropAtKeepsInv(s, id);
      DropAtKeepsIssued(s, id);
      DropAllKeepsIssued(DropAt(s, id), id);
    }
  }

  lemma DropAtKeepsIssued(s: State, at: int)
    requires 0 <= at < |s.order|
    ensures DropAt(s, at).issued == s.issued
  {
    var shifted := Shift(s, at);
    ConsumeEachKeepsIssued(shifted, Ascending(set k | k in shifted.tasks && k >= at));
  }

  lemma ConfirmTimerKeepsIssued(s: State, id: int)
    ensures ConfirmTimer(s, id).issued == s.issued
  {
    var s' := s.(actions := s.actions - {id}, optional := s.optional - {id});
    ConsumeEachKeepsIssued(s', Ascending(s'.tasks.Keys));
  }

  lemma OnTimerKeepsIssued(s: State, e: ScheduleEvent)
    requires Inv(s) && e.TimerCreated?
    ensures OnTimerRecorded(s, e).0.issued == s.issued
  {
    DropAllKeepsIssued(s, e.id);
    ConfirmTimerKeepsIssued(if OptionalTimer(e.origin, e.fireAt) then s else DropAll(s, e.id), e.id);
  }

  lemma OnScheduledKeepsIssued(s: State, e: ScheduleEvent)
    requires Inv(s)
    ensures OnScheduled(s, e).0.issued == s.issued
  {
    match e
    case TimerCreated(_, _, _) => OnTimerKeepsIssued(s, e);
    case DetachedCreated(_, _) => if OptionalAt(s, e.id) { DropAtKeepsIssued(s, e.id); }
    case TaskScheduled(_) => DropAllKeepsIssued(s, e.id);
    case ChildCreated(_) => DropAllKeepsIssued(s, e.id);
  }

  lemma NextExtends(s: State, step: Step)
    requires Inv(s)
    ensures Extends(s, Next(s, step))
  {
    match step
    case Call(w) => ScheduleExtends(s, w);
    case Resolve(r) => DeliverExtends(s, r);
    case Record(e) => OnScheduledExtends(s, e);
    case Withdraw(id) => assert forall k :: Provisional(Discard(s, id), k) == Provisional(s, k);
  }

  /**
   Numbering is stable: once no optional timer at or below a number is outstanding, no later
   schedule, drop or redelivery renumbers it, and no result or resolved key is ever revised.
   */
  lemma {:induction false} NumberingStable(s: State, steps: seq<Step>)
    requires Inv(s)
    ensures Extends(s, Run(s, steps))
    decreases steps
  {
    if steps == [] {
    } else {
      NextKeepsInv(s, steps[0]);
      NextExtends(s, steps[0]);
      NumberingStable(Next(s, steps[0]), steps[1..]);
    }
  }

  /** In every reachable state, what is resolved can be neither dropped, reissued nor resolved again. */
  lemma ResolvedIsFinal(steps: seq<Step>, key: ResolutionKey, later: seq<Step>)
    requires key in Run(INIT, steps).resolved
    ensures var s := Run(INIT, steps); var s' := Run(s, later);
            && 0 <= key.id < s.seqNo
            && (forall t :: t in s.optional ==> key.id < t)
            && (forall other :: other in s.resolved && other.id == key.id ==> other == key)
            && key.id < |s.order| && key.id < |s'.order| && s'.order[key.id] == s.order[key.id]
            && s.order[key.id] in s.outcome && s.order[key.id] in s'.outcome
            && s'.outcome[s.order[key.id]] == s.outcome[s.order[key.id]]
            && key.id !in s'.tasks
            && (forall r: Resolution :: r.KeyOf() == key ==> Deliver(s', r) == s')
  {
    var s := Run(INIT, steps);
    NumberingStable(s, later);
    assert forall t :: t in s.optional && t <= key.id ==> Provisional(s, key.id);
  }

  lemma InitInv()
    ensures Inv(INIT)
  {
  }

  /******* Early and late delivery *******/

  /** A pending action after a delivery: the same, but for the identity of a schedule whose result has come. */
  predicate SameButIdentity(a: Action, b: Action) {
    b == a.(executionId := b.executionId) && (b == a || a.item.work.Activity?)
  }

  /** A matching resolution completes one task and no other; nothing is renumbered. */
  lemma DeliverCompletesOne(s: State, r: Resolution)
    requires CoreInv(s) && Matches(s, r.KeyOf())
    ensures var s', item := Deliver(s, r), s.tasks[r.id];
            && item == s.order[r.id] && s'.order == s.order && s'.seqNo == s.seqNo && s'.buffered == s.buffered
            && s'.tasks == s.tasks - {r.id} && r.KeyOf() in s'.resolved
            && item !in s.outcome && s'.outcome == s.outcome[item := OutcomeOf(r)]
            && s'.actions.Keys == s.actions.Keys
            && (forall k :: k in s.actions ==>
                  SameButIdentity(s.actions[k], s'.actions[k]) && (k != r.id ==> s'.actions[k] == s.actions[k]))
            && (r.id in s.actions && s.actions[r.id].item.work.Activity? ==>
                  s'.actions[r.id].executionId == r.executionId)
  {
  }

  /** A second resolution of the same key changes nothing at all. */
  lemma DuplicateIsNoOp(s: State, r: Resolution, r': Resolution)
    requires Inv(s) && r.KeyOf() == r'.KeyOf()
    ensures Deliver(Deliver(s, r), r') == Deliver(s, r)
  {
    assert forall k :: Provisional(Deliver(s, r), k) == Provisional(s, k);
  }

  lemma DeliverKeepsProvisional(s: State, r: Resolution, k: int)
    ensures Provisional(Deliver(s, r), k) == Provisional(s, k)
  {
  }

  lemma FinishBufferCommute(s: State, r: Resolution, q: Resolution)
    requires r.id in s.tasks && r.KeyOf() != q.KeyOf()
    ensures Finish(Buffer(s, q), r) == Buffer(Finish(s, r), q)
  {
  }

  lemma RestoreRestoreCommute(actions: map<int, Action>, r: Resolution, q: Resolution)
    requires r.id != q.id
    ensures Restore(Restore(actions, q), r) == Restore(Restore(actions, r), q)
  {
  }

  lemma FinishFinishCommute(s: State, r: Resolution, q: Resolution)
    requires r.id in s.tasks && q.id in s.tasks && r.id != q.id && s.tasks[r.id] != s.tasks[q.id]
    ensures Finish(Finish(s, q), r) == Finish(Finish(s, r), q)
  {
    var a, b := Finish(Finish(s, q), r), Finish(Finish(s, r), q);
    assert a.tasks == b.tasks;
    assert a.actions == b.actions by { RestoreRestoreCommute(s.actions, r, q); }
    assert a.outcome == b.outcome;
    assert a.resolved == b.resolved;
  }

  lemma BufferBufferCommute(s: State, r: Resolution, q: Resolution)
    requires r.KeyOf() != q.KeyOf()
    ensures Buffer(Buffer(s, q), r) == Buffer(Buffer(s, r), q)
  {
    if r.KeyOf() !in s.resolved + s.buffered.Keys && q.KeyOf() !in s.resolved + s.buffered.Keys {
      assert s.buffered[q.KeyOf() := q][r.KeyOf() := r] == s.buffered[r.KeyOf() := r][q.KeyOf() := q];
    }
  }

  lemma DeliverKeepsMatches(s: State, r: Resolution, key: ResolutionKey)
    requires r.KeyOf() != key
    ensures Matches(Deliver(s, r), key) == Matches(s, key)
  {
    DeliverKeepsProvisional(s, r, key.id);
  }

  /** Resolutions of different keys can arrive in either order. */
  lemma DeliverDeliverCommute(s: State, r: Resolution, q: Resolution)
    requires TasksDistinct(s) && r.KeyOf() != q.KeyOf()
    ensures Deliver(Deliver(s, r), q) == Deliver(Deliver(s, q), r)
  {
    DeliverKeepsMatches(s, r, q.KeyOf());
    DeliverKeepsMatches(s, q, r.KeyOf());
    if Matches(s, r.KeyOf()) {
      if Matches(s, q.KeyOf()) { FinishFinishCommute(s, r, q); }
      else { FinishBufferCommute(s, r, q); }
    } else {
      if Matches(s, q.KeyOf()) { FinishBufferCommute(s, q, r); }
      else { BufferBufferCommute(s, r, q); }
    }
  }

  lemma RegisterFinishCommute(s: State, w: Work, r: Resolution)
    requires r.id in s.tasks && r.id != s.seqNo
    ensures Finish(Register(s, w), r) == Register(Finish(s, r), w)
  {
    var a, b := Finish(Register(s, w), r), Register(Finish(s, r), w);
    assert a.tasks == b.tasks;
    assert a.actions == b.actions;
  }

  lemma InvCore(s: State)
    requires Inv(s)
    ensures CoreInv(s)
  {
  }

  lemma InvDistinct(s: State)
    requires CoreInv(s)
    ensures TasksDistinct(s) && BufferKeyed(s)
  {
  }

  lemma DeliverUnbuffered(s: State, key: ResolutionKey, r: Resolution)
    requires key != r.KeyOf()
    ensures Deliver(s, r).(buffered := Deliver(s, r).buffered - {key}) == Deliver(s.(buffered := s.buffered - {key}), r)
  {
    var s1 := s.(buffered := s.buffered - {key});
    assert Provisional(s1, r.id) == Provisional(s, r.id);
    assert Matches(s1, r.KeyOf()) == Matches(s, r.KeyOf());
    if !Matches(s, r.KeyOf()) && r.KeyOf() !in s.resolved + s.buffered.Keys {
      assert (s.buffered[r.KeyOf() := r]) - {key} == (s.buffered - {key})[r.KeyOf() := r];
    }
  }

  lemma ConsumeDeliverCommute(s: State, key: ResolutionKey, r: Resolution)
    requires TasksDistinct(s) && BufferKeyed(s) && r.KeyOf() != key
    ensures Deliver(Consume(s, key.kind, key.id), r) == Consume(Deliver(s, r), key.kind, key.id)
  {
    DeliverKeepsProvisional(s, r, key.id);
    if key in s.buffered && !Provisional(s, key.id) {
      var s1 := s.(buffered := s.buffered - {key});
      DeliverUnbuffered(s, key, r);
      DeliverDeliverCommute(s1, r, s.buffered[key]);
    }
  }

  lemma NextIdUnknown(s: State, key: ResolutionKey)
    requires CoreInv(s) && key.id == s.seqNo
    ensures !Matches(s, key) && key !in s.resolved && BufferKeyed(s)
  {
  }

  lemma ScheduleThenDuplicate(s: State, w: Work, r: Resolution)
    requires r.id == s.seqNo && !Provisional(Register(s, w), r.id)
    requires r.KeyOf() in s.buffered && BufferKeyed(s) && !Matches(s, r.KeyOf())
    ensures Deliver(Schedule(s, w), r) == Schedule(s, w)
  {
    var key, reg, next := r.KeyOf(), Register(s, w), Schedule(s, w);
    if HasTask(w) && Key(WorkKind(w), s.seqNo) in s.buffered {
      var own := Key(WorkKind(w), s.seqNo);
      var reg1 := reg.(buffered := reg.buffered - {own});
      assert Matches(reg1, own);
      assert next == Finish(reg1, s.buffered[own]);
      assert !Matches(next, key);
      assert key in next.resolved || key in next.buffered;
    } else {
      assert next == reg;
      assert !Matches(reg, key);
    }
  }

  lemma ScheduleThenResult(s: State, w: Work, r: Resolution)
    requires r.id == s.seqNo && !Provisional(Register(s, w), r.id)
    requires r.KeyOf() !in s.buffered && r.KeyOf() !in s.resolved && !Matches(s, r.KeyOf())
    requires TasksDistinct(Register(s, w)) && BufferKeyed(Register(s, w))
    ensures Deliver(Schedule(s, w), r) == Schedule(Deliver(s, r), w)
  {
    var reg, key, t := Register(s, w), r.KeyOf(), Deliver(s, r);
    assert t == s.(buffered := s.buffered[key := r]);
    assert Register(t, w) == reg.(buffered := reg.buffered[key := r]);
    assert forall k :: Provisional(Register(t, w), k) == Provisional(reg, k);
    if HasTask(w) && WorkKind(w) == key.kind {
      assert Schedule(s, w) == reg;
      assert (reg.buffered[key := r]) - {key} == reg.buffered;
      assert Schedule(t, w) == Deliver(reg, r);
    } else if HasTask(w) {
      assert Deliver(reg, r) == Register(t, w);
      ConsumeDeliverCommute(reg, Key(WorkKind(w), r.id), r);
    }
  }

  lemma ScheduleDeliverSame(s: State, w: Work, r: Resolution)
    requires Inv(s) && r.id == s.seqNo && !Provisional(Register(s, w), r.id)
    ensures Deliver(Schedule(s, w), r) == Schedule(Deliver(s, r), w)
  {
    hide Numbering.CoreInv, Numbering.NoLostWakeUp, Numbering.Schedule, Numbering.Register;
    InvCore(s);
    NextIdUnknown(s, r.KeyOf());
    if r.KeyOf() in s.buffered {
      assert Deliver(s, r) == s;
      ScheduleThenDuplicate(s, w, r);
    } else {
      RegisterKeepsInv(s, w);
      InvDistinct(Register(s, w));
      ScheduleThenResult(s, w, r);
    }
  }
}
