/**
 The non-determinism check (task/orchestrator.go:843-861 and 930-985, task/detached.go): exactly which
 recorded schedules a replay accepts, and what an accepted history says about the work done.
 */
module Determinism {
  import opened Work
  import opened Numbering
  import opened NumberingTheorems
  import opened Alignment

  /** The j numbers from id on are optional timers that history has neither confirmed nor removed. */
  predicate Behind(s: State, id: int, j: nat) {
    forall i :: id <= i < id + j ==> OptionalAt(s, i)
  }

  /** The j numbers from id on are gone, and all later ones have moved down. */
  ghost predicate Dropped(a: Shape, b: Shape, id: int, j: nat) {
    if j == 0 then b == a
    else
      && 0 <= id && id + j <= |a.order| && b.order == a.order[..id] + a.order[id + j..] && b.issued == a.issued
      && (forall k :: k in b.pending <==> (if k < id then k else k + j) in a.pending)
  }

  /******* What a drop leaves in place *******/

  lemma DropAtDropped(s: State, at: int)
    requires Inv(s) && OptionalAt(s, at)
    ensures Dropped(ShapeOf(s), ShapeOf(DropAt(s, at)), at, 1)
  {
    hide Numbering.DropAt, Numbering.Inv, Numbering.OptionalAt;
    DropAtKeepsInv(s, at);
    DropAtShape(s, at);
    forall k ensures k in ShiftKeys(s.actions.Keys, at) <==> UnshiftedId(at, k) in s.actions.Keys {
      ShiftKeysMember(s.actions.Keys, at, k);
    }
  }

  lemma DroppedTwice(a: Shape, b: Shape, c: Shape, id: int, j: nat)
    requires Dropped(a, b, id, 1) && Dropped(b, c, id, j)
    ensures Dropped(a, c, id, j + 1)
  {
    if j > 0 {
      assert b.order[..id] == a.order[..id];
      assert b.order[id + j..] == a.order[id + j + 1..];
    }
  }

  lemma {:induction false} OptionalMoved(s: State, t: State, id: int, i: int)
    requires Inv(s) && Inv(t) && Dropped(ShapeOf(s), ShapeOf(t), id, 1) && id <= i
    ensures OptionalAt(t, i) <==> OptionalAt(s, i + 1)
  {
    PendingItem(s, i + 1);
    PendingItem(t, i);
    hide Numbering.Inv, Numbering.OptionalAt;
    assert i in t.actions <==> i + 1 in s.actions;
    assert 0 <= id <= i < |t.order| ==> t.order[i] == s.order[i + 1];
  }

  /** The drop loop removes all outstanding optional timers from id on, up to the first other number. */
  lemma {:induction false} DropAllDropped(s: State, id: int) returns (j: nat)
    requires Inv(s)
    ensures Inv(DropAll(s, id)) && Behind(s, id, j) && !OptionalAt(s, id + j)
    ensures Dropped(ShapeOf(s), ShapeOf(DropAll(s, id)), id, j)
    decreases |s.order|
  {
    hide Numbering.DropAt, Numbering.Inv, Dropped, Numbering.OptionalAt;
    DropAllKeepsInv(s, id);
    if OptionalAt(s, id) {
      DropAtKeepsInv(s, id);
      DropAtDropped(s, id);
      var t := DropAt(s, id);
      var n := DropAllDropped(t, id);
      j := n + 1;
      DroppedTwice(ShapeOf(s), ShapeOf(t), ShapeOf(DropAll(t, id)), id, n);
      forall i | id <= i ensures OptionalAt(t, i) <==> OptionalAt(s, i + 1) { OptionalMoved(s, t, id, i); }
      forall i | id <= i < id + j ensures OptionalAt(s, i) {
        if i > id { assert OptionalAt(t, i - 1); }
      }
      assert !OptionalAt(t, id + n);
    } else {
      j := 0;
      assert Dropped(ShapeOf(s), ShapeOf(s), id, 0) by { NothingDropped(ShapeOf(s), id); }
    }
  }

  lemma NothingDropped(a: Shape, id: int)
    ensures Dropped(a, a, id, 0)
  {
  }

  /** What is now pending under id is what was pending behind the dropped timers. */
  lemma {:induction false} FoundBehind(s: State, t: State, id: int, j: nat)
    requires Inv(s) && Inv(t) && Dropped(ShapeOf(s), ShapeOf(t), id, j)
    ensures id in t.actions <==> id + j in s.actions
    ensures id in t.actions ==>
      && 0 <= id < |t.order| && id + j < |s.order|
      && t.order[id] == s.order[id + j] && t.actions[id].item == s.actions[id + j].item
  {
    PendingItem(s, id + j);
    PendingItem(t, id);
    hide Numbering.Inv;
    if j > 0 && id in t.actions { assert t.order[id] == s.order[id + j]; }
  }

  /******* Which recorded schedules are accepted *******/

  /** The action that a recorded schedule meets behind j dropped timers. */
  predicate Meets(s: State, id: int, j: nat) {
    Behind(s, id, j) && id + j in s.actions
  }

  function Met(s: State, id: int, j: nat): Work
    requires Meets(s, id, j)
  {
    s.actions[id + j].item.work
  }

  /** What follows the outstanding optional timers is unique. */
  lemma UpTo(s: State, id: int, j: nat, n: nat)
    requires Behind(s, id, j) && !OptionalAt(s, id + j) && Behind(s, id, n) && !OptionalAt(s, id + n)
    ensures j == n
  {
    assert j >= n || OptionalAt(s, id + j);
    assert n >= j || OptionalAt(s, id + n);
  }

  lemma {:induction false} WorkAcceptedIff(s: State, e: ScheduleEvent)
    requires Inv(s) && (e.TaskScheduled? || e.ChildCreated?)
    ensures OnWorkRecorded(s, e).1 <==>
            exists j: nat ::
              Meets(s, e.id, j) && (if e.TaskScheduled? then Met(s, e.id, j).Activity? else Met(s, e.id, j).Child?)
  {
    hide Numbering.DropAll, Numbering.Inv, Dropped, Behind;
    var n := DropAllDropped(s, e.id);
    FoundBehind(s, DropAll(s, e.id), e.id, n);
    if OnWorkRecorded(s, e).1 { assert Meets(s, e.id, n); }
    forall j: nat | Meets(s, e.id, j) && (Met(s, e.id, j).Activity? || Met(s, e.id, j).Child?) ensures j == n {
      UpTo(s, e.id, j, n);
    }
  }

  lemma {:induction false} TimerAcceptedIff(s: State, e: ScheduleEvent)
    requires Inv(s) && e.TimerCreated? && !OptionalTimer(e.origin, e.fireAt)
    ensures OnTimerRecorded(s, e).1 <==>
            exists j: nat :: Meets(s, e.id, j) && Met(s, e.id, j).Timer? && !IsOptional(Met(s, e.id, j))
  {
    hide Numbering.DropAll, Numbering.Inv, Dropped, Behind, Numbering.ConfirmTimer;
    var n := DropAllDropped(s, e.id);
    FoundBehind(s, DropAll(s, e.id), e.id, n);
    if OnTimerRecorded(s, e).1 { assert Meets(s, e.id, n); }
    forall j: nat | Meets(s, e.id, j) && !IsOptional(Met(s, e.id, j)) ensures j == n { UpTo(s, e.id, j, n); }
  }

  lemma {:induction false} DetachedAcceptedIff(s: State, e: ScheduleEvent)
    requires Inv(s) && e.DetachedCreated?
    ensures OnDetachedRecorded(s, e).1 <==>
            exists j: nat :: j <= 1 && Meets(s, e.id, j) && Met(s, e.id, j) == Detached(e.instanceId)
  {
    hide Numbering.DropAt, Numbering.Inv, Dropped;
    if OptionalAt(s, e.id) {
      DropAtKeepsInv(s, e.id);
      DropAtDropped(s, e.id);
      FoundBehind(s, DropAt(s, e.id), e.id, 1);
      if OnDetachedRecorded(s, e).1 { assert Meets(s, e.id, 1); }
    } else {
      if OnDetachedRecorded(s, e).1 { assert Meets(s, e.id, 0); }
      assert forall j: nat :: Meets(s, e.id, j) && j > 0 ==> OptionalAt(s, e.id);
    }
  }

  /**
   A recorded schedule is accepted if and only if the work behind the optional timers it may drop is still
   pending and of the recorded kind: an activity, a child, a timer of its sort, or a detached workflow of the
   recorded instance behind at most one such timer. A recorded optional timer drops none.
   */
  lemma {:induction false} RecordAcceptedIff(s: State, e: ScheduleEvent)
    requires Inv(s)
    ensures var ok := OnScheduled(s, e).1;
            match e
            case TaskScheduled(id) => ok <==> exists j: nat :: Meets(s, id, j) && Met(s, id, j).Activity?
            case ChildCreated(id) => ok <==> exists j: nat :: Meets(s, id, j) && Met(s, id, j).Child?
            case TimerCreated(id, origin, fireAt) =>
              if OptionalTimer(origin, fireAt) then ok <==> Meets(s, id, 0) && Met(s, id, 0).Timer?
              else ok <==> exists j: nat :: Meets(s, id, j) && Met(s, id, j).Timer? && !IsOptional(Met(s, id, j))
            case DetachedCreated(id, instanceId) =>
              ok <==> exists j: nat :: j <= 1 && Meets(s, id, j) && Met(s, id, j) == Detached(instanceId)
  {
    hide Numbering.OnWorkRecorded, Numbering.OnDetachedRecorded, Numbering.Inv, Numbering.ConfirmTimer;
    match e
    case TaskScheduled(_) => WorkAcceptedIff(s, e);
    case ChildCreated(_) => WorkAcceptedIff(s, e);
    case TimerCreated(_, origin, fireAt) => if !OptionalTimer(origin, fireAt) { TimerAcceptedIff(s, e); }
    case DetachedCreated(_, _) => DetachedAcceptedIff(s, e);
  }

  /******* What an accepted schedule leaves *******/

  lemma RetireShape(s: State, e: ScheduleEvent)
    ensures var (s', ok) := Retire(s, e);
            && ShapeOf(s') == (if ok then ShapeOf(s).(pending := s.actions.Keys - {e.id}) else ShapeOf(s))
            && (ok ==> e.id in s.actions && Retires(e, s.actions[e.id].item.work))
  {
  }

  /** The state in which the handler looks for the recorded work. */
  lemma {:induction false} RecordDrops(s: State, e: ScheduleEvent) returns (t: State, j: nat)
    requires Inv(s)
    ensures Inv(t) && Dropped(ShapeOf(s), ShapeOf(t), e.id, j)
    ensures OnScheduled(s, e).1 == Retire(t, e).1
    ensures ShapeOf(OnScheduled(s, e).0) == ShapeOf(Retire(t, e).0)
  {
    hide Numbering.DropAll, Numbering.DropAt, Numbering.Inv, Dropped, Numbering.ConfirmTimer, Numbering.Retire;
    t, j := s, 0;
    NothingDropped(ShapeOf(s), e.id);
    if e.DetachedCreated? {
      if OptionalAt(s, e.id) {
        DropAtKeepsInv(s, e.id);
        DropAtDropped(s, e.id);
        t, j := DropAt(s, e.id), 1;
      }
    } else if !(e.TimerCreated? && OptionalTimer(e.origin, e.fireAt)) {
      j := DropAllDropped(s, e.id);
      t := DropAll(s, e.id);
    }
    if e.TimerCreated? {
      ConfirmShape(t, e.id);
      RetireShape(t, e);
    }
  }

  /** Numbers below a recorded one keep their work and stay pending or not. */
  lemma {:induction false} BelowStays(s: State, e: ScheduleEvent, k: nat)
    requires Inv(s) && k < e.id && k < |s.order|
    ensures var s' := OnScheduled(s, e).0;
            k < |s'.order| && s'.order[k] == s.order[k] && (k in s'.actions <==> k in s.actions)
  {
    hide Numbering.OnScheduled, Numbering.Inv, Numbering.Retire;
    var t, j := RecordDrops(s, e);
    RetireShape(t, e);
    assert ShapeOf(t).pending == t.actions.Keys && ShapeOf(s).pending == s.actions.Keys;
    assert ShapeOf(OnScheduled(s, e).0).pending == OnScheduled(s, e).0.actions.Keys;
  }

  /** The work is of the recorded kind. */
  predicate OfKind(e: ScheduleEvent, w: Work) {
    && (e.TaskScheduled? ==> w.Activity?)
    && (e.ChildCreated? ==> w.Child?)
    && (e.TimerCreated? ==> w.Timer?)
    && (e.DetachedCreated? ==> w == Detached(e.instanceId))
  }

  lemma {:induction false} AcceptedIsOfKind(s: State, e: ScheduleEvent)
    requires Inv(s) && OnScheduled(s, e).1
    ensures var s' := OnScheduled(s, e).0;
            0 <= e.id < |s'.order| && OfKind(e, s'.order[e.id].work) && e.id !in s'.actions
  {
    hide Numbering.OnScheduled, Numbering.Inv, Numbering.Retire, Dropped;
    var t, j := RecordDrops(s, e);
    RetireShape(t, e);
    PendingItem(t, e.id);
    assert ShapeOf(OnScheduled(s, e).0).pending == OnScheduled(s, e).0.actions.Keys;
  }

  /******* Whole runs *******/

  /** Every recorded schedule of the run is accepted. */
  ghost predicate AllAccepted(s: State, steps: seq<Step>)
    requires Inv(s)
    decreases steps
  {
    steps == [] ||
    (NextKeepsInv(s, steps[0]);
     (steps[0].Record? ==> OnScheduled(s, steps[0].e).1) && AllAccepted(Next(s, steps[0]), steps[1..]))
  }

  /** A retired number keeps its work for good while only higher numbers are recorded. */
  lemma {:induction false} RetiredStays(s: State, step: Step, k: nat)
    requires Inv(s) && k < |s.order| && k !in s.actions && (step.Record? ==> k < step.e.id)
    ensures var s' := Next(s, step); k < |s'.order| && s'.order[k] == s.order[k] && k !in s'.actions
  {
    hide Numbering.OnScheduled, Numbering.Schedule, Numbering.Deliver;
    assert ShapeOf(s).pending == s.actions.Keys && ShapeOf(Next(s, step)).pending == Next(s, step).actions.Keys;
    match step
    case Call(w) => ScheduleShape(s, w);
    case Resolve(r) => DeliverShape(s, r);
    case Record(e) => BelowStays(s, e, k);
    case Withdraw(_) =>
  }

  lemma {:induction false} RetiredStaysOver(s: State, steps: seq<Step>, k: nat)
    requires Inv(s) && k < |s.order| && k !in s.actions
    requires forall i :: 0 <= i < |steps| && steps[i].Record? ==> k < steps[i].e.id
    ensures var s' := Run(s, steps); k < |s'.order| && s'.order[k] == s.order[k] && k !in s'.actions
    decreases steps
  {
    hide Next, Numbering.Inv;
    if steps != [] {
      NextKeepsInv(s, steps[0]);
      RetiredStays(s, steps[0], k);
      RetiredStaysOver(Next(s, steps[0]), steps[1..], k);
    }
  }

  /**
   An accepted history is the workflow's own: if every recorded schedule of a run is accepted, then each
   recorded number that no later record precedes holds, to the end, work of the recorded kind that is no
   longer pending.
   */
  lemma {:induction false} AcceptedHistoryIsOwn(s: State, steps: seq<Step>, i: nat)
    requires Inv(s) && AllAccepted(s, steps) && i < |steps| && steps[i].Record?
    requires forall j :: i < j < |steps| && steps[j].Record? ==> steps[i].e.id < steps[j].e.id
    ensures var s', e := Run(s, steps), steps[i].e;
            0 <= e.id < |s'.order| && e.id !in s'.actions && OfKind(e, s'.order[e.id].work)
    decreases steps
  {
    hide Next, Numbering.Inv;
    NextKeepsInv(s, steps[0]);
    if i == 0 {
      AcceptedIsOfKind(s, steps[0].e);
      RecordStep(s, steps[0]);
      RetiredStaysOver(Next(s, steps[0]), steps[1..], steps[0].e.id);
    } else {
      AcceptedHistoryIsOwn(Next(s, steps[0]), steps[1..], i - 1);
    }
  }

  lemma RecordStep(s: State, step: Step)
    requires Inv(s) && step.Record?
    ensures Next(s, step) == OnScheduled(s, step.e).0
  {
  }
}
