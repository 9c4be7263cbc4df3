/**
 Sequence numbers, pending work and resolutions of one replay (task/orchestrator.go).

 The state is a value and every handler a function on it; WorkflowContext.dfy proves the
 engine's in-place methods against these functions. The field order is a history variable:
 order[i] is the work currently numbered i, so dropping a number removes one position.
 */
module Numbering {
  import opened Work

  datatype State = State(
    order: seq<Item>,
    seqNo: int,
    issued: nat,
    actions: map<int, Action>,
    tasks: map<int, Item>,
    optional: set<int>,
    buffered: map<ResolutionKey, Resolution>,
    resolved: set<ResolutionKey>,
    outcome: map<Item, Outcome>)

  const INIT := State([], 0, 0, map[], map[], {}, map[], {}, map[])

  /******* Handlers *******/

  /** Some optional timer at or below id is neither confirmed nor removed by history. */
  predicate Provisional(s: State, id: int) {
    exists t :: t in s.optional && t <= id
  }

  /** A resolution completes only a pending task of its own kind under a settled number. */
  predicate Matches(s: State, key: ResolutionKey) {
    key.id in s.tasks && HasTask(s.tasks[key.id].work) &&
    WorkKind(s.tasks[key.id].work) == key.kind && !Provisional(s, key.id)
  }

  /** The schedule re-emitted after an early result carries the identity that result recorded. */
  function Restore(actions: map<int, Action>, r: Resolution): map<int, Action> {
    if (r.TaskCompleted? || r.TaskFailed?) && r.id in actions && actions[r.id].item.work.Activity? then
      actions[r.id := actions[r.id].(executionId := r.executionId)]
    else
      actions
  }

  function Finish(s: State, r: Resolution): State
    requires r.id in s.tasks
  {
    s.(tasks := s.tasks - {r.id},
       resolved := s.resolved + {r.KeyOf()},
       actions := Restore(s.actions, r),
       outcome := s.outcome[s.tasks[r.id] := OutcomeOf(r)])
  }

  function Buffer(s: State, r: Resolution): State {
    if r.KeyOf() in s.resolved || r.KeyOf() in s.buffered then s
    else s.(buffered := s.buffered[r.KeyOf() := r])
  }

  function Deliver(s: State, r: Resolution): State {
    if Matches(s, r.KeyOf()) then Finish(s, r) else Buffer(s, r)
  }

  /** Redelivers the resolution buffered for (kind, id), unless the id is still provisional. */
  function Consume(s: State, kind: Kind, id: int): State {
    var key := Key(kind, id);
    if key !in s.buffered || Provisional(s, id) then s
    else Deliver(s.(buffered := s.buffered - {key}), s.buffered[key])
  }

  function ConsumeAt(s: State, id: int): State {
    if id in s.tasks && HasTask(s.tasks[id].work) then Consume(s, WorkKind(s.tasks[id].work), id) else s
  }

  function ConsumeEach(s: State, ids: seq<int>): State {
    if ids == [] then s
    else ConsumeAt(ConsumeEach(s, ids[..|ids| - 1]), ids[|ids| - 1])
  }

  /** Allocates the next number to w and registers its action and task. */
  function Register(s: State, w: Work): State {
    var id := s.seqNo;
    var item := Item(s.issued, w);
    s.(order := s.order + [item], seqNo := id + 1, issued := s.issued + 1,
       actions := s.actions[id := Action(id, item, "")],
       tasks := if HasTask(w) then s.tasks[id := item] else s.tasks,
       optional := if IsOptional(w) then s.optional + {id} else s.optional)
  }

  function Schedule(s: State, w: Work): State {
    if HasTask(w) then Consume(Register(s, w), WorkKind(w), s.seqNo) else Register(s, w)
  }

  function ShiftedId(at: int, id: int): int {
    if id > at then id - 1 else id
  }

  function UnshiftedId(at: int, id: int): int {
    if id >= at then id + 1 else id
  }

  function ShiftKeys(keys: set<int>, at: int): set<int> {
    set k | k in keys && k != at :: ShiftedId(at, k)
  }

  function ShiftMap<T>(m: map<int, T>, at: int): (r: map<int, T>)
    ensures forall k :: k in r <==> UnshiftedId(at, k) in m
    ensures forall k :: k in r ==> r[k] == m[UnshiftedId(at, k)]
  {
    assert forall k :: k in ShiftKeys(m.Keys, at) <==> UnshiftedId(at, k) in m by {
      forall k | UnshiftedId(at, k) in m ensures k in ShiftKeys(m.Keys, at) {
        assert ShiftedId(at, UnshiftedId(at, k)) == k;
      }
    }
    map k | k in ShiftKeys(m.Keys, at) :: m[UnshiftedId(at, k)]
  }

  function Renumber(m: map<int, Action>): map<int, Action> {
    map k | k in m :: m[k].(id := k)
  }

  function Without<T>(q: seq<T>, at: int): seq<T>
    requires 0 <= at < |q|
  {
    q[..at] + q[at + 1..]
  }

  /** Removes number at and moves every later number down by one, without redelivering anything. */
  function Shift(s: State, at: int): State
    requires 0 <= at < |s.order|
  {
    s.(order := Without(s.order, at),
       seqNo := s.seqNo - 1,
       actions := Renumber(ShiftMap(s.actions, at)),
       tasks := ShiftMap(s.tasks, at),
       optional := ShiftKeys(s.optional, at))
  }

  predicate OptionalAt(s: State, id: int) {
    id in s.actions && IsOptional(s.actions[id].item.work)
  }

  function DropAt(s: State, at: int): State
    requires 0 <= at < |s.order|
  {
    var shifted := Shift(s, at);
    ConsumeEach(shifted, Ascending(set k | k in shifted.tasks && k >= at))
  }

  /** Drops optional timers at id until the work there is not an optional timer. */
  function DropAll(s: State, id: int): State
    requires Inv(s)
    decreases |s.order|
  {
    if OptionalAt(s, id) then
      DropAtKeepsInv(s, id);
      DropAll(DropAt(s, id), id)
    else s
  }

  function Retire(s: State, e: ScheduleEvent): (State, bool) {
    if e.id in s.actions && Retires(e, s.actions[e.id].item.work)
    then (s.(actions := s.actions - {e.id}), true)
    else (s, false)
  }

  /** Activities and children: drops optional timers until the recorded number holds other work. */
  function OnWorkRecorded(s: State, e: ScheduleEvent): (State, bool)
    requires Inv(s)
  {
    Retire(DropAll(s, e.id), e)
  }

  /** Detached workflows: drops at most one optional timer. */
  function OnDetachedRecorded(s: State, e: ScheduleEvent): (State, bool)
    requires Inv(s)
  {
    Retire(if OptionalAt(s, e.id) then DropAt(s, e.id) else s, e)
  }

  /** Timers: drops optional timers unless the recorded timer is one itself. */
  function OnTimerRecorded(s: State, e: ScheduleEvent): (State, bool)
    requires Inv(s) && e.TimerCreated?
  {
    var s1 := if OptionalTimer(e.origin, e.fireAt) then s else DropAll(s, e.id);
    if Retire(s1, e).1 then (ConfirmTimer(s1, e.id), true) else (s1, false)
  }

  /** Matches a recorded schedule with the pending action under its number. */
  function OnScheduled(s: State, e: ScheduleEvent): (State, bool)
    requires Inv(s)
  {
    match e
    case TaskScheduled(_) => OnWorkRecorded(s, e)
    case ChildCreated(_) => OnWorkRecorded(s, e)
    case DetachedCreated(_, _) => OnDetachedRecorded(s, e)
    case TimerCreated(_, _, _) => OnTimerRecorded(s, e)
  }

  /** Retires a recorded timer, which is then no longer optional, and redelivers to the numbers this settles. */
  function ConfirmTimer(s: State, id: int): State {
    var s' := s.(actions := s.actions - {id}, optional := s.optional - {id});
    ConsumeEach(s', Ascending(s'.tasks.Keys))
  }

  /******* Ascending enumeration of a set of numbers *******/

  ghost predicate Sorted(q: seq<int>) {
    forall i, j :: 0 <= i < j < |q| ==> q[i] < q[j]
  }

  lemma {:induction false} MaxExists(s: set<int>)
    requires s != {}
    ensures exists m :: m in s && forall x :: x in s ==> x <= m
  {
    var a := Member(s);
    var rest := s - {a};
    if rest == {} {
      assert s == {a};
    } else {
      MaxExists(rest);
      var b :| b in rest && forall x :: x in rest ==> x <= b;
      var m := if a > b then a else b;
      forall x | x in s ensures x <= m {
        assert x == a || x in rest;
      }
      assert m in s;
    }
  }

  function Max(s: set<int>): (m: int)
    requires s != {}
    ensures m in s && forall x :: x in s ==> x <= m
  {
    MaxExists(s);
    var m :| m in s && forall x :: x in s ==> x <= m;
    m
  }

  function Ascending(s: set<int>): (q: seq<int>)
    ensures Sorted(q)
    ensures forall x :: x in q <==> x in s
  {
    if s == {} then []
    else
      var m := Max(s);
      Ascending(s - {m}) + [m]
  }

  /******* Invariant *******/

  ghost predicate Numbered(s: State) {
    && s.seqNo == |s.order|
    && (forall i, j :: 0 <= i < j < |s.order| ==> s.order[i] != s.order[j])
    && (forall i :: 0 <= i < |s.order| ==> s.order[i].n < s.issued)
  }

  ghost predicate ActionsNumbered(s: State) {
    && (forall k :: k in s.actions ==> 0 <= k < |s.order| && s.actions[k].id == k && s.actions[k].item == s.order[k])
    && (forall k :: k in s.optional <==> OptionalAt(s, k))
  }

  ghost predicate TasksNumbered(s: State) {
    && (forall k :: k in s.tasks ==>
          0 <= k < |s.order| && s.tasks[k] == s.order[k] && HasTask(s.order[k].work) && s.order[k] !in s.outcome)
    && (forall item :: item in s.outcome ==> item.n < s.issued)
    && (forall k :: k in s.optional ==> k in s.tasks)
  }

  /** Every resolved number is below every outstanding optional timer, and its task is gone for good. */
  ghost predicate ResolvedSettled(s: State) {
    forall key :: key in s.resolved ==>
      && 0 <= key.id < |s.order|
      && key.id !in s.tasks
      && HasTask(s.order[key.id].work) && WorkKind(s.order[key.id].work) == key.kind
      && s.order[key.id] in s.outcome
      && !Provisional(s, key.id)
  }

  ghost predicate BufferKeyed(s: State) {
    forall key :: key in s.buffered ==> key !in s.resolved && s.buffered[key].KeyOf() == key
  }

  ghost predicate TasksDistinct(s: State) {
    forall i, j :: i in s.tasks && j in s.tasks && i != j ==> s.tasks[i] != s.tasks[j]
  }

  ghost predicate CoreInv(s: State) {
    Numbered(s) && ActionsNumbered(s) && TasksNumbered(s) && ResolvedSettled(s) && BufferKeyed(s)
  }

  /** No buffered resolution matches a pending task, except possibly at the given ids. */
  ghost predicate NoLostWakeUp(s: State, except: set<int>) {
    forall key :: key in s.buffered && key.id !in except ==> !Matches(s, key)
  }

  ghost predicate Inv(s: State) {
    CoreInv(s) && NoLostWakeUp(s, {})
  }

  /******* Every handler keeps the invariant *******/

  lemma FinishKeepsInv(s: State, r: Resolution)
    requires CoreInv(s) && Matches(s, r.KeyOf()) && r.KeyOf() !in s.buffered
    ensures CoreInv(Finish(s, r))
  {
    var s' := Finish(s, r);
    assert forall id :: Provisional(s', id) == Provisional(s, id);
    assert forall k :: k in s'.actions <==> k in s.actions;
    assert forall k :: k in s'.actions ==>
      s'.actions[k].item == s.actions[k].item && s'.actions[k].id == s.actions[k].id;
    forall k | k in s'.optional ensures k in s'.tasks {
      assert k != r.id by { assert !Provisional(s, r.id); }
    }
  }

  lemma BufferKeepsInv(s: State, r: Resolution)
    requires CoreInv(s) && !Matches(s, r.KeyOf())
    ensures CoreInv(Buffer(s, r))
  {
    assert forall id :: Provisional(Buffer(s, r), id) == Provisional(s, id);
  }

  /** Delivery keeps the invariant: it finishes the one matching task or holds the resolution back. */
  lemma DeliverKeepsInv(s: State, r: Resolution)
    requires Inv(s)
    ensures Inv(Deliver(s, r))
  {
    var s' := Deliver(s, r);
    assert forall id :: Provisional(s', id) == Provisional(s, id);
    if Matches(s, r.KeyOf()) {
      FinishKeepsInv(s, r);
    } else {
      BufferKeepsInv(s, r);
    }
    forall key | key in s'.buffered ensures !Matches(s', key) {
      assert key in s.buffered ==> !Matches(s, key);
    }
  }

  lemma ConsumeAtKeepsInv(s: State, id: int, except: set<int>)
    requires CoreInv(s) && NoLostWakeUp(s, except)
    ensures CoreInv(ConsumeAt(s, id)) && NoLostWakeUp(ConsumeAt(s, id), except - {id})
    ensures ConsumeAt(s, id).optional == s.optional && ConsumeAt(s, id).order == s.order
    ensures ConsumeAt(s, id).tasks.Keys <= s.tasks.Keys
  {
    var s' := ConsumeAt(s, id);
    if s' != s {
      var key := Key(WorkKind(s.tasks[id].work), id);
      var r := s.buffered[key];
      var s1 := s.(buffered := s.buffered - {key});
      assert forall i :: Provisional(s1, i) == Provisional(s, i);
      assert Matches(s1, key);
      FinishKeepsInv(s1, r);
      assert forall i :: Provisional(s', i) == Provisional(s, i);
      forall k | k in s'.buffered && k.id !in except - {id} ensures !Matches(s', k) {
        if k.id != id { assert !Matches(s, k); }
      }
    }
  }

  lemma {:induction false} ConsumeEachKeepsInv(s: State, ids: seq<int>, except: set<int>)
    requires CoreInv(s) && NoLostWakeUp(s, except)
    ensures CoreInv(ConsumeEach(s, ids))
    ensures NoLostWakeUp(ConsumeEach(s, ids), except - set id | id in ids)
    ensures ConsumeEach(s, ids).optional == s.optional && ConsumeEach(s, ids).order == s.order
    ensures ConsumeEach(s, ids).tasks.Keys <= s.tasks.Keys
  {
    if ids == [] {
    } else {
      var front := ids[..|ids| - 1];
      ConsumeEachKeepsInv(s, front, except);
      ConsumeAtKeepsInv(ConsumeEach(s, front), ids[|ids| - 1], except - set id | id in front);
      assert ids == front + [ids[|ids| - 1]];
      assert (except - set id | id in front) - {ids[|ids| - 1]} == except - set id | id in ids;
    }
  }

  lemma RegisterKeepsInv(s: State, w: Work)
    requires Inv(s)
    ensures CoreInv(Register(s, w)) && NoLostWakeUp(Register(s, w), {s.seqNo})
    ensures forall k :: k < s.seqNo ==> Provisional(Register(s, w), k) == Provisional(s, k)
  {
    var s' := Register(s, w);
    assert forall k :: k < s.seqNo && k in s'.optional ==> k in s.optional;
    forall k | k < s.seqNo ensures Provisional(s', k) == Provisional(s, k) {
      if Provisional(s, k) {
        var t :| t in s.optional && t <= k;
        assert t in s'.optional;
      }
    }
    assert Numbered(s');
    assert ActionsNumbered(s') by {
      forall k ensures k in s'.optional <==> OptionalAt(s', k) {
        assert k in s.optional <==> OptionalAt(s, k);
      }
    }
    assert TasksNumbered(s');
    assert ResolvedSettled(s') by {
      forall key | key in s'.resolved ensures !Provisional(s', key.id) {
        assert !Provisional(s, key.id);
      }
    }
    forall key | key in s'.buffered && key.id !in {s.seqNo} ensures !Matches(s', key) {
      assert !Matches(s, key);
    }
  }

  lemma ScheduleKeepsInv(s: State, w: Work)
    requires Inv(s)
    ensures Inv(Schedule(s, w))
  {
    RegisterKeepsInv(s, w);
    if HasTask(w) {
      assert Schedule(s, w) == ConsumeAt(Register(s, w), s.seqNo);
      ConsumeAtKeepsInv(Register(s, w), s.seqNo, {s.seqNo});
    } else {
      assert forall key: ResolutionKey :: key.id == s.seqNo ==> !Matches(Register(s, w), key);
    }
  }

  lemma WithoutKeepsNumbers(q: seq<Item>, at: int, issued: nat)
    requires 0 <= at < |q|
    requires forall i, j :: 0 <= i < j < |q| ==> q[i] != q[j]
    requires forall i :: 0 <= i < |q| ==> q[i].n < issued
    ensures |Without(q, at)| == |q| - 1
    ensures forall k :: 0 <= k < |q| - 1 ==> Without(q, at)[k] == q[UnshiftedId(at, k)]
    ensures forall i, j :: 0 <= i < j < |q| - 1 ==> Without(q, at)[i] != Without(q, at)[j]
    ensures forall i :: 0 <= i < |q| - 1 ==> Without(q, at)[i].n < issued
  {
    forall i, j | 0 <= i < j < |q| - 1 ensures Without(q, at)[i] != Without(q, at)[j] {
      assert UnshiftedId(at, i) < UnshiftedId(at, j);
    }
  }

  lemma ShiftKeysMember(keys: set<int>, at: int, k: int)
    ensures k in ShiftKeys(keys, at) <==> UnshiftedId(at, k) in keys
  {
    if UnshiftedId(at, k) in keys {
      assert ShiftedId(at, UnshiftedId(at, k)) == k;
    }
  }

  lemma ShiftProvisional(s: State, at: int, id: int)
    requires 0 <= at < |s.order| && id < at
    ensures Provisional(Shift(s, at), id) == Provisional(s, id)
  {
    var s' := Shift(s, at);
    if Provisional(s, id) {
      var t :| t in s.optional && t <= id;
      ShiftKeysMember(s.optional, at, t);
      assert t in s'.optional;
    }
    if Provisional(s', id) {
      var t :| t in s'.optional && t <= id;
      ShiftKeysMember(s.optional, at, t);
      assert t in s.optional;
    }
  }

  lemma {:induction false} ShiftKeepsActions(s: State, at: int)
    requires CoreInv(s) && at in s.optional && 0 <= at < |s.order|
    ensures Numbered(Shift(s, at)) && ActionsNumbered(Shift(s, at))
  {
    hide ShiftMap;
    var s' := Shift(s, at);
    WithoutKeepsNumbers(s.order, at, s.issued);
    forall k | k in s'.actions ensures 0 <= k < |s'.order| && s'.actions[k].item == s'.order[k] {
      assert UnshiftedId(at, k) in s.actions;
    }
    forall k ensures k in s'.optional <==> OptionalAt(s', k) {
      ShiftKeysMember(s.optional, at, k);
      assert UnshiftedId(at, k) in s.optional <==> OptionalAt(s, UnshiftedId(at, k));
    }
  }

  lemma {:induction false} ShiftKeepsTasks(s: State, at: int)
    requires CoreInv(s) && at in s.optional && 0 <= at < |s.order|
    ensures TasksNumbered(Shift(s, at))
  {
    hide ShiftMap, Renumber, ActionsNumbered, ResolvedSettled, BufferKeyed;
    var s' := Shift(s, at);
    WithoutKeepsNumbers(s.order, at, s.issued);
    forall k | k in s'.tasks
      ensures 0 <= k < |s'.order| && s'.tasks[k] == s'.order[k] && HasTask(s'.order[k].work) &&
        s'.order[k] !in s'.outcome
    {
      assert UnshiftedId(at, k) in s.tasks;
    }
    forall k | k in s'.optional ensures k in s'.tasks {
      ShiftKeysMember(s.optional, at, k);
    }
  }

  lemma {:induction false} ShiftKeepsResolved(s: State, at: int)
    requires CoreInv(s) && at in s.optional && 0 <= at < |s.order|
    ensures ResolvedSettled(Shift(s, at))
  {
    hide ShiftMap, Renumber, ActionsNumbered, TasksNumbered, BufferKeyed;
    var s' := Shift(s, at);
    WithoutKeepsNumbers(s.order, at, s.issued);
    forall key | key in s.resolved
      ensures key.id < at && key.id !in s'.tasks && !Provisional(s', key.id) && s'.order[key.id] == s.order[key.id]
    {
      assert !Provisional(s, key.id);
      assert UnshiftedId(at, key.id) == key.id;
      ShiftProvisional(s, at, key.id);
    }
  }

  /** Only the moved tasks may have a result waiting for them. */
  lemma {:induction false} ShiftWakeUps(s: State, at: int, key: ResolutionKey)
    requires Inv(s) && 0 <= at < |s.order| && key in s.buffered && key.id < at
    ensures !Matches(Shift(s, at), key)
  {
    hide ShiftMap, CoreInv;
    assert !Matches(s, key);
    assert UnshiftedId(at, key.id) == key.id;
    ShiftProvisional(s, at, key.id);
  }

  lemma {:induction false} ShiftKeepsInv(s: State, at: int)
    requires Inv(s) && at in s.optional
    ensures 0 <= at < |s.order|
    ensures CoreInv(Shift(s, at))
    ensures NoLostWakeUp(Shift(s, at), set k | k in Shift(s, at).tasks && k >= at)
  {
    hide Numbered, TasksNumbered, ResolvedSettled, ShiftMap;
    assert OptionalAt(s, at);
    ShiftKeepsActions(s, at);
    ShiftKeepsTasks(s, at);
    ShiftKeepsResolved(s, at);
    var s' := Shift(s, at);
    forall key | key in s'.buffered && key.id !in (set k | k in s'.tasks && k >= at) ensures !Matches(s', key) {
      if key.id < at { ShiftWakeUps(s, at, key); }
    }
  }

  lemma DropAtKeepsInv(s: State, at: int)
    requires Inv(s) && OptionalAt(s, at)
    ensures 0 <= at < |s.order|
    ensures Inv(DropAt(s, at))
    ensures DropAt(s, at).order == Without(s.order, at)
  {
    assert at in s.optional;
    ShiftKeepsInv(s, at);
    var shifted := Shift(s, at);
    var moved := set k | k in shifted.tasks && k >= at;
    ConsumeEachKeepsInv(shifted, Ascending(moved), moved);
    assert moved - (set id | id in Ascending(moved)) == {};
  }

  lemma {:induction false} DropAllKeepsInv(s: State, id: int)
    requires Inv(s)
    ensures Inv(DropAll(s, id)) && !OptionalAt(DropAll(s, id), id)
    decreases |s.order|
  {
    if OptionalAt(s, id) {
      DropAtKeepsInv(s, id);
      DropAllKeepsInv(DropAt(s, id), id);
    }
  }

  lemma RetireKeepsInv(s: State, e: ScheduleEvent)
    requires Inv(s) && e.id !in s.optional
    ensures Inv(Retire(s, e).0)
  {
    var s' := Retire(s, e).0;
    assert forall k :: Provisional(s', k) == Provisional(s, k);
    assert forall key :: key in s'.buffered ==> Matches(s', key) == Matches(s, key);
  }

  lemma OnScheduledKeepsInv(s: State, e: ScheduleEvent)
    requires Inv(s)
    ensures Inv(OnScheduled(s, e).0)
  {
    match e
    case TaskScheduled(id) =>
      DropAllKeepsInv(s, id);
      RetireKeepsInv(DropAll(s, id), e);
    case ChildCreated(id) =>
      DropAllKeepsInv(s, id);
      RetireKeepsInv(DropAll(s, id), e);
    case DetachedCreated(id, _) =>
      if OptionalAt(s, id) { DropAtKeepsInv(s, id); }
      var s1 := if OptionalAt(s, id) then DropAt(s, id) else s;
      if OptionalAt(s1, id) {
        assert Retire(s1, e) == (s1, false);
      } else {
        RetireKeepsInv(s1, e);
      }
    case TimerCreated(id, origin, fireAt) =>
      DropAllKeepsInv(s, id);
      var s1 := if OptionalTimer(origin, fireAt) then s else DropAll(s, id);
      if Retire(s1, e).1 {
        ConfirmTimerKeepsInv(s1, id);
      }
  }

  lemma ConfirmedCore(s: State, id: int)
    requires CoreInv(s)
    ensures CoreInv(s.(actions := s.actions - {id}, optional := s.optional - {id}))
  {
    var s' := s.(actions := s.actions - {id}, optional := s.optional - {id});
    forall k | Provisional(s', k) ensures Provisional(s, k) {
      var t :| t in s'.optional && t <= k;
      assert t in s.optional;
    }
  }

  lemma ConfirmTimerKeepsInv(s: State, id: int)
    requires Inv(s)
    ensures Inv(ConfirmTimer(s, id))
  {
    var s' := s.(actions := s.actions - {id}, optional := s.optional - {id});
    ConfirmedCore(s, id);
    ConsumeEachKeepsInv(s', Ascending(s'.tasks.Keys), s'.tasks.Keys);
    assert s'.tasks.Keys - (set k | k in Ascending(s'.tasks.Keys)) == {};
  }
}
