/**
 What completed tasks show (task/orchestrator.go:869-883 and 987-1119): each key completes one task, with
 what was reported of it first.
 */
module Outcomes {
  import opened Work
  import opened Numbering
  import opened NumberingTheorems

  /** The task was completed by a resolution of this key. */
  predicate CompletedBy(s: State, item: Item, key: ResolutionKey) {
    key in s.resolved && 0 <= key.id < |s.order| && s.order[key.id] == item
  }

  /** What awaiting code sees of a report: the result of a success, nothing of a timer, the details of a failure. */
  predicate Tells(r: Resolution, o: Outcome) {
    match o
    case Succeeded(v) =>
      (r.TaskCompleted? && r.result == v) || (r.ChildCompleted? && r.result == v) || (r.TimerFired? && v == "")
    case Faulted(d, e) =>
      (r.TaskFailed? && r.details == d && r.executionId == e) || (r.ChildFailed? && r.details == d && e == "")
  }

  /** The first reports after one more step. */
  function Heard(heard: map<ResolutionKey, Resolution>, step: Step): map<ResolutionKey, Resolution> {
    if step.Resolve? && step.r.KeyOf() !in heard then heard[step.r.KeyOf() := step.r] else heard
  }

  /** The first resolution of each key among the steps. */
  function FirstReports(steps: seq<Step>): map<ResolutionKey, Resolution> {
    if steps == [] then map[] else Heard(FirstReports(steps[..|steps| - 1]), steps[|steps| - 1])
  }

  /** Every completed task was completed by a resolution. */
  ghost predicate Credited(s: State) {
    forall item :: item in s.outcome ==> exists key :: CompletedBy(s, item, key)
  }

  /** The tasks of resolved keys hold what the first reports tell; every other first report is held back. */
  ghost predicate Told(s: State, heard: map<ResolutionKey, Resolution>) {
    && heard.Keys == s.resolved + s.buffered.Keys
    && (forall key :: key in s.buffered ==> s.buffered[key] == heard[key])
    && (forall key :: key in s.resolved ==>
          0 <= key.id < |s.order| && s.order[key.id] in s.outcome && Tells(heard[key], s.outcome[s.order[key.id]]))
  }

  /** A pending schedule carries the identity that the result of its activity recorded, and otherwise none yet. */
  ghost predicate Identified(s: State, heard: map<ResolutionKey, Resolution>) {
    forall k :: k in s.actions ==>
      var key := Key(TaskKind, k);
      if key in s.resolved
      then key in heard && heard[key].KeyOf() == key && s.actions[k].executionId == heard[key].executionId
      else s.actions[k].executionId == ""
  }

  ghost predicate Accounted(s: State, heard: map<ResolutionKey, Resolution>) {
    Credited(s) && Told(s, heard) && Identified(s, heard)
  }

  /** Each pending schedule was pending before, or is not resolved and carries no identity. */
  ghost predicate SameSchedules(s: State, s': State) {
    forall k :: k in s'.actions ==>
      || (k in s.actions && s'.actions[k].executionId == s.actions[k].executionId)
      || (Key(TaskKind, k) !in s'.resolved && s'.actions[k].executionId == "")
  }

  /** Where nothing is completed and the resolved numbers stay, the credit stays. */
  lemma {:induction false} CreditStays(s: State, s': State)
    requires Credited(s) && s'.outcome == s.outcome && s.resolved <= s'.resolved
    requires forall key :: key in s.resolved && 0 <= key.id < |s.order| ==>
      key.id < |s'.order| && s'.order[key.id] == s.order[key.id]
    ensures Credited(s')
  {
    forall item | item in s'.outcome ensures exists key :: CompletedBy(s', item, key) {
      var key :| CompletedBy(s, item, key);
      assert CompletedBy(s', item, key);
    }
  }

  /** Steps that complete nothing and leave the resolved numbers alone. */
  lemma {:induction false} AccountedStays(s: State, s': State, heard: map<ResolutionKey, Resolution>)
    requires Accounted(s, heard) && s'.outcome == s.outcome && s'.resolved == s.resolved && s'.buffered == s.buffered
    requires forall key :: key in s.resolved && 0 <= key.id < |s.order| ==>
      key.id < |s'.order| && s'.order[key.id] == s.order[key.id]
    requires SameSchedules(s, s')
    ensures Accounted(s', heard)
  {
    hide Credited, Told;
    CreditStays(s, s');
    ToldStays(s, s', heard);
  }

  lemma {:induction false} ToldStays(s: State, s': State, heard: map<ResolutionKey, Resolution>)
    requires Told(s, heard) && s'.outcome == s.outcome && s'.resolved == s.resolved && s'.buffered == s.buffered
    requires forall key :: key in s.resolved && 0 <= key.id < |s.order| ==>
      key.id < |s'.order| && s'.order[key.id] == s.order[key.id]
    ensures Told(s', heard)
  {
    hide Tells;
  }

  lemma ReportTold(r: Resolution)
    ensures Tells(r, OutcomeOf(r))
  {
  }

  lemma MatchedResolves(s: State, r: Resolution)
    requires Matches(s, r.KeyOf())
    ensures Deliver(s, r).resolved == s.resolved + {r.KeyOf()}
  {
  }

  lemma TaskInRange(s: State, r: Resolution)
    requires CoreInv(s) && Matches(s, r.KeyOf())
    ensures r.id in s.tasks && 0 <= r.id < |s.order|
  {
  }

  /** Completing the task of a settled number touches no other task. */
  lemma {:induction false} MatchedCredits(s: State, r: Resolution)
    requires CoreInv(s) && Credited(s) && Matches(s, r.KeyOf())
    ensures Credited(Deliver(s, r))
  {
    hide Numbering.CoreInv, Numbering.Deliver, Numbering.Matches;
    var s' := Deliver(s, r);
    DeliverCompletesOne(s, r);
    MatchedResolves(s, r);
    TaskInRange(s, r);
    forall item | item in s'.outcome ensures exists key :: CompletedBy(s', item, key) {
      if item == s.tasks[r.id] {
        assert CompletedBy(s', item, r.KeyOf());
      } else {
        var key :| CompletedBy(s, item, key);
        assert CompletedBy(s', item, key);
      }
    }
  }

  lemma {:induction false} MatchedTells(s: State, r: Resolution, heard: map<ResolutionKey, Resolution>)
    requires CoreInv(s) && Told(s, heard) && r.KeyOf() !in heard && Matches(s, r.KeyOf())
    ensures Told(Deliver(s, r), heard[r.KeyOf() := r])
  {
    hide Numbering.CoreInv, Numbering.Deliver, Numbering.Matches, Tells;
    DeliverCompletesOne(s, r);
    MatchedResolves(s, r);
    TaskInRange(s, r);
    ReportTold(r);
  }

  lemma {:induction false} HeldTells(s: State, r: Resolution, heard: map<ResolutionKey, Resolution>)
    requires Told(s, heard) && r.KeyOf() !in heard
    ensures Told(Buffer(s, r), heard[r.KeyOf() := r])
  {
    hide Tells;
  }

  lemma {:induction false} MatchedIdentifies(s: State, r: Resolution, heard: map<ResolutionKey, Resolution>)
    requires CoreInv(s) && Identified(s, heard) && r.KeyOf() !in heard && Matches(s, r.KeyOf())
    ensures Identified(Deliver(s, r), heard[r.KeyOf() := r])
  {
    hide Numbering.Deliver, Numbering.Matches;
    DeliverCompletesOne(s, r);
    MatchedResolves(s, r);
    TaskInRange(s, r);
    if r.id in s.actions { MatchedActivity(s, r); }
    hide Numbering.CoreInv;
  }

  lemma MatchedActivity(s: State, r: Resolution)
    requires CoreInv(s) && Matches(s, r.KeyOf()) && r.id in s.actions
    ensures s.actions[r.id].item.work.Activity? <==> r.KindOf() == TaskKind
  {
  }

  lemma {:induction false} DeliverAccounts(s: State, r: Resolution, heard: map<ResolutionKey, Resolution>)
    requires CoreInv(s) && Accounted(s, heard) && r.KeyOf() !in heard
    ensures Accounted(Deliver(s, r), heard[r.KeyOf() := r])
  {
    hide Numbering.CoreInv, Credited, Told;
    if Matches(s, r.KeyOf()) {
      MatchedCredits(s, r);
      MatchedTells(s, r, heard);
      MatchedIdentifies(s, r, heard);
    } else {
      CreditStays(s, Buffer(s, r));
      HeldTells(s, r, heard);
    }
  }

  /** A report of a key that was heard before changes nothing. */
  lemma {:induction false} RepeatAccounts(s: State, r: Resolution, heard: map<ResolutionKey, Resolution>)
    requires Inv(s) && Accounted(s, heard) && r.KeyOf() in heard
    ensures Deliver(s, r) == s
  {
  }

  lemma {:induction false} ConsumeAtAccounts(s: State, id: int, heard: map<ResolutionKey, Resolution>)
    requires CoreInv(s) && Accounted(s, heard)
    ensures Accounted(ConsumeAt(s, id), heard) && CoreInv(ConsumeAt(s, id))
  {
    hide Accounted;
    ConsumeAtKeepsInv(s, id, s.tasks.Keys);
    if id in s.tasks && HasTask(s.tasks[id].work) {
      var key := Key(WorkKind(s.tasks[id].work), id);
      if key in s.buffered && !Provisional(s, id) { UnbufferedAccounts(s, key, heard); }
    }
  }

  lemma {:induction false} UnbufferedCore(s: State, key: ResolutionKey)
    requires CoreInv(s)
    ensures CoreInv(s.(buffered := s.buffered - {key}))
  {
    var s1 := s.(buffered := s.buffered - {key});
    assert forall k :: Provisional(s1, k) == Provisional(s, k);
  }

  /** A report that is no longer held back counts as new. */
  lemma {:induction false} UnbufferedIsNew(s: State, key: ResolutionKey, heard: map<ResolutionKey, Resolution>)
    requires Accounted(s, heard) && key in s.buffered && key !in s.resolved
    ensures Accounted(s.(buffered := s.buffered - {key}), heard - {key})
    ensures key in heard && heard[key] == s.buffered[key]
  {
    hide Credited, Told;
    CreditStays(s, s.(buffered := s.buffered - {key}));
    UnbufferedTold(s, key, heard);
  }

  lemma {:induction false} UnbufferedTold(s: State, key: ResolutionKey, heard: map<ResolutionKey, Resolution>)
    requires Told(s, heard) && key in s.buffered && key !in s.resolved
    ensures Told(s.(buffered := s.buffered - {key}), heard - {key}) && key in heard && heard[key] == s.buffered[key]
  {
    hide Tells;
  }

  lemma BufferedUnder(s: State, key: ResolutionKey)
    requires CoreInv(s) && key in s.buffered
    ensures s.buffered[key].KeyOf() == key && key !in s.resolved
  {
  }

  lemma {:induction false} UnbufferedAccounts(s: State, key: ResolutionKey, heard: map<ResolutionKey, Resolution>)
    requires CoreInv(s) && Accounted(s, heard) && key in s.buffered
    ensures Accounted(Deliver(s.(buffered := s.buffered - {key}), s.buffered[key]), heard)
  {
    hide Numbering.Deliver, Numbering.CoreInv, Accounted;
    BufferedUnder(s, key);
    UnbufferedIsNew(s, key, heard);
    UnbufferedCore(s, key);
    DeliverAccounts(s.(buffered := s.buffered - {key}), s.buffered[key], heard - {key});
    assert (heard - {key})[key := heard[key]] == heard;
  }

  lemma {:induction false} ConsumeEachAccounts(s: State, ids: seq<int>, heard: map<ResolutionKey, Resolution>)
    requires CoreInv(s) && Accounted(s, heard)
    ensures Accounted(ConsumeEach(s, ids), heard) && CoreInv(ConsumeEach(s, ids))
  {
    hide Numbering.ConsumeAt, Numbering.CoreInv, Accounted;
    if ids != [] {
      ConsumeEachAccounts(s, ids[..|ids| - 1], heard);
      ConsumeAtAccounts(ConsumeEach(s, ids[..|ids| - 1]), ids[|ids| - 1], heard);
    }
  }

  lemma {:induction false} ScheduleAccounts(s: State, w: Work, heard: map<ResolutionKey, Resolution>)
    requires Inv(s) && Accounted(s, heard)
    ensures Accounted(Schedule(s, w), heard)
  {
    hide Numbering.CoreInv, Numbering.Consume;
    RegisterKeepsInv(s, w);
    var reg := Register(s, w);
    assert Key(TaskKind, s.seqNo) !in s.resolved by { NextUnresolved(s); }
    AccountedStays(s, reg, heard);
    if HasTask(w) {
      ConsumeAtAccounts(reg, s.seqNo, heard);
      assert ConsumeAt(reg, s.seqNo) == Consume(reg, WorkKind(w), s.seqNo);
    }
  }

  lemma NextUnresolved(s: State)
    requires Inv(s)
    ensures forall key :: key in s.resolved ==> key.id != s.seqNo
  {
  }

  /** Schedules that move down are not resolved, so they carry no identity. */
  lemma {:induction false} ShiftSchedules(s: State, at: int, heard: map<ResolutionKey, Resolution>)
    requires CoreInv(s) && at in s.optional && 0 <= at < |s.order| && Identified(s, heard)
    ensures SameSchedules(s, Shift(s, at))
  {
    hide Numbering.ShiftKeys;
    var s' := Shift(s, at);
    forall k | k in s'.actions && k >= at ensures Key(TaskKind, k) !in s.resolved && s'.actions[k].executionId == "" {
      assert Provisional(s, k) && Provisional(s, k + 1);
      assert s'.actions[k].executionId == s.actions[k + 1].executionId;
    }
  }

  /** Resolved numbers lie below the dropped timer, so they do not move. */
  lemma {:induction false} ShiftAccounts(s: State, at: int, heard: map<ResolutionKey, Resolution>)
    requires CoreInv(s) && at in s.optional && 0 <= at < |s.order| && Accounted(s, heard)
    ensures Accounted(Shift(s, at), heard)
  {
    hide Numbering.ShiftMap, Numbering.Renumber, Numbering.ShiftKeys, Accounted;
    forall key | key in s.resolved && 0 <= key.id < |s.order|
      ensures key.id < |Shift(s, at).order| && Shift(s, at).order[key.id] == s.order[key.id]
    {
      assert key.id < at by { assert key.id >= at ==> Provisional(s, key.id); }
    }
    assert Identified(s, heard) by { IdentifiedIn(s, heard); }
    ShiftSchedules(s, at, heard);
    AccountedStays(s, Shift(s, at), heard);
  }

  lemma IdentifiedIn(s: State, heard: map<ResolutionKey, Resolution>)
    requires Accounted(s, heard)
    ensures Identified(s, heard)
  {
  }

  lemma {:induction false} DropAtAccounts(s: State, at: int, heard: map<ResolutionKey, Resolution>)
    requires Inv(s) && OptionalAt(s, at) && Accounted(s, heard)
    ensures 0 <= at < |s.order| && Accounted(DropAt(s, at), heard)
  {
    hide Numbering.ConsumeEach, Numbering.Ascending, Numbering.Shift, Accounted;
    ShiftKeepsInv(s, at);
    ShiftAccounts(s, at, heard);
    ConsumeEachAccounts(Shift(s, at), Ascending(set k | k in Shift(s, at).tasks && k >= at), heard);
  }

  lemma {:induction false} DropAllAccounts(s: State, id: int, heard: map<ResolutionKey, Resolution>)
    requires Inv(s) && Accounted(s, heard)
    ensures Accounted(DropAll(s, id), heard)
    decreases |s.order|
  {
    hide Numbering.DropAt, Accounted, Numbering.CoreInv;
    if OptionalAt(s, id) {
      DropAtKeepsInv(s, id);
      DropAtAccounts(s, id, heard);
      DropAllAccounts(DropAt(s, id), id, heard);
    }
  }

  lemma {:induction false} RetireAccounts(s: State, e: ScheduleEvent, heard: map<ResolutionKey, Resolution>)
    requires Accounted(s, heard)
    ensures Accounted(Retire(s, e).0, heard)
  {
    AccountedStays(s, Retire(s, e).0, heard);
  }

  lemma {:induction false} ConfirmAccounts(s: State, id: int, heard: map<ResolutionKey, Resolution>)
    requires Inv(s) && Accounted(s, heard)
    ensures Accounted(ConfirmTimer(s, id), heard)
  {
    hide Numbering.ConsumeEach, Numbering.Ascending;
    ConfirmedCore(s, id);
    var s' := s.(actions := s.actions - {id}, optional := s.optional - {id});
    AccountedStays(s, s', heard);
    ConsumeEachAccounts(s', Ascending(s'.tasks.Keys), heard);
  }

  lemma {:induction false} OnScheduledAccounts(s: State, e: ScheduleEvent, heard: map<ResolutionKey, Resolution>)
    requires Inv(s) && Accounted(s, heard)
    ensures Accounted(OnScheduled(s, e).0, heard)
  {
    hide Accounted, Numbering.DropAll, Numbering.DropAt, Numbering.ConfirmTimer, Numbering.Retire, Numbering.CoreInv;
    DropAllAccounts(s, e.id, heard);
    DropAllKeepsInv(s, e.id);
    RetireAccounts(DropAll(s, e.id), e, heard);
    RetireAccounts(s, e, heard);
    if OptionalAt(s, e.id) {
      DropAtAccounts(s, e.id, heard);
      RetireAccounts(DropAt(s, e.id), e, heard);
    }
    ConfirmAccounts(s, e.id, heard);
    ConfirmAccounts(DropAll(s, e.id), e.id, heard);
  }

  lemma {:induction false} NextAccounts(s: State, step: Step, heard: map<ResolutionKey, Resolution>)
    requires Inv(s) && Accounted(s, heard)
    ensures Accounted(Next(s, step), Heard(heard, step))
  {
    hide Accounted, Numbering.OnScheduled, Numbering.Schedule, Numbering.Deliver, Numbering.CoreInv;
    match step {
      case Call(w) => ScheduleAccounts(s, w, heard);
      case Resolve(r) =>
        if r.KeyOf() in heard { RepeatAccounts(s, r, heard); } else { DeliverAccounts(s, r, heard); }
      case Record(e) => OnScheduledAccounts(s, e, heard);
      case Withdraw(id) => AccountedStays(s, Discard(s, id), heard);
    }
  }

  lemma {:induction false} RunAccounts(steps: seq<Step>)
    ensures Inv(INIT) && Accounted(Run(INIT, steps), FirstReports(steps))
    decreases |steps|
  {
    hide Accounted, Next, Numbering.Inv;
    InitInv();
    if steps == [] {
      InitAccounted();
    } else {
      var front, last := steps[..|steps| - 1], steps[|steps| - 1];
      RunAccounts(front);
      NextAccounts(Run(INIT, front), last, FirstReports(front));
      RunSnoc(INIT, front, last);
      assert steps == front + [last];
    }
  }

  lemma {:induction false} InitAccounted()
    ensures Accounted(INIT, map[])
  {
  }

  /**
   In every reachable state keys and completed tasks correspond one to one: each resolved key has completed
   exactly the task of its own kind under its number, and each completed task was completed by one key.
   */
  lemma {:induction false} EachKeyCompletesOne(steps: seq<Step>)
    ensures Inv(INIT)
    ensures var s := Run(INIT, steps);
            && (forall key :: key in s.resolved ==>
                  0 <= key.id < |s.order| && s.order[key.id] in s.outcome &&
                  HasTask(s.order[key.id].work) && WorkKind(s.order[key.id].work) == key.kind)
            && (forall item :: item in s.outcome ==> exists key :: CompletedBy(s, item, key))
            && (forall item, a, b :: CompletedBy(s, item, a) && CompletedBy(s, item, b) ==> a == b)
  {
    RunAccounts(steps);
  }

  /** This is the first resolution of the key among the steps. */
  ghost predicate FirstReport(steps: seq<Step>, key: ResolutionKey, r: Resolution) {
    exists i :: 0 <= i < |steps| && steps[i] == Resolve(r) && r.KeyOf() == key &&
                forall j :: 0 <= j < i && steps[j].Resolve? ==> steps[j].r.KeyOf() != key
  }

  lemma {:induction false} FirstReportsFirst(steps: seq<Step>, key: ResolutionKey)
    ensures key in FirstReports(steps) ==> FirstReport(steps, key, FirstReports(steps)[key])
    ensures key !in FirstReports(steps) ==>
      forall i :: 0 <= i < |steps| && steps[i].Resolve? ==> steps[i].r.KeyOf() != key
    decreases |steps|
  {
    if steps != [] {
      var front, last := steps[..|steps| - 1], steps[|steps| - 1];
      FirstReportsFirst(front, key);
      assert forall j :: 0 <= j < |front| ==> front[j] == steps[j];
      if key in FirstReports(front) {
        var r := FirstReports(front)[key];
        var i :| 0 <= i < |front| && front[i] == Resolve(r) && r.KeyOf() == key &&
                 forall j :: 0 <= j < i && front[j].Resolve? ==> front[j].r.KeyOf() != key;
        assert steps[i] == Resolve(r);
      } else if last.Resolve? && last.r.KeyOf() == key {
        assert steps[|steps| - 1] == Resolve(last.r);
      }
    }
  }

  /**
   In every reachable state a completed task shows exactly what the first report of its key said, as a failure
   or as a result; and every other key that was reported is held back with its first report, because no
   pending task of its kind under a settled number awaits it.
   */
  lemma {:induction false} OutcomesAsReported(steps: seq<Step>, item: Item, key: ResolutionKey)
    ensures Inv(INIT)
    ensures var s := Run(INIT, steps);
            CompletedBy(s, item, key) ==>
              exists r :: FirstReport(steps, key, r) && item in s.outcome &&
                (forall d, e :: s.outcome[item] == Faulted(d, e) <==>
                   r == TaskFailed(key.id, e, d) || (r == ChildFailed(key.id, d) && e == "")) &&
                (forall v :: s.outcome[item] == Succeeded(v) <==>
                   (r.TaskCompleted? && r.result == v) || r == ChildCompleted(key.id, v) ||
                   (r == TimerFired(key.id) && v == ""))
    ensures var s := Run(INIT, steps);
            forall r :: FirstReport(steps, key, r) && key !in s.resolved ==>
              key in s.buffered && s.buffered[key] == r && !Matches(s, key)
  {
    hide Run;
    RunAccounts(steps);
    FirstReportsFirst(steps, key);
    var s, heard := Run(INIT, steps), FirstReports(steps);
    if CompletedBy(s, item, key) {
      TellsExactly(heard[key], s.outcome[item]);
      assert FirstReport(steps, key, heard[key]);
    }
    forall r | FirstReport(steps, key, r) && key !in s.resolved
      ensures key in s.buffered && s.buffered[key] == r && !Matches(s, key)
    {
      FirstIsUnique(steps, key, r, heard[key]);
    }
  }

  /**
   In every reachable state a pending schedule whose activity was resolved early carries the identity that its
   first report recorded, and every other pending schedule carries none.
   */
  lemma {:induction false} SchedulesKeepIdentity(steps: seq<Step>, k: int)
    ensures Inv(INIT)
    ensures var s := Run(INIT, steps);
            k in s.actions ==>
              if Key(TaskKind, k) in s.resolved
              then exists r :: FirstReport(steps, Key(TaskKind, k), r) && s.actions[k].executionId == r.executionId
              else s.actions[k].executionId == ""
  {
    hide Run;
    RunAccounts(steps);
    FirstReportsFirst(steps, Key(TaskKind, k));
    var s, key := Run(INIT, steps), Key(TaskKind, k);
    if k in s.actions && key in s.resolved {
      assert FirstReport(steps, key, FirstReports(steps)[key]);
    }
  }

  lemma TellsExactly(r: Resolution, o: Outcome)
    requires Tells(r, o)
    ensures forall d, e :: o == Faulted(d, e) <==>
              r == TaskFailed(r.id, e, d) || (r == ChildFailed(r.id, d) && e == "")
    ensures forall v :: o == Succeeded(v) <==>
              (r.TaskCompleted? && r.result == v) || r == ChildCompleted(r.id, v) || (r == TimerFired(r.id) && v == "")
  {
  }

  lemma FirstIsUnique(steps: seq<Step>, key: ResolutionKey, a: Resolution, b: Resolution)
    requires FirstReport(steps, key, a) && FirstReport(steps, key, b)
    ensures a == b
  {
  }
}
