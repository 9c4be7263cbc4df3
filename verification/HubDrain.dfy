/**
 The task hub together with its two workers (backend/taskhub.go:65-212, backend/worker.go:112-221): the
 finisher of a shutdown calls StopAndDrain on both workers, and what they report is derived from their state.
 */
module HubDrain {
  import opened Work
  import T = TaskHub
  import W = Worker

  /** The finisher's call of StopAndDrain: it waits for the drain of a generation, or found the worker idle. */
  datatype Call = NotCalled | Waiting(g: nat) | Idle

  datatype Side = Side(worker: W.State, call: Call)

  datatype State = State(hub: T.State, workflow: Side, activity: Side)

  function Init(workflows: nat, activities: nat): State {
    State(T.INIT, Side(W.Init(workflows), NotCalled), Side(W.Init(activities), NotCalled))
  }

  datatype Which = Workflows | Activities

  datatype Step =
    | StartHub(ok: bool)
    | StopHub
    | CallDrain(which: Which)
    | Drained(which: Which, ok: bool)
    | OnHub(h: T.Step)
    | OnWorker(which: Which, w: W.Step)

  /******* Steps *******/

  /** The newest finisher waits for its workers. */
  predicate Draining(hub: T.State) {
    hub.finishers != [] && hub.finishers[|hub.finishers| - 1].phase.Draining?
  }

  /** Cancels the live generation and waits for it; without one there is nothing to wait for. */
  function Called(side: Side): Side {
    if !side.call.NotCalled? then side
    else if !side.worker.running || side.worker.generations == [] then side.(call := Idle)
    else
      var g := |side.worker.generations| - 1;
      Side(W.Next(side.worker, W.Cancel(g)), Waiting(g))
  }

  /**
   StopAndDrain succeeds at once on an idle worker, and otherwise only when drainDone is closed; it may fail while it
   waits.
   */
  predicate Reports(side: Side, ok: bool) {
    match side.call
    case NotCalled => false
    case Idle => ok
    case Waiting(g) => ok ==> W.ClosedFor(side.worker, g)
  }

  function Get(s: State, which: Which): Side {
    if which.Workflows? then s.workflow else s.activity
  }

  function Put(s: State, which: Which, side: Side): State {
    if which.Workflows? then s.(workflow := side) else s.(activity := side)
  }

  /** Only the hub starts a worker. */
  function Next(s: State, step: Step): State {
    match step
    case StartHub(ok) =>
      if !T.Starts(s.hub, ok) then s
      else State(T.Next(s.hub, T.Start(ok)), s.workflow.(worker := W.Next(s.workflow.worker, W.Start)),
                 s.activity.(worker := W.Next(s.activity.worker, W.Start)))
    case StopHub =>
      if !s.hub.started || s.hub.stopping then s
      else State(T.Next(s.hub, T.Stop), s.workflow.(call := NotCalled), s.activity.(call := NotCalled))
    case CallDrain(which) => if Draining(s.hub) then Put(s, which, Called(Get(s, which))) else s
    case Drained(which, ok) =>
      if !Draining(s.hub) || !Reports(Get(s, which), ok) then s
      else
        var f := |s.hub.finishers| - 1;
        s.(hub := T.Next(s.hub, if which.Workflows? then T.WorkflowDrained(f, ok) else T.ActivityDrained(f, ok)))
    case OnHub(h) => if h.Decide? || h.StopBackend? || h.Report? then s.(hub := T.Next(s.hub, h)) else s
    case OnWorker(which, w) =>
      if w.Start? then s else Put(s, which, Get(s, which).(worker := W.Next(Get(s, which).worker, w)))
  }

  function Run(s: State, steps: seq<Step>): State
    decreases steps
  {
    if steps == [] then s else Run(Next(s, steps[0]), steps[1..])
  }

  /******* Invariant *******/

  /** What the newest finisher knows of a worker: whom it waits for, and that a worker reported as drained is idle. */
  ghost predicate Knows(side: Side, report: Option<bool>) {
    && (side.call.Waiting? ==> side.call.g == |side.worker.generations| - 1)
    && (side.call.Idle? || report == Some(true) ==> !side.worker.running)
  }

  ghost predicate Linked(hub: T.State, workflow: Side, activity: Side) {
    hub.finishers != [] && T.AtWork(hub.finishers[|hub.finishers| - 1]) ==>
      var x := hub.finishers[|hub.finishers| - 1];
      Knows(workflow, x.workflow) && Knows(activity, x.activity)
  }

  ghost predicate Inv(s: State) {
    && T.FinisherInv(s.hub) && T.BackendInv(s.hub)
    && W.DrainInv(s.workflow.worker) && W.DrainInv(s.activity.worker)
    && Linked(s.hub, s.workflow, s.activity)
  }

  /** A worker that nobody starts keeps its generations and does not come to life. */
  lemma {:induction false} WorkerStays(s: W.State, w: W.Step)
    requires W.DrainInv(s) && !w.Start?
    ensures var s' := W.Next(s, w);
            W.DrainInv(s') && |s'.generations| == |s.generations| && (!s.running ==> !s'.running)
  {
    W.NextKeepsDrain(s, w);
  }

  /** A generation whose drainDone is closed is not alive. */
  lemma {:induction false} ClosedIsIdle(s: W.State)
    requires W.DrainInv(s) && s.generations != [] && W.ClosedFor(s, |s.generations| - 1)
    ensures !s.running
  {
  }

  lemma {:induction false} SideStepKnows(side: Side, w: W.Step, report: Option<bool>)
    requires W.DrainInv(side.worker) && !w.Start? && Knows(side, report)
    ensures W.DrainInv(W.Next(side.worker, w)) && Knows(side.(worker := W.Next(side.worker, w)), report)
  {
    hide W.DrainInv, W.Next;
    WorkerStays(side.worker, w);
  }

  lemma {:induction false} CalledKnows(side: Side, report: Option<bool>)
    requires W.DrainInv(side.worker) && Knows(side, report)
    ensures W.DrainInv(Called(side).worker) && Knows(Called(side), report)
  {
    if side.worker.generations != [] {
      WorkerStays(side.worker, W.Cancel(|side.worker.generations| - 1));
    }
  }

  /** A report of success is true of the worker. */
  lemma {:induction false} ReportIsTrue(side: Side, ok: bool, report: Option<bool>)
    requires W.DrainInv(side.worker) && Knows(side, report) && Reports(side, ok)
    ensures Knows(side, Some(ok))
  {
    if side.call.Waiting? && ok { ClosedIsIdle(side.worker); }
  }

  /******* Every step keeps the invariant *******/

  lemma {:induction false} StartKeeps(s: State, ok: bool)
    requires Inv(s) && T.Starts(s.hub, ok)
    ensures Inv(Next(s, StartHub(ok)))
  {
    hide W.DrainInv, W.Next, T.BackendInv;
    T.NextKeepsInv(s.hub, T.Start(ok));
    W.NextKeepsDrain(s.workflow.worker, W.Start);
    W.NextKeepsDrain(s.activity.worker, W.Start);
  }

  lemma {:induction false} StopKeeps(s: State)
    requires Inv(s) && s.hub.started && !s.hub.stopping
    ensures Inv(Next(s, StopHub))
  {
    hide W.DrainInv, T.BackendInv, T.FinisherInv;
    T.NextKeepsInv(s.hub, T.Stop);
  }

  lemma {:induction false} CallKeeps(s: State, which: Which)
    requires Inv(s) && Draining(s.hub)
    ensures Inv(Next(s, CallDrain(which)))
  {
    hide W.DrainInv, T.BackendInv, T.FinisherInv, Called, Knows;
    var x := s.hub.finishers[|s.hub.finishers| - 1];
    CalledKnows(Get(s, which), if which.Workflows? then x.workflow else x.activity);
  }

  lemma {:induction false} DrainedKeeps(s: State, which: Which, ok: bool)
    requires Inv(s) && Draining(s.hub) && Reports(Get(s, which), ok)
    ensures Inv(Next(s, Drained(which, ok)))
  {
    hide W.DrainInv, T.BackendInv, T.FinisherInv, Knows, Reports;
    var f := |s.hub.finishers| - 1;
    T.NextKeepsInv(s.hub, if which.Workflows? then T.WorkflowDrained(f, ok) else T.ActivityDrained(f, ok));
    var x := s.hub.finishers[f];
    ReportIsTrue(Get(s, which), ok, if which.Workflows? then x.workflow else x.activity);
  }

  /** The other steps of a finisher change no report. */
  lemma {:induction false} HubKeeps(s: State, h: T.Step)
    requires Inv(s) && (h.Decide? || h.StopBackend? || h.Report?)
    ensures Inv(Next(s, OnHub(h)))
  {
    hide W.DrainInv, T.BackendInv, T.FinisherInv, Knows;
    T.NextKeepsInv(s.hub, h);
    ReportsStay(s.hub, h);
  }

  lemma {:induction false} ReportsStay(hub: T.State, h: T.Step)
    requires h.Decide? || h.StopBackend? || h.Report?
    ensures var hub' := T.Next(hub, h);
            && |hub'.finishers| == |hub.finishers|
            && forall i :: 0 <= i < |hub.finishers| ==>
                 && hub'.finishers[i].workflow == hub.finishers[i].workflow
                 && hub'.finishers[i].activity == hub.finishers[i].activity
                 && (T.AtWork(hub'.finishers[i]) ==> T.AtWork(hub.finishers[i]))
  {
  }

  lemma {:induction false} WorkerKeeps(s: State, which: Which, w: W.Step)
    requires Inv(s) && !w.Start?
    ensures Inv(Next(s, OnWorker(which, w)))
  {
    hide W.DrainInv, T.BackendInv, T.FinisherInv, Knows, W.Next;
    WorkerStays(Get(s, which).worker, w);
    if s.hub.finishers != [] && T.AtWork(s.hub.finishers[|s.hub.finishers| - 1]) {
      var x := s.hub.finishers[|s.hub.finishers| - 1];
      SideStepKnows(Get(s, which), w, if which.Workflows? then x.workflow else x.activity);
    }
  }

  lemma {:induction false} NextKeepsInv(s: State, step: Step)
    requires Inv(s)
    ensures Inv(Next(s, step))
  {
    hide Inv;
    match step {
      case StartHub(ok) => if T.Starts(s.hub, ok) { StartKeeps(s, ok); }
      case StopHub => if s.hub.started && !s.hub.stopping { StopKeeps(s); }
      case CallDrain(which) => if Draining(s.hub) { CallKeeps(s, which); }
      case Drained(which, ok) => if Draining(s.hub) && Reports(Get(s, which), ok) { DrainedKeeps(s, which, ok); }
      case OnHub(h) => if h.Decide? || h.StopBackend? || h.Report? { HubKeeps(s, h); }
      case OnWorker(which, w) => if !w.Start? { WorkerKeeps(s, which, w); }
    }
  }

  lemma {:induction false} RunKeepsInv(s: State, steps: seq<Step>)
    requires Inv(s)
    ensures Inv(Run(s, steps))
    decreases steps
  {
    hide Inv, Next;
    if steps != [] {
      NextKeepsInv(s, steps[0]);
      RunKeepsInv(Next(s, steps[0]), steps[1..]);
    }
  }

  /******* The backend is stopped only under idle workers *******/

  /** No item is being worked on and no poll loop can fetch another. */
  ghost predicate Quiet(s: W.State) {
    && W.WaitGroupEmpty(s)
    && (forall g :: 0 <= g < |s.generations| ==> s.generations[g].poll.Exited?)
  }

  lemma {:induction false} IdleIsQuiet(s: W.State)
    requires W.DrainInv(s) && !s.running
    ensures Quiet(s)
  {
  }

  /**
   In every interleaving of hub, finishers and both workers: when the backend is stopped, every item that
   either worker ever fetched is over, and no poll loop is left that could fetch another.
   */
  lemma {:induction false} BackendStopsUnderQuietWorkers(workflows: nat, activities: nat, steps: seq<Step>, f: nat,
                                                         ok: bool)
    requires var s := Run(Init(workflows, activities), steps); Next(s, OnHub(T.StopBackend(f, ok))) != s
    ensures var s := Run(Init(workflows, activities), steps); Quiet(s.workflow.worker) && Quiet(s.activity.worker)
  {
    hide Quiet, W.DrainInv;
    var s := Run(Init(workflows, activities), steps);
    InitInv(workflows, activities);
    RunKeepsInv(Init(workflows, activities), steps);
    assert f < |s.hub.finishers| && s.hub.finishers[f].phase.StoppingBackend?;
    T.AtWorkIsLast(s.hub, f);
    assert T.Drained(s.hub.finishers[f]);
    IdleIsQuiet(s.workflow.worker);
    IdleIsQuiet(s.activity.worker);
  }

  lemma InitInv(workflows: nat, activities: nat)
    ensures Inv(Init(workflows, activities))
  {
  }
}
