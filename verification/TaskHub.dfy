/**
 Starting and stopping a task hub worker (backend/taskhub.go:65-212).

 Each step is one region under the hub's mutex, or one report of a background goroutine. A run is
 an epoch; a finisher is the background goroutine that drains the workers and stops the backend.
 */
module TaskHub {
  import opened Work

  datatype Phase = Draining | StoppingBackend | Reporting(stopped: bool, failed: bool) | Finished

  /** Whether each worker drained without error, as far as it has reported. */
  datatype Finisher = Finisher(epoch: nat, workflow: Option<bool>, activity: Option<bool>, phase: Phase)

  /**
   Channel i was made with finisher i and the hub's field holds the newest; closed counts how often
   each was closed. backendStops lists the finishers that stopped the backend.
   */
  datatype State = State(
    started: bool,
    stopping: bool,
    failed: bool,
    epoch: nat,
    finishers: seq<Finisher>,
    closed: seq<nat>,
    backendStops: seq<nat>)

  const INIT := State(false, false, false, 0, [], [], [])

  datatype Step =
    | Start(ok: bool)
    | Stop
    | WorkflowDrained(f: nat, ok: bool)
    | ActivityDrained(f: nat, ok: bool)
    | Decide(f: nat)
    | StopBackend(f: nat, ok: bool)
    | Report(f: nat)

  /** Whether Start succeeds, given that the backend does. */
  predicate Starts(s: State, ok: bool) {
    !s.stopping && !s.started && ok
  }

  function SetFinisher(s: State, f: nat, x: Finisher): State
    requires f < |s.finishers|
  {
    s.(finishers := s.finishers[f := x])
  }

  /** The steps of the finisher numbered f. */
  function Finish(s: State, f: nat, step: Step): State
    requires f < |s.finishers|
  {
    var x := s.finishers[f];
    match step
    case WorkflowDrained(_, ok) =>
      if x.phase.Draining? && x.workflow.None? then SetFinisher(s, f, x.(workflow := Some(ok))) else s
    case ActivityDrained(_, ok) =>
      if x.phase.Draining? && x.activity.None? then SetFinisher(s, f, x.(activity := Some(ok))) else s
    case Decide(_) =>
      if x.phase.Draining? && x.workflow.Some? && x.activity.Some?
      then
        var drained := x.workflow.value && x.activity.value;
        SetFinisher(s, f, x.(phase := if drained then StoppingBackend else Reporting(false, true)))
      else s
    case StopBackend(_, ok) =>
      if x.phase.StoppingBackend?
      then SetFinisher(s, f, x.(phase := Reporting(true, !ok))).(backendStops := s.backendStops + [f])
      else s
    case Report(_) =>
      if !x.phase.Reporting? || s.closed == [] then s
      else SetFinisher(s, f, x.(phase := Finished)).(
             failed := x.phase.failed,
             started := if x.phase.stopped then false else s.started,
             stopping := if x.phase.stopped then false else s.stopping,
             closed := s.closed[|s.closed| - 1 := s.closed[|s.closed| - 1] + 1])
    case _ => s
  }

  /** Shutdown and ForceShutdown share Stop. */
  function Next(s: State, step: Step): State {
    match step
    case Start(ok) => if Starts(s, ok) then s.(started := true, epoch := s.epoch + 1) else s
    case Stop =>
      if !s.started || s.stopping then s
      else s.(stopping := true, failed := false,
              finishers := s.finishers + [Finisher(s.epoch, None, None, Draining)], closed := s.closed + [0])
    case _ => if step.f < |s.finishers| then Finish(s, step.f, step) else s
  }

  function Run(s: State, steps: seq<Step>): State
    decreases steps
  {
    if steps == [] then s else Run(Next(s, steps[0]), steps[1..])
  }

  /******* Invariant *******/

  predicate AtWork(x: Finisher) {
    !x.phase.Finished?
  }

  /** Both workers drained without error. */
  predicate Drained(x: Finisher) {
    x.workflow == Some(true) && x.activity == Some(true)
  }

  /** Whether the finisher has stopped the backend. */
  predicate HasStopped(s: State, f: nat) {
    exists i :: 0 <= i < |s.backendStops| && s.backendStops[i] == f
  }

  /** At most one finisher is at work, it belongs to the current epoch, and only finished ones closed their channel. */
  ghost predicate FinisherInv(s: State) {
    && |s.closed| == |s.finishers|
    && (forall i :: 0 <= i < |s.finishers| - 1 ==> !AtWork(s.finishers[i]))
    && (forall i :: 0 <= i < |s.closed| ==> s.closed[i] == if AtWork(s.finishers[i]) then 0 else 1)
    && (forall i, j :: 0 <= i < j < |s.finishers| ==> s.finishers[i].epoch < s.finishers[j].epoch)
    && (forall i :: 0 <= i < |s.finishers| ==> s.finishers[i].epoch <= s.epoch)
    && (s.stopping ==> s.started && s.finishers != [])
    && (s.started && !s.stopping ==> forall i :: 0 <= i < |s.finishers| ==> s.finishers[i].epoch < s.epoch)
    && (s.finishers != [] && AtWork(s.finishers[|s.finishers| - 1]) ==> s.stopping)
  }

  ghost predicate BackendInv(s: State) {
    && (forall f :: 0 <= f < |s.finishers| && s.finishers[f].phase.StoppingBackend? ==>
          Drained(s.finishers[f]) && !HasStopped(s, f))
    && (forall f :: 0 <= f < |s.finishers| && s.finishers[f].phase.Draining? ==> !HasStopped(s, f))
    && (forall i :: 0 <= i < |s.backendStops| ==>
          s.backendStops[i] < |s.finishers| && Drained(s.finishers[s.backendStops[i]]))
    && (forall i, j :: 0 <= i < j < |s.backendStops| ==> s.backendStops[i] != s.backendStops[j])
  }

  /** Only the newest finisher can still be at work, so the channel it closes is its own. */
  lemma AtWorkIsLast(s: State, f: nat)
    requires FinisherInv(s) && f < |s.finishers| && AtWork(s.finishers[f])
    ensures f == |s.finishers| - 1 && s.closed[f] == 0 && s.stopping
  {
  }

  lemma {:induction false} FinishKeepsFinishers(s: State, f: nat, step: Step)
    requires FinisherInv(s) && f < |s.finishers|
    ensures FinisherInv(Finish(s, f, step))
  {
    if AtWork(s.finishers[f]) { AtWorkIsLast(s, f); }
  }

  lemma {:induction false} StopBackendKeepsBackend(s: State, f: nat, ok: bool)
    requires BackendInv(s) && f < |s.finishers| && s.finishers[f].phase.StoppingBackend?
    ensures BackendInv(Finish(s, f, StopBackend(f, ok)))
  {
    var s' := Finish(s, f, StopBackend(f, ok));
    forall g | HasStopped(s', g) && g != f ensures HasStopped(s, g) {
      var i :| 0 <= i < |s'.backendStops| && s'.backendStops[i] == g;
      assert s.backendStops[i] == g;
    }
    forall i | 0 <= i < |s.backendStops| ensures s.backendStops[i] != f {
      assert !HasStopped(s, f);
    }
  }

  lemma {:induction false} FinishKeepsBackend(s: State, f: nat, step: Step)
    requires BackendInv(s) && f < |s.finishers|
    ensures BackendInv(Finish(s, f, step))
  {
    if step.StopBackend? {
      if s.finishers[f].phase.StoppingBackend? { StopBackendKeepsBackend(s, f, step.ok); }
    } else {
      var s' := Finish(s, f, step);
      assert s'.backendStops == s.backendStops;
      assert forall g :: HasStopped(s', g) == HasStopped(s, g);
      MovedKeepsBackend(s, s', f);
    }
  }

  lemma {:induction false} MovedKeepsBackend(s: State, s': State, f: nat)
    requires BackendInv(s) && f < |s.finishers| == |s'.finishers| && s'.backendStops == s.backendStops
    requires s'.finishers == s.finishers[f := s'.finishers[f]]
    requires Drained(s.finishers[f]) ==> Drained(s'.finishers[f])
    requires s'.finishers[f].phase.Draining? ==> s.finishers[f].phase.Draining?
    requires s'.finishers[f].phase.StoppingBackend? ==>
      Drained(s'.finishers[f]) && (s.finishers[f].phase.Draining? || s.finishers[f].phase.StoppingBackend?)
    ensures BackendInv(s')
  {
    assert forall g :: HasStopped(s', g) == HasStopped(s, g);
  }

  lemma {:induction false} StopKeepsBackend(s: State)
    requires BackendInv(s)
    ensures BackendInv(Next(s, Stop))
  {
    var s' := Next(s, Stop);
    assert forall f :: HasStopped(s', f) == HasStopped(s, f);
  }

  lemma {:induction false} NextKeepsInv(s: State, step: Step)
    requires FinisherInv(s) && BackendInv(s)
    ensures FinisherInv(Next(s, step)) && BackendInv(Next(s, step))
  {
    hide Finish;
    match step
    case Start(ok) => assert forall f :: HasStopped(Next(s, step), f) == HasStopped(s, f);
    case Stop => StopKeepsBackend(s);
    case _ =>
      if step.f < |s.finishers| {
        FinishKeepsFinishers(s, step.f, step);
        FinishKeepsBackend(s, step.f, step);
      }
  }

  lemma {:induction false} RunKeepsInv(s: State, steps: seq<Step>)
    requires FinisherInv(s) && BackendInv(s)
    ensures FinisherInv(Run(s, steps)) && BackendInv(Run(s, steps))
    decreases steps
  {
    hide FinisherInv, BackendInv;
    if steps != [] {
      NextKeepsInv(s, steps[0]);
      RunKeepsInv(Next(s, steps[0]), steps[1..]);
    }
  }

  /**
   Lifecycle safety: in every interleaving, each epoch has at most one finisher and at most one
   finisher is at work; no done channel is closed twice; the backend is stopped at most once per
   finisher and only after both workers drained without error; a hub that is stopping does not start.
   */
  lemma {:induction false} LifecycleSafe(steps: seq<Step>)
    ensures var s := Run(INIT, steps);
            && (forall i, j :: 0 <= i < j < |s.finishers| ==>
                  s.finishers[i].epoch != s.finishers[j].epoch && !AtWork(s.finishers[i]))
            && (forall i :: 0 <= i < |s.closed| ==> s.closed[i] <= 1)
            && (forall i :: 0 <= i < |s.backendStops| ==>
                  s.backendStops[i] < |s.finishers| && Drained(s.finishers[s.backendStops[i]]))
            && (forall i, j :: 0 <= i < j < |s.backendStops| ==> s.backendStops[i] != s.backendStops[j])
            && (s.stopping ==> Next(s, Start(true)) == s)
  {
    RunKeepsInv(INIT, steps);
  }

  /** A drain that failed leaves the hub stopping for good: it neither starts nor stops again. */
  lemma {:induction false} FailedDrainIsFinal(s: State, steps: seq<Step>)
    requires FinisherInv(s) && s.stopping && !AtWork(s.finishers[|s.finishers| - 1])
    ensures Run(s, steps) == s
    decreases steps
  {
    if steps != [] {
      var step := steps[0];
      if !step.Start? && !step.Stop? && step.f < |s.finishers| { assert !AtWork(s.finishers[step.f]); }
      FailedDrainIsFinal(s, steps[1..]);
    }
  }

  /******* Progress *******/

  lemma {:induction false} RunAppend(s: State, steps: seq<Step>, more: seq<Step>)
    ensures Run(s, steps + more) == Run(Run(s, steps), more)
    decreases steps
  {
    hide Next;
    if steps == [] {
      assert steps + more == more;
    } else {
      assert (steps + more)[1..] == steps[1..] + more;
      RunAppend(Next(s, steps[0]), steps[1..], more);
    }
  }

  lemma {:induction false} TwoSteps(s: State, a: Step, b: Step)
    ensures Run(s, [a, b]) == Next(Next(s, a), b)
  {
    hide Next;
    RunAppend(s, [a], [b]);
    assert [a, b] == [a] + [b] && [a][1..] == [] && [b][1..] == [];
  }

  /** A hub that is down starts, and a stop of it begins a finisher of its epoch. */
  lemma {:induction false} StartsAndStops(s: State)
    requires !s.started && !s.stopping
    ensures Run(s, [Start(true), Stop]) ==
            s.(started := true, stopping := true, failed := false, epoch := s.epoch + 1,
               finishers := s.finishers + [Finisher(s.epoch + 1, None, None, Draining)], closed := s.closed + [0])
  {
    hide Run;
    TwoSteps(s, Start(true), Stop);
  }

  lemma {:induction false} BothDrain(s: State, f: nat, workflow: bool, activity: bool)
    requires f < |s.finishers| && s.finishers[f].phase.Draining? && s.finishers[f].workflow.None? &&
      s.finishers[f].activity.None?
    ensures Run(s, [WorkflowDrained(f, workflow), ActivityDrained(f, activity)]) ==
            s.(finishers := s.finishers[f := Finisher(s.finishers[f].epoch, Some(workflow), Some(activity), Draining)])
  {
    hide Run;
    TwoSteps(s, WorkflowDrained(f, workflow), ActivityDrained(f, activity));
  }

  /** After a drain without error the backend is stopped, and the hub is down again. */
  lemma {:induction false} Stopped(s: State, f: nat, ok: bool)
    requires FinisherInv(s) && f < |s.finishers| && s.finishers[f].phase.Draining? && Drained(s.finishers[f])
    ensures Run(s, [Decide(f), StopBackend(f, ok)] + [Report(f)]) ==
            s.(started := false, stopping := false, failed := !ok, backendStops := s.backendStops + [f],
               finishers := s.finishers[f := s.finishers[f].(phase := Finished)], closed := s.closed[f := 1])
  {
    AtWorkIsLast(s, f);
    hide Run, FinisherInv;
    RunAppend(s, [Decide(f), StopBackend(f, ok)], [Report(f)]);
    TwoSteps(s, Decide(f), StopBackend(f, ok));
    var s2 := Next(Next(s, Decide(f)), StopBackend(f, ok));
    OneStep(s2, Report(f));
  }

  lemma {:induction false} OneStep(s: State, step: Step)
    ensures Run(s, [step]) == Next(s, step)
  {
    assert [step][1..] == [];
  }

  /** After a drain with an error the backend keeps running and the hub stays stopping. */
  lemma {:induction false} NotStopped(s: State, f: nat)
    requires FinisherInv(s) && f < |s.finishers| && s.finishers[f].phase.Draining?
    requires s.finishers[f].workflow.Some? && s.finishers[f].activity.Some? && !Drained(s.finishers[f])
    ensures Run(s, [Decide(f), Report(f)]) ==
            s.(failed := true, finishers := s.finishers[f := s.finishers[f].(phase := Finished)],
               closed := s.closed[f := 1])
  {
    AtWorkIsLast(s, f);
    hide Run, FinisherInv;
    TwoSteps(s, Decide(f), Report(f));
  }

  lemma LastReplaced<T>(q: seq<T>, x: T, y: T)
    ensures (q + [x])[|q| := y] == q + [y] && (q + [x])[|q|] == x
  {
  }

  /** A new epoch whose workers have both reported. */
  function Reported(s: State, workflow: bool, activity: bool): State {
    s.(started := true, stopping := true, failed := false, epoch := s.epoch + 1,
       finishers := s.finishers + [Finisher(s.epoch + 1, Some(workflow), Some(activity), Draining)],
       closed := s.closed + [0])
  }

  lemma {:induction false} EpochReported(s: State, workflow: bool, activity: bool)
    requires FinisherInv(s) && BackendInv(s) && !s.started && !s.stopping
    ensures var f := |s.finishers|;
            Run(Run(s, [Start(true), Stop]), [WorkflowDrained(f, workflow), ActivityDrained(f, activity)]) ==
            Reported(s, workflow, activity)
    ensures FinisherInv(Reported(s, workflow, activity)) && |s.closed| == |s.finishers|
  {
    SameLength(s);
    hide FinisherInv, BackendInv, Run;
    var f := |s.finishers|;
    StartsAndStops(s);
    RunKeepsInv(s, [Start(true), Stop]);
    var s1 := Run(s, [Start(true), Stop]);
    LastReplaced(s.finishers, Finisher(s.epoch + 1, None, None, Draining),
                 Finisher(s.epoch + 1, Some(workflow), Some(activity), Draining));
    BothDrain(s1, f, workflow, activity);
    RunKeepsInv(s1, [WorkflowDrained(f, workflow), ActivityDrained(f, activity)]);
  }

  lemma SameLength(s: State)
    requires FinisherInv(s)
    ensures |s.closed| == |s.finishers|
  {
  }

  lemma {:induction false} EpochEnds(s: State, workflow: bool, activity: bool, ok: bool)
    requires FinisherInv(Reported(s, workflow, activity)) && |s.closed| == |s.finishers|
    ensures var f, drained := |s.finishers|, workflow && activity;
            var end := if drained then [Decide(f), StopBackend(f, ok)] + [Report(f)] else [Decide(f), Report(f)];
            Run(Reported(s, workflow, activity), end) ==
            s.(started := !drained, stopping := !drained, failed := !(drained && ok), epoch := s.epoch + 1,
               finishers := s.finishers + [Finisher(s.epoch + 1, Some(workflow), Some(activity), Finished)],
               closed := s.closed + [1], backendStops := s.backendStops + (if drained then [f] else []))
  {
    hide FinisherInv, Run;
    var f, x := |s.finishers|, Finisher(s.epoch + 1, Some(workflow), Some(activity), Draining);
    LastReplaced(s.finishers, x, x.(phase := Finished));
    LastReplaced(s.closed, 0, 1);
    var s2 := Reported(s, workflow, activity);
    if workflow && activity { Stopped(s2, f, ok); } else { NotStopped(s2, f); }
  }

  /**
   In every reachable state in which the hub is down it starts and stops again: if both workers drain without
   error the backend is stopped once and the hub is down, ready for another start; otherwise the backend is not
   stopped and the hub stays stopping. Whoever waits is told once, and whether it failed.
   */
  lemma {:induction false} WholeEpoch(steps: seq<Step>, workflow: bool, activity: bool, ok: bool)
    requires !Run(INIT, steps).started
    ensures var s := Run(INIT, steps);
            var f, drained := |s.finishers|, workflow && activity;
            var end := if drained then [Decide(f), StopBackend(f, ok)] + [Report(f)] else [Decide(f), Report(f)];
            var drain := [WorkflowDrained(f, workflow), ActivityDrained(f, activity)];
            var s' := Run(Run(Run(s, [Start(true), Stop]), drain), end);
            && s'.epoch == s.epoch + 1 && s'.closed == s.closed + [1]
            && s'.finishers == s.finishers + [Finisher(s.epoch + 1, Some(workflow), Some(activity), Finished)]
            && s'.backendStops == s.backendStops + (if drained then [f] else [])
            && s'.started == s'.stopping == !drained && s'.failed == !(drained && ok)
  {
    hide FinisherInv, BackendInv, Run, Next, Reported;
    ReachableInv(steps);
    var s := Run(INIT, steps);
    EpochReported(s, workflow, activity);
    EpochEnds(s, workflow, activity, ok);
  }

  lemma {:induction false} ReachableInv(steps: seq<Step>)
    ensures var s := Run(INIT, steps); FinisherInv(s) && BackendInv(s) && (s.stopping ==> s.started)
  {
    RunKeepsInv(INIT, steps);
  }
}
