/**
 Retry chains (task/retry.go:35-80) and the recursive form they replace (task/orchestrator.go:577-612).

 What the chain observes is a World: how each attempt and each backoff timer ends in the history,
 and the delay the policy computes for an attempt's error, zero meaning that it gives up.
 */
module Retry {
  import opened Work

  datatype Error =
    | Failure(details: string)
    | TaskCanceled
    | HistoryError(reason: string)
    | DecodeError
    | TimerError(reason: string, cause: Error)

  datatype Ended = Well | Badly | ByCancel

  /**
   How awaiting an attempt ends. A step of the replay can fail before the attempt is complete (Broken), or
   after it has completed the attempt (Interrupted): awaiting then returns the error of the step.
   */
  datatype Attempt =
    | Succeeded(payload: string, decodable: bool)
    | Failed(details: string, executionId: string)
    | Canceled(executionId: string)
    | Interrupted(ended: Ended, reason: string, executionId: string)
    | Broken(reason: string)
    | Pending

  datatype Backoff = Fired | TimerFailed(reason: string) | Waiting

  datatype World = World(attempt: nat -> Attempt, timer: nat -> Backoff, delay: (nat, Error) -> nat, maxAttempts: int)

  datatype Act = Schedule(executionId: string, isRetry: bool) | CreateTimer(delay: nat, executionId: string)

  /** What awaiting a chain gives; a chain that is blocked is replayed in a later turn. */
  datatype Result = Success(payload: string) | Fault(error: Error) | Blocked

  function Decode(payload: string, decodable: bool): Result {
    if decodable then Success(payload) else Fault(DecodeError)
  }

  /** The policy asks for another attempt after this one. */
  predicate Retries(w: World, k: nat, e: Error) {
    k + 1 < w.maxAttempts && w.delay(k, e) != 0
  }

  /** The iterative chain from attempt k, which is already scheduled. */
  function Chain(w: World, k: nat, id: string): (seq<Act>, Result)
    decreases w.maxAttempts - k
  {
    match w.attempt(k)
    case Succeeded(payload, decodable) => ([], Decode(payload, decodable))
    case Pending => ([], Blocked)
    case Broken(reason) => ([], Fault(HistoryError(reason)))
    case Failed(details, x) => Backed(w, k, Failure(details), x)
    case Canceled(x) => Backed(w, k, TaskCanceled, if x == "" then id else x)
    case Interrupted(ended, reason, x) =>
      Backed(w, k, HistoryError(reason), if ended.ByCancel? && x == "" then id else x)
  }

  function Backed(w: World, k: nat, e: Error, id: string): (seq<Act>, Result)
    decreases w.maxAttempts - k, 0
  {
    if !Retries(w, k, e) then ([], Fault(e))
    else
      var timer := CreateTimer(w.delay(k, e), id);
      match w.timer(k)
      case Waiting => ([timer], Blocked)
      case TimerFailed(reason) => ([timer], Fault(TimerError(reason, e)))
      case Fired =>
        var (acts, r) := Chain(w, k + 1, id);
        ([timer, Schedule(id, true)] + acts, r)
  }

  /** What the recursive form takes for the failure of an attempt, with the identity it then uses. */
  function FailureOf(a: Attempt): Option<(Error, string)> {
    match a
    case Succeeded(_, decodable) => if decodable then None else Some((DecodeError, ""))
    case Pending => None
    case Broken(reason) => Some((HistoryError(reason), ""))
    case Failed(details, x) => Some((Failure(details), x))
    case Canceled(x) => Some((TaskCanceled, x))
    case Interrupted(_, reason, x) => Some((HistoryError(reason), x))
  }

  /** The recursive chain from attempt k, which is already scheduled. */
  function Legacy(w: World, k: nat): (seq<Act>, Result)
    decreases w.maxAttempts - k
  {
    var f := FailureOf(w.attempt(k));
    if f.None? then ([], if w.attempt(k).Pending? then Blocked else Success(w.attempt(k).payload))
    else if !Retries(w, k, f.value.0) then ([], Fault(f.value.0))
    else
      var timer := CreateTimer(w.delay(k, f.value.0), f.value.1);
      match w.timer(k)
      case Waiting => ([timer], Blocked)
      case TimerFailed(reason) => ([timer], Fault(TimerError(reason, f.value.0)))
      case Fired =>
        var (acts, r) := Legacy(w, k + 1);
        ([timer, Schedule(f.value.1, true)] + acts, r)
  }

  /******* When the two forms agree *******/

  /**
   At this attempt the recursive form does something else: it retries what must not be retried, or loses the identity.
   */
  predicate DivergesAt(w: World, k: nat, id: string) {
    match w.attempt(k)
    case Succeeded(_, decodable) => !decodable && Retries(w, k, DecodeError)
    case Broken(reason) => Retries(w, k, HistoryError(reason))
    case Canceled(x) => x == "" && id != "" && Retries(w, k, TaskCanceled)
    case Interrupted(ended, reason, x) => ended.ByCancel? && x == "" && id != "" && Retries(w, k, HistoryError(reason))
    case Failed(_, _) => false
    case Pending => false
  }

  /** The identity the next attempt is scheduled with. */
  function NextId(a: Attempt, id: string): string {
    match a
    case Failed(_, x) => x
    case Canceled(x) => if x == "" then id else x
    case Interrupted(ended, _, x) => if ended.ByCancel? && x == "" then id else x
    case _ => id
  }

  /** Whether the chain goes on to attempt k + 1. */
  predicate GoesOn(w: World, k: nat) {
    match w.attempt(k)
    case Failed(details, _) => Retries(w, k, Failure(details)) && w.timer(k).Fired?
    case Canceled(_) => Retries(w, k, TaskCanceled) && w.timer(k).Fired?
    case Interrupted(_, reason, _) => Retries(w, k, HistoryError(reason)) && w.timer(k).Fired?
    case _ => false
  }

  predicate Diverges(w: World, k: nat, id: string)
    decreases w.maxAttempts - k
  {
    DivergesAt(w, k, id) || (GoesOn(w, k) && Diverges(w, k + 1, NextId(w.attempt(k), id)))
  }

  /** The two forms do the same exactly when no attempt on the way diverges. */
  lemma {:induction false} SameUnlessDiverges(w: World, k: nat, id: string)
    ensures Chain(w, k, id) == Legacy(w, k) <==> !Diverges(w, k, id)
    decreases w.maxAttempts - k
  {
    if GoesOn(w, k) {
      var id' := NextId(w.attempt(k), id);
      SameUnlessDiverges(w, k + 1, id');
      var e := FailureOf(w.attempt(k)).value.0;
      var timer := CreateTimer(w.delay(k, e), id');
      assert Chain(w, k, id).0 == [timer, Schedule(id', true)] + Chain(w, k + 1, id').0;
      assert Chain(w, k, id).0[0] == timer && Chain(w, k, id).0[2..] == Chain(w, k + 1, id').0;
      var legacy := CreateTimer(w.delay(k, e), FailureOf(w.attempt(k)).value.1);
      assert Legacy(w, k).0 == [legacy, Schedule(legacy.executionId, true)] + Legacy(w, k + 1).0;
      assert Legacy(w, k).0[0] == legacy && Legacy(w, k).0[2..] == Legacy(w, k + 1).0;
    } else if DivergesAt(w, k, id) {
      assert Legacy(w, k).0 != [];
    }
  }

  /** No decoding error, no history error and no anonymous cancellation: nothing changes for the chain. */
  lemma {:induction false} SameOnRecordedOutcomes(w: World, k: nat, id: string)
    requires forall j :: k <= j < w.maxAttempts || j == k ==> Recorded(w.attempt(j))
    ensures Chain(w, k, id) == Legacy(w, k)
    decreases w.maxAttempts - k
  {
    NoneDiverges(w, k, id);
    SameUnlessDiverges(w, k, id);
  }

  predicate Recorded(a: Attempt) {
    match a
    case Succeeded(_, decodable) => decodable
    case Failed(_, _) => true
    case Canceled(x) => x != ""
    case Interrupted(ended, _, x) => !ended.ByCancel? || x != ""
    case Broken(_) => false
    case Pending => true
  }

  lemma {:induction false} NoneDiverges(w: World, k: nat, id: string)
    requires forall j :: k <= j < w.maxAttempts || j == k ==> Recorded(w.attempt(j))
    ensures !Diverges(w, k, id)
    decreases w.maxAttempts - k
  {
    assert Recorded(w.attempt(k));
    if GoesOn(w, k) { NoneDiverges(w, k + 1, NextId(w.attempt(k), id)); }
  }

  /******* The number of attempts *******/

  function Scheduled(acts: seq<Act>): nat {
    if acts == [] then 0 else (if acts[|acts| - 1].Schedule? then 1 else 0) + Scheduled(acts[..|acts| - 1])
  }

  lemma {:induction false} ScheduledConcat(a: seq<Act>, b: seq<Act>)
    ensures Scheduled(a + b) == Scheduled(a) + Scheduled(b)
  {
    if b == [] {
      assert a + b == a;
    } else {
      assert (a + b)[..|a + b| - 1] == a + b[..|b| - 1];
      ScheduledConcat(a, b[..|b| - 1]);
    }
  }

  /** What a chain does after an attempt that did not succeed outright. */
  lemma {:induction false} ChainIsBacked(w: World, k: nat, id: string)
    requires w.attempt(k).Failed? || w.attempt(k).Canceled? || w.attempt(k).Interrupted?
    ensures Chain(w, k, id) == Backed(w, k, FailureOf(w.attempt(k)).value.0, NextId(w.attempt(k), id))
  {
  }

  /** A timer and the next attempt, followed by what comes after it. */
  lemma {:induction false} ScheduledTwo(timer: Act, next: Act, rest: seq<Act>)
    requires timer.CreateTimer? && next.Schedule?
    ensures Scheduled([timer, next] + rest) == 1 + Scheduled(rest)
  {
    ScheduledConcat([timer, next], rest);
    ScheduledConcat([timer], [next]);
    assert [timer] + [next] == [timer, next] && [timer][..0] == [] && [next][..0] == [];
  }

  /** Including the attempt already scheduled, a chain never makes more attempts than the policy allows. */
  lemma {:induction false} AttemptsBounded(w: World, k: nat, id: string)
    ensures k + 1 + Scheduled(Chain(w, k, id).0) <= if w.maxAttempts > k then w.maxAttempts else k + 1
    decreases w.maxAttempts - k
  {
    if GoesOn(w, k) {
      var id', e := NextId(w.attempt(k), id), FailureOf(w.attempt(k)).value.0;
      AttemptsBounded(w, k + 1, id');
      ChainIsBacked(w, k, id);
      ScheduledTwo(CreateTimer(w.delay(k, e), id'), Schedule(id', true), Chain(w, k + 1, id').0);
    } else {
      OneTimerAtMost(w, k, id);
    }
  }

  lemma {:induction false} OneTimerAtMost(w: World, k: nat, id: string)
    requires !GoesOn(w, k)
    ensures Scheduled(Chain(w, k, id).0) == 0
  {
    if w.attempt(k).Failed? || w.attempt(k).Canceled? || w.attempt(k).Interrupted? {
      var id', e := NextId(w.attempt(k), id), FailureOf(w.attempt(k)).value.0;
      ChainIsBacked(w, k, id);
      assert [CreateTimer(w.delay(k, e), id')][..0] == [];
    }
  }

  /** The attempt failed, the policy waits for some time, and the wait ends. */
  predicate FailsAndWaits(w: World, j: nat) {
    w.attempt(j).Failed? && w.delay(j, Failure(w.attempt(j).details)) != 0 && w.timer(j).Fired?
  }

  /** A wait of the policy's delay and the next attempt, under the identity of the failed one, for each attempt. */
  function Repeats(w: World, k: nat, n: nat): seq<Act>
    requires k <= n && forall j :: k <= j < n ==> FailsAndWaits(w, j)
    decreases n - k
  {
    if k == n then []
    else
      assert FailsAndWaits(w, k);
      var a := w.attempt(k);
      [CreateTimer(w.delay(k, Failure(a.details)), a.executionId), Schedule(a.executionId, true)] + Repeats(w, k + 1, n)
  }

  lemma {:induction false} RepeatsSchedule(w: World, k: nat, n: nat)
    requires k <= n && forall j :: k <= j < n ==> FailsAndWaits(w, j)
    ensures Scheduled(Repeats(w, k, n)) == n - k
    decreases n - k
  {
    if k < n {
      assert FailsAndWaits(w, k);
      var a := w.attempt(k);
      RepeatsSchedule(w, k + 1, n);
      ScheduledTwo(CreateTimer(w.delay(k, Failure(a.details)), a.executionId), Schedule(a.executionId, true),
                   Repeats(w, k + 1, n));
    }
  }

  /** How a chain ends whose attempt n is not followed by another. */
  function LastResult(a: Attempt): Option<Result> {
    match a
    case Succeeded(payload, true) => Some(Success(payload))
    case Failed(details, _) => Some(Fault(Failure(details)))
    case Pending => Some(Blocked)
    case _ => None
  }

  /**
   The chain makes exactly the attempts that the policy asks for: as long as attempts fail, delays are not zero
   and timers fire it goes on, up to the last attempt allowed; it ends with the first attempt that does not
   fail, or fails without a delay, and has the result of that attempt.
   */
  lemma {:induction false} AttemptsExact(w: World, k: nat, n: nat, id: string)
    requires k <= n && (k < n ==> n < w.maxAttempts) && forall j :: k <= j < n ==> FailsAndWaits(w, j)
    requires var a := w.attempt(n);
             || (a.Succeeded? && a.decodable) || a.Pending?
             || (a.Failed? && (n + 1 >= w.maxAttempts || w.delay(n, Failure(a.details)) == 0))
    ensures Chain(w, k, id).0 == Repeats(w, k, n) && Scheduled(Chain(w, k, id).0) == n - k
    ensures Some(Chain(w, k, id).1) == LastResult(w.attempt(n))
    decreases n - k
  {
    RepeatsSchedule(w, k, n);
    if k < n {
      assert FailsAndWaits(w, k);
      AttemptsExact(w, k + 1, n, w.attempt(k).executionId);
    }
  }

  /** A chain whose attempts all fail makes exactly as many as the policy allows, and fails as the last one did. */
  lemma {:induction false} AllAttemptsMade(w: World, id: string)
    requires w.maxAttempts >= 1 && forall j :: 0 <= j < w.maxAttempts - 1 ==> FailsAndWaits(w, j)
    requires w.attempt(w.maxAttempts - 1).Failed?
    ensures 1 + Scheduled(Chain(w, 0, id).0) == w.maxAttempts
    ensures Chain(w, 0, id).1 == Fault(Failure(w.attempt(w.maxAttempts - 1).details))
  {
    AttemptsExact(w, 0, w.maxAttempts - 1, id);
  }

  /******* Attempts that succeeded and run again *******/

  predicate HasSucceeded(a: Attempt) {
    a.Succeeded? || (a.Interrupted? && a.ended.Well?)
  }

  /** The error that makes a form run a successful attempt again, if any. */
  function Spoiled(a: Attempt, legacy: bool): Option<Error> {
    if a.Interrupted? then Some(HistoryError(a.reason))
    else if legacy && a.Succeeded? && !a.decodable then Some(DecodeError)
    else None
  }

  predicate RunsAgain(w: World, k: nat, legacy: bool) {
    var e := Spoiled(w.attempt(k), legacy);
    e.Some? && Retries(w, k, e.value) && w.timer(k).Fired?
  }

  /**
   A successful attempt runs again exactly if the step that completed it failed afterwards, the policy retries
   that error and the retry timer fires; in the recursive form also if its result cannot be decoded.
   */
  lemma {:induction false} SuccessRunsAgainIff(w: World, k: nat, id: string)
    requires HasSucceeded(w.attempt(k))
    ensures Scheduled(Chain(w, k, id).0) > 0 <==> RunsAgain(w, k, false)
    ensures Scheduled(Legacy(w, k).0) > 0 <==> RunsAgain(w, k, true)
  {
    var a := w.attempt(k);
    if a.Interrupted? && GoesOn(w, k) {
      var id', e := NextId(a, id), HistoryError(a.reason);
      ChainIsBacked(w, k, id);
      ScheduledTwo(CreateTimer(w.delay(k, e), id'), Schedule(id', true), Chain(w, k + 1, id').0);
    } else {
      OneTimerAtMost(w, k, id);
    }
    LegacyRunsAgain(w, k);
  }

  lemma {:induction false} LegacyRunsAgain(w: World, k: nat)
    requires HasSucceeded(w.attempt(k))
    ensures Scheduled(Legacy(w, k).0) > 0 <==> RunsAgain(w, k, true)
  {
    var f := FailureOf(w.attempt(k));
    if f.Some? && Retries(w, k, f.value.0) {
      var timer := CreateTimer(w.delay(k, f.value.0), f.value.1);
      if w.timer(k).Fired? {
        ScheduledTwo(timer, Schedule(f.value.1, true), Legacy(w, k + 1).0);
      } else {
        assert [timer][..0] == [];
      }
    }
  }

  /******* The iterative chain as an object *******/

  class RetryTask {
    const world: World
    var retryCount: nat
    var finished: bool
    var terminalError: Option<Error>
    var dispatchExecutionID: string
    var recordedExecutionID: string
    ghost var acts: seq<Act>

    /** A finished chain without an error has a last attempt that succeeded. */
    ghost predicate Valid()
      reads this
    {
      && (finished && terminalError.None? ==> world.attempt(retryCount).Succeeded?)
      && (!finished ==> terminalError.None?)
    }

    /** What awaiting the chain does from here on. */
    ghost function Outcome(): (seq<Act>, Result)
      requires Valid()
      reads this
    {
      if !finished then Chain(world, retryCount, dispatchExecutionID)
      else if terminalError.Some? then ([], Fault(terminalError.value))
      else ([], Decode(world.attempt(retryCount).payload, world.attempt(retryCount).decodable))
    }

    constructor (w: World, executionID: string)
      ensures Valid() && world == w && !finished && retryCount == 0 && dispatchExecutionID == executionID
      ensures acts == [Schedule(executionID, false)]
    {
      world := w;
      retryCount, finished, terminalError := 0, false, None;
      dispatchExecutionID, recordedExecutionID := executionID, "";
      acts := [Schedule(executionID, false)];
    }

    method Finish(error: Option<Error>)
      requires Valid() && !finished && (error.None? ==> world.attempt(retryCount).Succeeded?)
      modifies this`finished, this`terminalError
      ensures Valid() && finished && terminalError == error
    {
      finished, terminalError := true, error;
    }

    /** Observes the current attempt and, if the policy asks for it, makes the next one. */
    method Advance() returns (blocked: bool, ghost done: seq<Act>)
      requires Valid() && !finished
      modifies this
      ensures Valid() && acts == old(acts) + done
      ensures old(Outcome()).0 == (if blocked then done else done + Outcome().0) &&
        old(Outcome()).1 == if blocked then Blocked else Outcome().1
      ensures !blocked && !finished ==> retryCount == old(retryCount) + 1 < world.maxAttempts
    {
      blocked, done := false, [];
      var current := world.attempt(retryCount);
      if current.Pending? {
        blocked := true;
        return;
      }
      if current.Succeeded? || current.Broken? {
        Finish(if current.Broken? then Some(HistoryError(current.reason)) else None);
        return;
      }
      var err := if current.Failed? then Failure(current.details)
                 else if current.Canceled? then TaskCanceled else HistoryError(current.reason);
      var isCanceled := current.Canceled? || (current.Interrupted? && current.ended.ByCancel?);
      if !isCanceled || current.executionId != "" {
        dispatchExecutionID, recordedExecutionID := current.executionId, current.executionId;
      }
      assert old(Outcome()) == Backed(world, retryCount, err, dispatchExecutionID);
      if retryCount + 1 >= world.maxAttempts || world.delay(retryCount, err) == 0 {
        Finish(Some(err));
        return;
      }
      done := [CreateTimer(world.delay(retryCount, err), dispatchExecutionID)];
      acts := acts + done;
      match world.timer(retryCount) {
        case Waiting => blocked := true;
        case TimerFailed(reason) => Finish(Some(TimerError(reason, err)));
        case Fired =>
          retryCount := retryCount + 1;
          done := done + [Schedule(dispatchExecutionID, true)];
          acts := acts + [Schedule(dispatchExecutionID, true)];
      }
    }

    /** Does what the chain prescribes; once it has finished, awaiting it again schedules nothing. */
    method Await() returns (r: Result)
      requires Valid()
      modifies this
      ensures Valid() && acts == old(acts) + old(Outcome()).0 && r == old(Outcome()).1
      ensures r != Blocked ==> finished && Outcome() == ([], r)
    {
      ghost var all, done := Outcome(), [];
      while !finished
        invariant Valid() && acts == old(acts) + done && all.0 == done + Outcome().0 && all.1 == Outcome().1
        decreases !finished, world.maxAttempts - retryCount
      {
        ghost var mid := Outcome();
        var blocked, more := Advance();
        assert done + mid.0 == done + more + (if blocked then [] else Outcome().0);
        done := done + more;
        if blocked { return Blocked; }
      }
      if terminalError.Some? { return Fault(terminalError.value); }
      r := Decode(world.attempt(retryCount).payload, world.attempt(retryCount).decodable);
    }
  }
}
