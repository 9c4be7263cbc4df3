/**
 The vocabulary shared by the replay engine: the work a workflow schedules, the
 history events that report on it, and the keys that correlate the two.
 */
module Work {

  datatype Option<+T> = None | Some(value: T)

  /** A member of a nonempty set. */
  lemma Member<T>(s: set<T>) returns (x: T)
    requires s != {}
    ensures x in s
  {
    x :| x in s;
  }

  /** Takes a member of a set in no particular order. */
  method Pick<T>(s: set<T>) returns (x: T)
    requires s != {}
    ensures x in s
  {
    x :| x in s;
  }

  lemma Difference<T>(a: set<T>, b: set<T>) returns (x: T)
    requires b <= a && a != b
    ensures x in a && x !in b
  {
    assert !(a <= b);
    x :| x in a && x !in b;
  }

  /** The fire time of a wait without a timeout: 9999-12-31T23:59:59.999999999Z in Unix nanoseconds. */
  const INDEFINITE: int := 253402300799999999999

  /** An external event name, already normalised. */
  datatype Name = Name(text: string)

  datatype Origin =
    | UserTimer
    | ExternalEvent(name: Name)
    | ActivityRetry(executionId: string)
    | ChildRetry(instanceId: string)

  datatype Status = Completed | Failed | Terminated | ContinuedAsNew

  /** What a workflow action asks the backend to do. */
  datatype Work =
    | Activity(name: string)
    | Child(name: string)
    | Timer(origin: Origin, fireAt: int)
    | Detached(instanceId: string)
    | Completion(status: Status)
    | VersionNotAvailable

  /** One allocation of a sequence number; n makes every allocation distinct. */
  datatype Item = Item(n: nat, work: Work)

  /** A pending workflow action. Its id changes when a replay renumbers it; its item does not. */
  datatype Action = Action(id: int, item: Item, executionId: string)

  datatype Kind = TaskKind | TimerKind | ChildKind

  datatype ResolutionKey = Key(kind: Kind, id: int)

  /** History events that resolve scheduled work. */
  datatype Resolution =
    | TaskCompleted(id: int, executionId: string, result: string)
    | TaskFailed(id: int, executionId: string, details: string)
    | TimerFired(id: int)
    | ChildCompleted(id: int, result: string)
    | ChildFailed(id: int, details: string)
  {
    function KindOf(): Kind {
      match this
      case TaskCompleted(_, _, _) => TaskKind
      case TaskFailed(_, _, _) => TaskKind
      case TimerFired(_) => TimerKind
      case ChildCompleted(_, _) => ChildKind
      case ChildFailed(_, _) => ChildKind
    }

    function KeyOf(): ResolutionKey {
      Key(KindOf(), id)
    }
  }

  /** History events that record that work was scheduled under an id. */
  datatype ScheduleEvent =
    | TaskScheduled(id: int)
    | ChildCreated(id: int)
    | TimerCreated(id: int, origin: Origin, fireAt: int)
    | DetachedCreated(id: int, instanceId: string)

  datatype Outcome =
    | Succeeded(result: string)
    | Faulted(details: string, executionId: string)

  function OutcomeOf(r: Resolution): Outcome {
    match r
    case TaskCompleted(_, _, result) => Succeeded(result)
    case TaskFailed(_, e, details) => Faulted(details, e)
    case TimerFired(_) => Succeeded("")
    case ChildCompleted(_, result) => Succeeded(result)
    case ChildFailed(_, details) => Faulted(details, "")
  }

  /** Work that is awaited through a pending task. */
  predicate HasTask(w: Work) {
    w.Activity? || w.Child? || w.Timer?
  }

  function WorkKind(w: Work): Kind
    requires HasTask(w)
  {
    match w
    case Activity(_) => TaskKind
    case Child(_) => ChildKind
    case Timer(_, _) => TimerKind
  }

  predicate OptionalTimer(origin: Origin, fireAt: int) {
    origin.ExternalEvent? && fireAt == INDEFINITE
  }

  /** The synthetic timer behind a wait without a timeout, which older releases did not record. */
  predicate IsOptional(w: Work) {
    w.Timer? && OptionalTimer(w.origin, w.fireAt)
  }

  predicate IsTerminal(w: Work) {
    w.Completion? || w.VersionNotAvailable?
  }

  /** Whether a schedule event can retire an action doing this work. */
  predicate Retires(e: ScheduleEvent, w: Work) {
    match e
    case TaskScheduled(_) => w.Activity?
    case ChildCreated(_) => w.Child?
    case TimerCreated(_, _, _) => w.Timer?
    case DetachedCreated(_, instanceId) => w.Detached? && w.instanceId == instanceId
  }
}
