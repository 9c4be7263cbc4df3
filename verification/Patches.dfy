/**
 Patch decisions and their replay (task/orchestrator.go:292-354, 773-801 and 1148-1162, task/task.go:59-87,
 task/executor.go:151-183, backend/orchestration.go:129-139).

 A turn replays the whole history. The patches it answered with true are then stamped on the
 WorkflowStarted event of that turn, and later turns replay the stamped history followed by new
 events. The workflow function is any function of what it observed so far.

 A replay takes one event of the history per step. A step can hand several events to their handlers,
 because a resume hands over the events that were held. Workflow code runs on whenever a step handled
 an event that may complete a task or fail to be processed, even if the same step suspended it again.
 */
module Patches {
  import opened Work

  /**
   Informational events are the kinds that have no handler, ExecutionStalled and ExecutionCompleted. Other
   events are recorded schedules, results, raised events and unknown kinds.

   Whether handling an event is refused depends on the code that ran before, so it is told by the step,
   named by the position of the event it takes: refusedAt holds the steps that refuse the event.
   */
  datatype Event =
    | Started(patches: set<string>)
    | ExecutionStarted
    | Suspended
    | Resumed
    | Terminated
    | Informational
    | Other(content: string, refusedAt: set<nat>)

  /** What the suspension gate sees of an event. */
  datatype Class = Note | Enter | Report(refusedAt: set<nat>) | Suspend | Resume | Terminate

  function ClassOf(e: Event): Class {
    match e
    case Started(_) => Note
    case ExecutionStarted => Enter
    case Suspended => Suspend
    case Resumed => Resume
    case Terminated => Terminate
    case Informational => Note
    case Other(_, refusedAt) => Report(refusedAt)
  }

  function Classes(h: seq<Event>): (c: seq<Class>)
    ensures |c| == |h| && forall i :: 0 <= i < |h| ==> c[i] == ClassOf(h[i])
  {
    seq(|h|, i requires 0 <= i < |h| => ClassOf(h[i]))
  }

  /******* The suspension gate *******/

  /** The gate after some steps: the events held, all that were handled, and those handled by the last step. */
  datatype Gate = Gate(suspended: bool, dead: bool, held: seq<nat>, done: set<nat>, last: seq<nat>)

  const OPEN := Gate(false, false, [], {}, [])

  /** Passes an event that is neither a resumption nor a termination. */
  function Pass(g: Gate, c: Class, i: nat): Gate {
    if g.suspended then g.(held := g.held + [i])
    else g.(done := g.done + {i}, last := g.last + [i], suspended := c == Suspend)
  }

  predicate Below(q: seq<nat>, n: nat) {
    forall k :: 0 <= k < |q| ==> q[k] < n
  }

  predicate Refuses(c: Class, step: nat) {
    c.Report? && step in c.refusedAt
  }

  /** Passes held events until one is refused; the flag says that none was. */
  function PassAll(g: Gate, cs: seq<Class>, held: seq<nat>, step: nat): (Gate, bool)
    requires Below(held, |cs|)
    decreases held
  {
    if held == [] then (g, true)
    else
      var g1 := Pass(g, cs[held[0]], held[0]);
      if !g.suspended && Refuses(cs[held[0]], step) then (g1, false) else PassAll(g1, cs, held[1..], step)
  }

  /** A gate knows only the events before it. */
  ghost predicate Within(g: Gate, n: nat) {
    Below(g.held, n) && Below(g.last, n) && forall i :: i in g.done ==> i < n
  }

  lemma {:induction false} PassAllWithin(g: Gate, cs: seq<Class>, held: seq<nat>, step: nat, n: nat)
    requires Below(held, n) && n <= |cs| && Within(g, n)
    ensures Within(PassAll(g, cs, held, step).0, n)
    decreases held
  {
    if held != [] {
      PassAllWithin(Pass(g, cs[held[0]], held[0]), cs, held[1..], step, n);
    }
  }

  /** A resume that is refused keeps what was held. */
  function StepGate(g: Gate, cs: seq<Class>, i: nat): Gate
    requires i < |cs| && Below(g.held, |cs|)
  {
    var g0 := g.(last := []);
    if g.dead then g0
    else if cs[i] == Terminate then g0.(dead := true)
    else if cs[i] == Resume then
      var (g1, accepted) := PassAll(g0.(suspended := false, done := g.done + {i}), cs, g.held, i);
      if accepted then g1.(held := []) else g1
    else Pass(g0, cs[i], i)
  }

  function GateAt(cs: seq<Class>, n: nat): (g: Gate)
    requires n <= |cs|
    ensures Within(g, n)
  {
    if n == 0 then OPEN
    else
      var g := GateAt(cs, n - 1);
      PassAllWithin(g.(last := [], suspended := false, done := g.done + {n - 1}), cs, g.held, n - 1, n);
      StepGate(g, cs, n - 1)
  }

  /** The last of n steps handled an event after which workflow code can run on. */
  predicate Wakes(cs: seq<Class>, n: nat)
    requires n <= |cs|
  {
    var g := GateAt(cs, n);
    exists k :: 0 <= k < |g.last| && (cs[g.last[k]].Report? || cs[g.last[k]].Enter?)
  }

  /** Waiting takes events until a step ends the wait. */
  function NextWake(cs: seq<Class>, n: nat, ends: set<nat>): (next: Option<nat>)
    requires n <= |cs|
    ensures next.Some? ==> n < next.value <= |cs| && Wakes(cs, next.value)
    decreases |cs| - n
  {
    if n == |cs| then None
    else if Wakes(cs, n + 1) && n + 1 in ends then Some(n + 1)
    else NextWake(cs, n + 1, ends)
  }

  /** The step that enters the workflow function, by handling the ExecutionStarted event it takes. */
  function NextEntry(cs: seq<Class>, n: nat): (next: Option<nat>)
    requires n <= |cs|
    ensures next.Some? ==> n < next.value <= |cs| && Wakes(cs, next.value)
    decreases |cs| - n
  {
    if n == |cs| then None
    else
      var g := GateAt(cs, n);
      if cs[n] == Enter && !g.suspended && !g.dead then
        assert GateAt(cs, n + 1).last == [] + [n];
        assert GateAt(cs, n + 1).last[0] == n;
        Some(n + 1)
      else NextEntry(cs, n + 1)
  }

  /** The patches of the WorkflowStarted events handled so far. */
  ghost predicate Known(h: seq<Event>, g: Gate, name: string) {
    exists i :: i in g.done && i < |h| && h[i].Started? && name in h[i].patches
  }

  /******* Running the workflow function *******/

  /** A wait is told by its ends: the positions after whose steps the awaited task is complete or awaiting it fails. */
  datatype Op = Ask(name: string) | Await(ends: set<nat>) | Stop

  datatype Obs = Answer(patched: bool) | Saw(events: seq<Event>)

  datatype Run = Run(at: nat, applied: map<string, bool>, encountered: set<string>, trace: seq<Obs>, ended: bool)

  /** The workflow function has just been entered, or never is. */
  function Begin(h: seq<Event>): (r: Run)
    ensures r.at <= |h|
  {
    var entry := NextEntry(Classes(h), 0);
    if entry.Some? then Run(entry.value, map[], {}, [], false) else Run(0, map[], {}, [], true)
  }

  /** The decision for a name, given its earlier decision, the history and the position in it. */
  ghost function IsPatched(h: seq<Event>, r: Run, name: string): bool
    requires r.at <= |h|
  {
    if name in r.applied then r.applied[name]
    else Known(h, GateAt(Classes(h), r.at), name) || r.at == |h|
  }

  /** The workflow sees an event, but not what was stamped on it. */
  function Visible(e: Event): Event {
    if e.Started? then Started({}) else e
  }

  function VisibleAll(es: seq<Event>): (v: seq<Event>)
    ensures |v| == |es| && forall i :: 0 <= i < |es| ==> v[i] == Visible(es[i])
  {
    seq(|es|, i requires 0 <= i < |es| => Visible(es[i]))
  }

  ghost function Step(next: seq<Obs> -> Op, h: seq<Event>, r: Run): (r': Run)
    requires r.at <= |h|
    ensures r'.at <= |h|
  {
    if r.ended then r
    else match next(r.trace)
      case Ask(name) =>
        var b := IsPatched(h, r, name);
        r.(applied := r.applied[name := b], encountered := if b then r.encountered + {name} else r.encountered,
           trace := r.trace + [Answer(b)])
      case Await(ends) =>
        var j := NextWake(Classes(h), r.at, ends);
        if j.None? then r.(ended := true)
        else r.(at := j.value, trace := r.trace + [Saw(VisibleAll(h[r.at..j.value]))])
      case Stop => r.(ended := true)
  }

  ghost function Exec(next: seq<Obs> -> Op, h: seq<Event>, n: nat): (r: Run)
    ensures r.at <= |h|
  {
    if n == 0 then Begin(h) else Step(next, h, Exec(next, h, n - 1))
  }

  /** The history the next turn replays. */
  ghost function Stamped(next: seq<Obs> -> Op, h: seq<Event>, w: nat, n: nat, more: seq<Event>): seq<Event>
    requires w < |h|
  {
    h[w := Started(Exec(next, h, n).encountered)] + more
  }

  /** If workflow code can run at the end of the turn, the WorkflowStarted event of the turn was handled. */
  ghost predicate StartHandled(h: seq<Event>, w: nat) {
    NextEntry(Classes(h), 0).Some? && Wakes(Classes(h), |h|) ==> w in GateAt(Classes(h), |h|).done
  }

  /******* The gate does not depend on what is stamped or on later events *******/

  ghost predicate Prefix(a: seq<Class>, b: seq<Class>) {
    |a| <= |b| && forall i :: 0 <= i < |a| ==> a[i] == b[i]
  }

  lemma {:induction false} PassAllPrefix(g: Gate, a: seq<Class>, b: seq<Class>, held: seq<nat>, step: nat)
    requires Prefix(a, b) && Below(held, |a|)
    ensures PassAll(g, a, held, step) == PassAll(g, b, held, step)
    decreases held
  {
    if held != [] {
      PassAllPrefix(Pass(g, a[held[0]], held[0]), a, b, held[1..], step);
    }
  }

  lemma {:induction false} GateAtPrefix(a: seq<Class>, b: seq<Class>, n: nat)
    requires Prefix(a, b) && n <= |a|
    ensures GateAt(a, n) == GateAt(b, n)
  {
    hide PassAll, Below;
    if n > 0 {
      GateAtPrefix(a, b, n - 1);
      var g := GateAt(a, n - 1);
      HeldBelow(a, n - 1);
      PassAllPrefix(g.(last := [], suspended := false, done := g.done + {n - 1}), a, b, g.held, n - 1);
    }
  }

  lemma HeldBelow(cs: seq<Class>, n: nat)
    requires n <= |cs|
    ensures Below(GateAt(cs, n).held, |cs|)
  {
  }

  lemma {:induction false} WakesPrefix(a: seq<Class>, b: seq<Class>, n: nat)
    requires Prefix(a, b) && n <= |a|
    ensures Wakes(a, n) == Wakes(b, n)
  {
    hide GateAt;
    GateAtPrefix(a, b, n);
  }

  lemma {:induction false} NextWakePrefix(a: seq<Class>, b: seq<Class>, n: nat, ends: set<nat>)
    requires Prefix(a, b) && n <= |a| && NextWake(a, n, ends).Some?
    ensures NextWake(b, n, ends) == NextWake(a, n, ends)
    decreases |a| - n
  {
    hide Wakes;
    if n < |a| {
      WakesPrefix(a, b, n + 1);
      if !(Wakes(a, n + 1) && n + 1 in ends) { NextWakePrefix(a, b, n + 1, ends); }
    }
  }

  lemma {:induction false} NextEntryPrefix(a: seq<Class>, b: seq<Class>, n: nat)
    requires Prefix(a, b) && n <= |a| && NextEntry(a, n).Some?
    ensures NextEntry(b, n) == NextEntry(a, n)
    decreases |a| - n
  {
    hide Wakes, GateAt;
    if n < |a| {
      GateAtPrefix(a, b, n);
      var g := GateAt(a, n);
      if !(a[n] == Enter && !g.suspended && !g.dead) { NextEntryPrefix(a, b, n + 1); }
    }
  }

  /******* Decisions are made once *******/

  /** Nothing that was observed or decided is revised. */
  ghost predicate Continues(a: Run, b: Run) {
    && (forall name :: name in a.applied ==> name in b.applied && b.applied[name] == a.applied[name])
    && a.encountered <= b.encountered
    && a.trace <= b.trace
    && (a.ended ==> b == a)
  }

  lemma StepContinues(next: seq<Obs> -> Op, h: seq<Event>, r: Run)
    requires r.at <= |h|
    ensures Continues(r, Step(next, h, r))
  {
    hide NextWake, Known;
  }

  lemma {:induction false} DecisionsStay(next: seq<Obs> -> Op, h: seq<Event>, n: nat, m: nat)
    requires n <= m
    ensures Continues(Exec(next, h, n), Exec(next, h, m))
    decreases m
  {
    hide Step, Begin;
    if n < m {
      DecisionsStay(next, h, n, m - 1);
      StepContinues(next, h, Exec(next, h, m - 1));
    }
  }

  lemma {:induction false} EncounteredAreTrue(next: seq<Obs> -> Op, h: seq<Event>, n: nat)
    ensures var r := Exec(next, h, n);
            && (forall name :: name in r.encountered ==> name in r.applied && r.applied[name])
            && (NextEntry(Classes(h), 0).Some? ==> Wakes(Classes(h), r.at))
            && (NextEntry(Classes(h), 0).None? ==> r.ended)
  {
    hide Wakes, NextEntry, Known;
    if n > 0 { EncounteredAreTrue(next, h, n - 1); }
  }

  /******* Replay stability *******/

  /** The second history shows the workflow the first one and possibly more. */
  ghost predicate LooksAlike(h: seq<Event>, h': seq<Event>) {
    |h| <= |h'| && forall i :: 0 <= i < |h| ==> Visible(h[i]) == Visible(h'[i])
  }

  lemma StampedLooksAlike(h: seq<Event>, w: nat, ps: set<string>, more: seq<Event>)
    requires w < |h| && h[w] == Started({})
    ensures LooksAlike(h, h[w := Started(ps)] + more)
  {
  }

  lemma AlikePrefix(h: seq<Event>, h': seq<Event>)
    requires LooksAlike(h, h')
    ensures Prefix(Classes(h), Classes(h'))
  {
    forall i | 0 <= i < |h| ensures ClassOf(h[i]) == ClassOf(h'[i]) {
      assert ClassOf(h[i]) == ClassOf(Visible(h[i]));
      assert ClassOf(h'[i]) == ClassOf(Visible(h'[i]));
    }
  }

  lemma AlikeSlice(h: seq<Event>, h': seq<Event>, i: nat, j: nat)
    requires LooksAlike(h, h') && i <= j <= |h|
    ensures VisibleAll(h[i..j]) == VisibleAll(h'[i..j])
  {
  }

  /** A wait that ends in one history ends the same way in one that looks alike. */
  lemma SameWait(next: seq<Obs> -> Op, h: seq<Event>, h': seq<Event>, r: Run)
    requires LooksAlike(h, h') && r.at <= |h| && !r.ended && next(r.trace).Await?
    requires NextWake(Classes(h), r.at, next(r.trace).ends).Some?
    ensures Step(next, h, r) == Step(next, h', r)
  {
    hide NextWake, LooksAlike, VisibleAll, Classes;
    AlikePrefix(h, h');
    var ends := next(r.trace).ends;
    NextWakePrefix(Classes(h), Classes(h'), r.at, ends);
    AlikeSlice(h, h', r.at, NextWake(Classes(h), r.at, ends).value);
  }

  lemma SameBegin(h: seq<Event>, h': seq<Event>)
    requires LooksAlike(h, h')
    ensures if Begin(h).ended then Begin(h).trace == [] else Begin(h') == Begin(h)
  {
    hide NextEntry, LooksAlike, Classes;
    AlikePrefix(h, h');
    if NextEntry(Classes(h), 0).Some? { NextEntryPrefix(Classes(h), Classes(h'), 0); }
  }

  /** An answer given in a turn is given again in every later replay. */
  lemma SameAnswer(next: seq<Obs> -> Op, h: seq<Event>, w: nat, end: nat, more: seq<Event>, n: nat, name: string)
    requires w < |h| && h[w] == Started({}) && StartHandled(h, w)
    requires n < end && !Exec(next, h, n).ended && next(Exec(next, h, n).trace) == Ask(name)
    ensures IsPatched(h, Exec(next, h, n), name) == IsPatched(Stamped(next, h, w, end, more), Exec(next, h, n), name)
  {
    hide GateAt, Wakes, NextEntry, LooksAlike;
    var r, h' := Exec(next, h, n), Stamped(next, h, w, end, more);
    var ps := Exec(next, h, end).encountered;
    StampedLooksAlike(h, w, ps, more);
    AlikePrefix(h, h');
    GateAtPrefix(Classes(h), Classes(h'), r.at);
    var g := GateAt(Classes(h), r.at);
    EncounteredAreTrue(next, h, n);
    EncounteredAreTrue(next, h, end);
    DecisionsStay(next, h, n + 1, end);
    if name !in r.applied {
      if Known(h, g, name) {
        var i :| i in g.done && i < |h| && h[i].Started? && name in h[i].patches;
        assert h'[i] == h[i];
      } else if r.at < |h| {
        assert name !in ps;
        forall i | i in g.done && i < |h'| && h'[i].Started? ensures name !in h'[i].patches {
          assert i == w || h'[i] == h[i];
        }
      } else {
        assert name in ps && w in g.done;
        assert h'[w] == Started(ps);
      }
    }
  }

  lemma {:induction false} StableStep(next: seq<Obs> -> Op, h: seq<Event>, w: nat, end: nat, more: seq<Event>, n: nat)
    requires w < |h| && h[w] == Started({}) && StartHandled(h, w) && n < end && !Exec(next, h, n).ended
    ensures var a, h' := Exec(next, h, n), Stamped(next, h, w, end, more);
            && a.at <= |h'|
            && (Step(next, h, a) == Step(next, h', a) || (Step(next, h, a).ended && Step(next, h, a).trace == a.trace))
  {
    hide NextWake, Wakes, GateAt, Known, VisibleAll, StartHandled, LooksAlike, Begin, Exec, IsPatched;
    var a, h' := Exec(next, h, n), Stamped(next, h, w, end, more);
    StampedLooksAlike(h, w, Exec(next, h, end).encountered, more);
    match next(a.trace) {
      case Ask(name) => SameAnswer(next, h, w, end, more, n, name);
      case Await(ends) =>
        if NextWake(Classes(h), a.at, ends).Some? { SameWait(next, h, h', a); }
      case Stop =>
    }
  }

  /**
   Replay stability: whatever a turn let the workflow observe, patch decisions included, every
   later replay lets it observe first.
   */
  lemma {:induction false} ReplayStable(next: seq<Obs> -> Op, h: seq<Event>, w: nat, end: nat, more: seq<Event>, n: nat)
    requires w < |h| && h[w] == Started({}) && StartHandled(h, w) && Exec(next, h, end).ended
    ensures var a, b := Exec(next, h, n), Exec(next, Stamped(next, h, w, end, more), n);
            if a.ended then a.trace <= b.trace else a == b
  {
    hide Step, StartHandled, LooksAlike, Begin;
    var h' := Stamped(next, h, w, end, more);
    if n == 0 {
      StampedLooksAlike(h, w, Exec(next, h, end).encountered, more);
      SameBegin(h, h');
    } else {
      ReplayStable(next, h, w, end, more, n - 1);
      var a, b := Exec(next, h, n - 1), Exec(next, h', n - 1);
      StepContinues(next, h, a);
      StepContinues(next, h', b);
      if !a.ended {
        if n - 1 >= end { DecisionsStay(next, h, end, n - 1); }
        StableStep(next, h, w, end, more, n - 1);
      }
    }
  }

  /******* When the WorkflowStarted event of a turn is handled *******/

  /** No suspension arrives while the workflow is already suspended. */
  ghost predicate NoNestedSuspend(cs: seq<Class>) {
    forall n :: 0 <= n < |cs| && cs[n] == Suspend ==> !GateAt(cs, n).suspended
  }

  /** No event is refused. */
  ghost predicate NoneRefused(cs: seq<Class>) {
    forall i :: 0 <= i < |cs| && cs[i].Report? ==> cs[i].refusedAt == {}
  }

  ghost predicate PlainAt(cs: seq<Class>, held: seq<nat>) {
    forall k :: 0 <= k < |held| ==> held[k] < |cs| && cs[held[k]] != Suspend
  }

  lemma {:induction false} PassAllPlain(g: Gate, cs: seq<Class>, held: seq<nat>, step: nat)
    requires PlainAt(cs, held) && Below(held, |cs|) && NoneRefused(cs) && !g.suspended
    ensures var (g', accepted) := PassAll(g, cs, held, step);
            accepted && !g'.suspended && g'.dead == g.dead && g'.held == g.held && g'.done == g.done + set i | i in held
    decreases held
  {
    if held != [] {
      PassAllPlain(Pass(g, cs[held[0]], held[0]), cs, held[1..], step);
      assert held == [held[0]] + held[1..];
    }
  }

  /** Every event is handled or held, and nothing is held unless the workflow is suspended. */
  ghost predicate NothingLost(g: Gate, cs: seq<Class>, n: nat) {
    && PlainAt(cs, g.held)
    && (!g.suspended ==> g.held == [])
    && (!g.dead ==> forall i :: 0 <= i < n ==> i in g.done || i in g.held)
  }

  lemma {:induction false} StepLosesNothing(g: Gate, cs: seq<Class>, n: nat)
    requires n < |cs| && NothingLost(g, cs, n) && Below(g.held, |cs|) && NoneRefused(cs)
    requires cs[n] == Suspend ==> !g.suspended
    ensures var g' := StepGate(g, cs, n);
            && NothingLost(g', cs, n + 1)
            && (g'.suspended ==> g'.last == [] || cs[n] == Suspend)
            && (g'.dead ==> g'.last == [])
  {
    hide PassAll, NoneRefused;
    if !g.dead && cs[n] == Resume {
      PassAllPlain(g.(last := [], suspended := false, done := g.done + {n}), cs, g.held, n);
    }
  }

  lemma {:induction false} GateLosesNothing(cs: seq<Class>, n: nat)
    requires NoNestedSuspend(cs) && NoneRefused(cs) && n <= |cs|
    ensures NothingLost(GateAt(cs, n), cs, n)
    ensures n > 0 && GateAt(cs, n).suspended ==> GateAt(cs, n).last == [] || cs[n - 1] == Suspend
    ensures GateAt(cs, n).dead ==> GateAt(cs, n).last == []
  {
    hide StepGate, NoneRefused, Below;
    if n > 0 {
      GateLosesNothing(cs, n - 1);
      GateNext(cs, n - 1, GateAt(cs, n - 1));
      StepLosesNothing(GateAt(cs, n - 1), cs, n - 1);
    }
  }

  /** Without nested suspensions and refused events the start of a turn is never lost. */
  lemma {:induction false} StartHandledWhen(h: seq<Event>, w: nat)
    requires w < |h| && NoNestedSuspend(Classes(h)) && NoneRefused(Classes(h))
    ensures StartHandled(h, w)
  {
    hide NextEntry, NoNestedSuspend, NoneRefused;
    var cs := Classes(h);
    GateLosesNothing(cs, |h|);
    if cs[|h| - 1] == Suspend { SuspendWakesNobody(cs, |h|); }
  }

  lemma {:induction false} SuspendWakesNobody(cs: seq<Class>, n: nat)
    requires 0 < n <= |cs| && cs[n - 1] == Suspend
    ensures !Wakes(cs, n)
  {
    var g := GateAt(cs, n - 1);
    assert GateAt(cs, n) == if g.dead then g.(last := []) else Pass(g.(last := []), Suspend, n - 1);
  }

  /******* Histories in which the start of a turn is lost *******/

  lemma GateNext(cs: seq<Class>, n: nat, g: Gate)
    requires n < |cs| && GateAt(cs, n) == g
    ensures Below(g.held, |cs|) && GateAt(cs, n + 1) == StepGate(g, cs, n)
  {
  }

  /** A suspended workflow holds an event. */
  lemma HoldNext(cs: seq<Class>, n: nat, held: seq<nat>, done: set<nat>, last: seq<nat>)
    requires n < |cs| && GateAt(cs, n) == Gate(true, false, held, done, last) && cs[n] != Resume && cs[n] != Terminate
    ensures GateAt(cs, n + 1) == Gate(true, false, held + [n], done, [])
  {
    hide PassAll;
    GateNext(cs, n, GateAt(cs, n));
  }

  /** A resume passes the held events, one after the other. */
  lemma ResumeNext(cs: seq<Class>, n: nat, g: Gate)
    requires n < |cs| && GateAt(cs, n) == g && !g.dead && cs[n] == Resume
    ensures Below(g.held, |cs|)
    ensures var (g', accepted) := PassAll(g.(last := [], suspended := false, done := g.done + {n}), cs, g.held, n);
            GateAt(cs, n + 1) == if accepted then g'.(held := []) else g'
  {
    hide PassAll;
    GateNext(cs, n, g);
  }

  lemma PassAllNext(g: Gate, cs: seq<Class>, held: seq<nat>, step: nat)
    requires Below(held, |cs|) && held != []
    ensures Below(held[1..], |cs|)
    ensures var i, rest := held[0], held[1..];
            PassAll(g, cs, held, step) ==
            if g.suspended then PassAll(g.(held := g.held + [i]), cs, rest, step)
            else
              var g1 := g.(done := g.done + {i}, last := g.last + [i], suspended := cs[i] == Suspend);
              if Refuses(cs[i], step) then (g1, false) else PassAll(g1, cs, rest, step)
  {
  }

  lemma PassAllNone(g: Gate, cs: seq<Class>, step: nat)
    ensures PassAll(g, cs, [], step) == (g, true)
  {
  }

  lemma WakesAt(cs: seq<Class>, n: nat, k: nat)
    requires n <= |cs| && k < |GateAt(cs, n).last| && cs[GateAt(cs, n).last[k]].Report?
    ensures Wakes(cs, n)
  {
  }

  /** The workflow of the examples has been entered and has scheduled an activity; a second turn has begun. */
  const OPENING: seq<Class> := [Note, Enter, Report({}), Note, Suspend]

  lemma {:induction false} AfterOpening(cs: seq<Class>)
    requires Prefix(OPENING, cs)
    ensures NextEntry(cs, 0) == Some(2) && GateAt(cs, 5) == Gate(true, false, [], {0, 1, 2, 3, 4}, [4])
  {
    assert cs[0] == Note && cs[1] == Enter && cs[2] == Report({}) && cs[3] == Note && cs[4] == Suspend;
    GateNext(cs, 0, OPEN);
    GateNext(cs, 1, Gate(false, false, [], {0}, [0]));
    assert NextEntry(cs, 1) == Some(2);
    GateNext(cs, 2, Gate(false, false, [], {0, 1}, [1]));
    GateNext(cs, 3, Gate(false, false, [], {0, 1, 2}, [2]));
    GateNext(cs, 4, Gate(false, false, [], {0, 1, 2, 3}, [3]));
  }

  lemma {:induction false} PassHeld(g: Gate, cs: seq<Class>, held: seq<nat>, step: nat)
    requires g.suspended && Below(held, |cs|)
    ensures PassAll(g, cs, held, step) == (g.(held := g.held + held), true)
    decreases held
  {
    if held == [] {
      assert g.held + held == g.held;
    } else {
      PassHeld(g.(held := g.held + [held[0]]), cs, held[1..], step);
      assert g.held + [held[0]] + held[1..] == g.held + held;
    }
  }

  /** A resume passes the events in front of a held suspension, and holds those behind it again. */
  lemma {:induction false} PassNested(g: Gate, cs: seq<Class>, front: seq<nat>, s: nat, rest: seq<nat>, step: nat)
    requires !g.suspended && Below(front + [s] + rest, |cs|) && s < |cs| && cs[s] == Suspend
    requires forall k :: 0 <= k < |front| ==> front[k] < |cs| && cs[front[k]] != Suspend && !Refuses(cs[front[k]], step)
    ensures PassAll(g, cs, front + [s] + rest, step) ==
            (g.(suspended := true, held := g.held + rest, done := g.done + (set i | i in front) + {s},
                last := g.last + front + [s]), true)
    decreases front
  {
    var all := front + [s] + rest;
    PassAllNext(g, cs, all, step);
    if front == [] {
      assert all[0] == s && all[1..] == rest && g.last + front + [s] == g.last + [s];
      assert g.done + (set i | i in front) + {s} == g.done + {s};
      PassHeld(g.(done := g.done + {s}, last := g.last + [s], suspended := true), cs, rest, step);
    } else {
      var i, tail := front[0], front[1..];
      assert all[0] == i && all[1..] == tail + [s] + rest && front == [i] + tail;
      PassNested(g.(done := g.done + {i}, last := g.last + [i]), cs, tail, s, rest, step);
      assert g.last + [i] + tail + [s] == g.last + front + [s];
      assert g.done + {i} + (set k | k in tail) == g.done + set k | k in front;
    }
  }

  lemma {:induction false} ResuspendedGate(cs: seq<Class>)
    requires cs == OPENING + [Note, Report({}), Note, Suspend, Note, Resume]
    ensures GateAt(cs, 11) == Gate(true, false, [], {0, 1, 2, 3, 4, 10} + (set i | i in [5, 6, 7]) + {8}, [5, 6, 7, 8])
  {
    hide NextEntry, GateAt, PassAll;
    AfterOpening(cs);
    var done := {0, 1, 2, 3, 4};
    HoldNext(cs, 5, [], done, [4]);
    HoldNext(cs, 6, [] + [5], done, []);
    HoldNext(cs, 7, [] + [5] + [6], done, []);
    HoldNext(cs, 8, [] + [5] + [6] + [7], done, []);
    HoldNext(cs, 9, [] + [5] + [6] + [7] + [8], done, []);
    var held := [5, 6, 7, 8, 9];
    assert [] + [5] + [6] + [7] + [8] + [9] == held;
    ResumeNext(cs, 10, Gate(true, false, held, done, []));
    assert held == [5, 6, 7] + [8] + [9] && done + {10} == {0, 1, 2, 3, 4, 10} && [] + [5, 6, 7] + [8] == [5, 6, 7, 8];
    PassNested(Gate(false, false, held, done + {10}, []), cs, [5, 6, 7], 8, [9], 10);
  }

  /**
   Suspended again by the resume that completes the awaited activity: workflow code runs on at the end of
   the turn, while the start of the turn, held behind the second suspension, is forgotten.
   */
  lemma {:induction false} ResuspendedForgetsStart()
    ensures var h := [Started({}), ExecutionStarted, Other("TaskScheduled", {}), Started({}), Suspended, Started({}),
                      Other("TaskCompleted", {}), Started({}), Suspended, Started({}), Resumed];
            !StartHandled(h, 9)
  {
    hide NextEntry, GateAt, Wakes;
    var h := [Started({}), ExecutionStarted, Other("TaskScheduled", {}), Started({}), Suspended, Started({}),
              Other("TaskCompleted", {}), Started({}), Suspended, Started({}), Resumed];
    var cs := OPENING + [Note, Report({}), Note, Suspend, Note, Resume];
    assert Classes(h) == cs;
    AfterOpening(cs);
    ResuspendedGate(cs);
    WakesAt(cs, 11, 1);
  }

  lemma {:induction false} NestedGate(cs: seq<Class>)
    requires cs == OPENING + [Note, Suspend, Note, Resume, Resume, Report({})]
    ensures GateAt(cs, 9) == Gate(true, false, [], {0, 1, 2, 3, 4, 8} + (set i | i in [5]) + {6}, [5, 6])
  {
    hide NextEntry, GateAt, PassAll;
    AfterOpening(cs);
    var done := {0, 1, 2, 3, 4};
    HoldNext(cs, 5, [], done, [4]);
    HoldNext(cs, 6, [] + [5], done, []);
    HoldNext(cs, 7, [] + [5] + [6], done, []);
    var held := [5, 6, 7];
    assert [] + [5] + [6] + [7] == held;
    ResumeNext(cs, 8, Gate(true, false, held, done, []));
    assert held == [5] + [6] + [7] && done + {8} == {0, 1, 2, 3, 4, 8} && [] + [5] + [6] == [5, 6];
    PassNested(Gate(false, false, held, done + {8}, []), cs, [5], 6, [7], 8);
  }

  /** Suspended twice and resumed twice: the start of the turn is forgotten, and the activity completes later. */
  lemma {:induction false} NestedSuspendForgetsStart()
    ensures var h := [Started({}), ExecutionStarted, Other("TaskScheduled", {}), Started({}), Suspended, Started({}),
                      Suspended, Started({}), Resumed, Resumed, Other("TaskCompleted", {})];
            !StartHandled(h, 7)
  {
    hide NextEntry, GateAt, PassAll, Wakes;
    var h := [Started({}), ExecutionStarted, Other("TaskScheduled", {}), Started({}), Suspended, Started({}),
              Suspended, Started({}), Resumed, Resumed, Other("TaskCompleted", {})];
    var cs := OPENING + [Note, Suspend, Note, Resume, Resume, Report({})];
    assert Classes(h) == cs;
    AfterOpening(cs);
    NestedGate(cs);
    var g := GateAt(cs, 9);
    ResumeNext(cs, 9, g);
    PassAllNone(g.(suspended := false, done := g.done + {9}, last := []), cs, 9);
    GateNext(cs, 10, g.(suspended := false, done := g.done + {9}, last := []));
    WakesAt(cs, 11, 0);
  }

  /**
   A resume that is refused at an event in front of the start of the turn: workflow code sees the error and runs on.
   */
  lemma {:induction false} RefusedResumeForgetsStart()
    ensures var h := [Started({}), ExecutionStarted, Other("TaskScheduled", {}), Started({}), Suspended,
                      Other("unknown", {7}), Started({}), Resumed];
            !StartHandled(h, 6)
  {
    hide NextEntry, GateAt, PassAll, Wakes;
    var h := [Started({}), ExecutionStarted, Other("TaskScheduled", {}), Started({}), Suspended,
              Other("unknown", {7}), Started({}), Resumed];
    var cs := OPENING + [Report({7}), Note, Resume];
    assert Classes(h) == cs;
    AfterOpening(cs);
    var done := {0, 1, 2, 3, 4};
    HoldNext(cs, 5, [], done, [4]);
    HoldNext(cs, 6, [] + [5], done, []);
    var held := [5, 6];
    assert [] + [5] + [6] == held;
    ResumeNext(cs, 7, Gate(true, false, held, done, []));
    PassAllNext(Gate(false, false, held, done + {7}, []), cs, held, 7);
    WakesAt(cs, 8, 0);
  }

  /******* The condition is exact *******/

  /** A workflow that waits for what the last step of the history completes, unless it has just begun, and then asks. */
  function AsksAtEnd(h: seq<Event>, name: string): seq<Obs> -> Op {
    var waits := Waits(h);
    trace => if |trace| < waits then Await({|h|}) else if |trace| == waits then Ask(name) else Stop
  }

  function Waits(h: seq<Event>): nat {
    if Begin(h).at < |h| then 1 else 0
  }

  lemma {:induction false} NextWakeEnd(cs: seq<Class>, n: nat)
    requires n < |cs| && Wakes(cs, |cs|)
    ensures NextWake(cs, n, {|cs|}) == Some(|cs|)
    decreases |cs| - n
  {
    hide Wakes;
    if n + 1 < |cs| { NextWakeEnd(cs, n + 1); }
  }

  /** The workflow reaches the end of the turn's history, in the turn and in any later replay. */
  lemma {:induction false} WaitsToEnd(h: seq<Event>, h': seq<Event>, name: string)
    requires LooksAlike(h, h') && !Begin(h).ended && Wakes(Classes(h), |h|)
    ensures var r := Exec(AsksAtEnd(h, name), h, Waits(h));
            && r.at == |h| && |r.trace| == Waits(h) && !r.ended && r.applied == map[] && r.encountered == {}
            && Exec(AsksAtEnd(h, name), h', Waits(h)) == r
  {
    hide Wakes, LooksAlike, NextEntry, NextWake, IsPatched, VisibleAll, Classes;
    SameBegin(h, h');
    var next, r := AsksAtEnd(h, name), Begin(h);
    assert Exec(next, h, 0) == r && Exec(next, h', 0) == r;
    if r.at < |h| {
      NextWakeEnd(Classes(h), r.at);
      assert Exec(next, h, 1) == Step(next, h, r);
      SameWait(next, h, h', r);
    }
  }

  /** There it asks, and then stops. */
  lemma {:induction false} AsksOnce(h: seq<Event>, h': seq<Event>, name: string)
    requires LooksAlike(h, h') && !Begin(h).ended && Wakes(Classes(h), |h|)
    ensures var next, waits := AsksAtEnd(h, name), Waits(h);
            var r := Exec(next, h, waits);
            && r.at == |h| <= |h'| && name !in r.applied && Exec(next, h', waits + 2).ended
            && var b := IsPatched(h', r, name);
               && Exec(next, h', waits + 2).trace == r.trace + [Answer(b)]
               && (b ==> name in Exec(next, h', waits + 2).encountered)
  {
    hide NextWake, LooksAlike, Known, Wakes, Begin;
    var next, waits := AsksAtEnd(h, name), Waits(h);
    WaitsToEnd(h, h', name);
    var r := Exec(next, h, waits);
    assert |h| <= |h'| by { AlikePrefix(h, h'); }
    assert Exec(next, h', waits + 1) == Step(next, h', r);
    assert Exec(next, h', waits + 2) == Step(next, h', Exec(next, h', waits + 1));
  }

  /** Where the start of a turn is lost, some workflow answers differently in a later replay. */
  lemma {:induction false} UnstableOtherwise(h: seq<Event>, w: nat, name: string)
    requires w < |h| && h[w] == Started({}) && !StartHandled(h, w)
    requires forall i :: 0 <= i < |h| && h[i].Started? ==> name !in h[i].patches
    ensures var next, end := AsksAtEnd(h, name), Waits(h) + 2;
            && Exec(next, h, end).ended
            && !(Exec(next, h, end).trace <= Exec(next, Stamped(next, h, w, end, [Informational]), end).trace)
  {
    hide Exec, Visible, Wakes, GateAt, NextEntry;
    var next, end := AsksAtEnd(h, name), Waits(h) + 2;
    var h' := Stamped(next, h, w, end, [Informational]);
    StampedLooksAlike(h, w, Exec(next, h, end).encountered, [Informational]);
    assert LooksAlike(h, h);
    AsksOnce(h, h, name);
    AsksOnce(h, h', name);
    AlikePrefix(h, h');
    GateAtPrefix(Classes(h), Classes(h'), |h|);
    var g := GateAt(Classes(h), |h|);
    forall i | i in g.done && i < |h'| && h'[i].Started? ensures name !in h'[i].patches {
      assert i != w && h'[i] == h[i];
    }
    assert !Known(h', GateAt(Classes(h'), |h|), name);
    var n := |Exec(next, h, Waits(h)).trace|;
    assert Exec(next, h, end).trace[n] == Answer(true) && Exec(next, h', end).trace[n] == Answer(false);
  }

  /** Whatever workflow ran the turn, and whatever arrives later, the turn's observations come first again. */
  ghost predicate Stable(h: seq<Event>, w: nat)
    requires w < |h|
  {
    forall next: seq<Obs> -> Op, end: nat, more: seq<Event> ::
      Exec(next, h, end).ended ==> Exec(next, h, end).trace <= Exec(next, Stamped(next, h, w, end, more), end).trace
  }

  ghost function Longest(names: set<string>): (n: nat)
    ensures forall x :: x in names ==> |x| <= n
  {
    if names == {} then 0
    else
      var x: string :| x in names;
      var n := Longest(names - {x});
      if |x| > n then |x| else n
  }

  /** Some name has never been stamped. */
  lemma {:induction false} FreshName(h: seq<Event>) returns (name: string)
    ensures forall i :: 0 <= i < |h| && h[i].Started? ==> name !in h[i].patches
  {
    var n := 0;
    for k := 0 to |h|
      invariant forall i, x :: 0 <= i < k && h[i].Started? && x in h[i].patches ==> |x| <= n
    {
      if h[k].Started? && Longest(h[k].patches) > n { n := Longest(h[k].patches); }
    }
    name := seq(n + 1, i => 'p');
    assert |name| > n;
  }

  /** A turn is stable for all workflows exactly if its start is handled wherever workflow code can run at its end. */
  lemma {:induction false} StableIff(h: seq<Event>, w: nat)
    requires w < |h| && h[w] == Started({})
    ensures Stable(h, w) <==> StartHandled(h, w)
  {
    hide StartHandled, Exec;
    if StartHandled(h, w) {
      forall next: seq<Obs> -> Op, end: nat, more: seq<Event> | Exec(next, h, end).ended
        ensures Exec(next, h, end).trace <= Exec(next, Stamped(next, h, w, end, more), end).trace
      {
        ReplayStable(next, h, w, end, more, end);
      }
    } else {
      var name := FreshName(h);
      UnstableOtherwise(h, w, name);
    }
  }

  /******* Any number of turns *******/

  /** Turn by turn: each history is the one before it, stamped when its turn ended, with more events. */
  ghost predicate Turns(next: seq<Obs> -> Op, hs: seq<seq<Event>>, ws: seq<nat>, ends: seq<nat>) {
    && |hs| == |ws| == |ends|
    && (forall k :: 0 <= k < |hs| ==>
          ws[k] < |hs[k]| && hs[k][ws[k]] == Started({}) && Exec(next, hs[k], ends[k]).ended)
    && (forall k :: 0 < k < |hs| ==> Follows(next, hs[k - 1], ws[k - 1], ends[k - 1], hs[k]))
  }

  ghost predicate Follows(next: seq<Obs> -> Op, h: seq<Event>, w: nat, end: nat, h': seq<Event>) {
    w < |h| && exists more :: h' == Stamped(next, h, w, end, more)
  }

  /** What a turn let the workflow observe is observed first in every later turn. */
  lemma {:induction false} EveryLaterTurn(next: seq<Obs> -> Op, hs: seq<seq<Event>>, ws: seq<nat>, ends: seq<nat>,
                                          j: nat, k: nat, n: nat)
    requires Turns(next, hs, ws, ends) && j <= k < |hs|
    requires forall i :: 0 <= i < |hs| ==> StartHandled(hs[i], ws[i])
    requires ends[j] <= n
    ensures Exec(next, hs[j], ends[j]).trace <= Exec(next, hs[k], n).trace
    decreases k
  {
    hide StartHandled, Exec;
    if j == k {
      DecisionsStay(next, hs[j], ends[j], n);
    } else {
      EveryLaterTurn(next, hs, ws, ends, j, k - 1, n);
      assert Follows(next, hs[k - 1], ws[k - 1], ends[k - 1], hs[k]);
      var more :| hs[k] == Stamped(next, hs[k - 1], ws[k - 1], ends[k - 1], more);
      ReplayStable(next, hs[k - 1], ws[k - 1], ends[k - 1], more, n);
    }
  }
}
