/**
 A task worker: polling under a semaphore, and draining (backend/worker.go:112-221 and 246-270).

 Each Start that takes effect begins a generation with a poll loop and a goroutine that waits for
 the drain. Steps of all goroutines interleave freely. The wait group counts the items that are
 not over, whatever their generation.
 */
module Worker {
  /** A poll loop has no slot, holds one while it fetches, or has returned. */
  datatype Poll = Idle | Fetching | Exited

  /** The goroutine that waits: for the drain, then clears the worker's fields, then closes drainDone. */
  datatype Wait = AwaitingDrain | Cleared | ClosedDone

  datatype Generation = Generation(poll: Poll, cancelled: bool, wait: Wait)

  /** A work item is processed, then gives its slot back, then leaves the wait group. */
  datatype ItemPhase = Processing | Released | Over

  datatype Item = Item(generation: nat, phase: ItemPhase)

  datatype State = State(
    capacity: nat,
    slots: nat,
    running: bool,
    generations: seq<Generation>,
    items: seq<Item>)

  function Init(capacity: nat): State {
    State(capacity, 0, false, [], [])
  }

  datatype Step =
    | Start
    | Cancel(g: nat)
    | Acquire(g: nat)
    | Fetch(g: nat, ok: bool)
    | ExitPoll(g: nat)
    | Release(i: nat)
    | End(i: nat)
    | Drain(g: nat)
    | CloseDone(g: nat)

  predicate WaitGroupEmpty(s: State) {
    forall i :: 0 <= i < |s.items| ==> s.items[i].phase.Over?
  }

  function SetGeneration(s: State, g: nat, x: Generation): State
    requires g < |s.generations|
  {
    s.(generations := s.generations[g := x])
  }

  function SetItem(s: State, i: nat, phase: ItemPhase): State
    requires i < |s.items|
  {
    s.(items := s.items[i := s.items[i].(phase := phase)])
  }

  function NextPoll(s: State, g: nat, step: Step): State
    requires g < |s.generations|
  {
    var x := s.generations[g];
    match step
    case Cancel(_) => SetGeneration(s, g, x.(cancelled := true))
    case Acquire(_) =>
      if x.poll.Idle? && s.slots < s.capacity
      then SetGeneration(s, g, x.(poll := Fetching)).(slots := s.slots + 1) else s
    case Fetch(_, ok) =>
      if !x.poll.Fetching? then s
      else if ok then SetGeneration(s, g, x.(poll := Idle)).(items := s.items + [Item(g, Processing)])
      else SetGeneration(s, g, x.(poll := if x.cancelled then Exited else Idle)).(
             slots := if s.slots > 0 then s.slots - 1 else 0)
    case ExitPoll(_) => if x.poll.Idle? && x.cancelled then SetGeneration(s, g, x.(poll := Exited)) else s
    case Drain(_) =>
      if x.poll.Exited? && x.wait.AwaitingDrain? && WaitGroupEmpty(s)
      then SetGeneration(s, g, x.(wait := Cleared)).(running := if g == |s.generations| - 1 then false else s.running)
      else s
    case CloseDone(_) => if x.wait.Cleared? then SetGeneration(s, g, x.(wait := ClosedDone)) else s
    case _ => s
  }

  function NextItem(s: State, i: nat, step: Step): State
    requires i < |s.items|
  {
    match step
    case Release(_) =>
      if s.items[i].phase.Processing?
      then SetItem(s, i, Released).(slots := if s.slots > 0 then s.slots - 1 else 0) else s
    case End(_) => if s.items[i].phase.Released? then SetItem(s, i, Over) else s
    case _ => s
  }

  function Next(s: State, step: Step): State {
    match step
    case Start =>
      if s.running then s
      else s.(running := true, generations := s.generations + [Generation(Idle, false, AwaitingDrain)])
    case Release(i) => if i < |s.items| then NextItem(s, i, step) else s
    case End(i) => if i < |s.items| then NextItem(s, i, step) else s
    case _ => if step.g < |s.generations| then NextPoll(s, step.g, step) else s
  }

  function Run(s: State, steps: seq<Step>): State
    decreases steps
  {
    if steps == [] then s else Run(Next(s, steps[0]), steps[1..])
  }

  /******* Slots *******/

  function InFlight(items: seq<Item>): nat {
    if items == [] then 0 else InFlight(items[..|items| - 1]) + if items[|items| - 1].phase.Processing? then 1 else 0
  }

  function Holding(generations: seq<Generation>): nat {
    if generations == [] then 0
    else Holding(generations[..|generations| - 1]) + if generations[|generations| - 1].poll.Fetching? then 1 else 0
  }

  lemma {:induction false} InFlightUpdate(items: seq<Item>, i: nat, x: Item)
    requires i < |items|
    ensures InFlight(items[i := x]) ==
            InFlight(items) - (if items[i].phase.Processing? then 1 else 0) + (if x.phase.Processing? then 1 else 0)
  {
    var front := items[..|items| - 1];
    if i < |items| - 1 {
      InFlightUpdate(front, i, x);
      assert items[i := x][..|items| - 1] == front[i := x];
    } else {
      assert items[i := x][..|items| - 1] == front;
    }
  }

  lemma {:induction false} HoldingUpdate(generations: seq<Generation>, g: nat, x: Generation)
    requires g < |generations|
    ensures Holding(generations[g := x]) ==
            Holding(generations) - (if generations[g].poll.Fetching? then 1 else 0) +
            (if x.poll.Fetching? then 1 else 0)
  {
    var front := generations[..|generations| - 1];
    if g < |generations| - 1 {
      HoldingUpdate(front, g, x);
      assert generations[g := x][..|generations| - 1] == front[g := x];
    } else {
      assert generations[g := x][..|generations| - 1] == front;
    }
  }

  /** Every taken slot belongs to an item being processed or to a poll loop that fetches. */
  ghost predicate SlotInv(s: State) {
    s.slots == InFlight(s.items) + Holding(s.generations) && s.slots <= s.capacity
  }

  lemma InFlightSnoc(items: seq<Item>, x: Item)
    ensures InFlight(items + [x]) == InFlight(items) + if x.phase.Processing? then 1 else 0
  {
    assert (items + [x])[..|items|] == items;
  }

  lemma {:induction false} PollKeepsSlots(s: State, g: nat, step: Step)
    requires SlotInv(s) && g < |s.generations|
    ensures SlotInv(NextPoll(s, g, step)) && NextPoll(s, g, step).capacity == s.capacity
  {
    hide InFlight, Holding;
    HoldingUpdate(s.generations, g, NextPoll(s, g, step).generations[g]);
    InFlightSnoc(s.items, Item(g, Processing));
  }

  lemma {:induction false} ItemKeepsSlots(s: State, i: nat, step: Step)
    requires SlotInv(s) && i < |s.items|
    ensures SlotInv(NextItem(s, i, step)) && NextItem(s, i, step).capacity == s.capacity
  {
    hide InFlight, Holding;
    InFlightUpdate(s.items, i, NextItem(s, i, step).items[i]);
  }

  lemma HoldingSnoc(generations: seq<Generation>)
    ensures Holding(generations + [Generation(Idle, false, AwaitingDrain)]) == Holding(generations)
  {
    assert (generations + [Generation(Idle, false, AwaitingDrain)])[..|generations|] == generations;
  }

  lemma {:induction false} NextKeepsSlots(s: State, step: Step)
    requires SlotInv(s)
    ensures SlotInv(Next(s, step)) && Next(s, step).capacity == s.capacity
  {
    hide NextPoll, NextItem, InFlight, Holding;
    match step {
      case Start => HoldingSnoc(s.generations);
      case Release(i) => if i < |s.items| { ItemKeepsSlots(s, i, step); }
      case End(i) => if i < |s.items| { ItemKeepsSlots(s, i, step); }
      case _ => if step.g < |s.generations| { PollKeepsSlots(s, step.g, step); }
    }
  }

  /******* Draining *******/

  /** A generation that has drained fetches nothing any more, and all its items are over. */
  ghost predicate DrainInv(s: State) {
    && (forall g :: 0 <= g < |s.generations| && !s.generations[g].wait.AwaitingDrain? ==> s.generations[g].poll.Exited?)
    && (forall i :: 0 <= i < |s.items| ==> s.items[i].generation < |s.generations|)
    && (forall i :: 0 <= i < |s.items| && !s.items[i].phase.Over? ==>
          s.generations[s.items[i].generation].wait.AwaitingDrain?)
    && (forall g :: 0 <= g < |s.generations| - 1 ==> !s.generations[g].wait.AwaitingDrain?)
    && (s.generations != [] && s.generations[|s.generations| - 1].wait.AwaitingDrain? ==> s.running)
    && (s.running ==> s.generations != [] && s.generations[|s.generations| - 1].wait.AwaitingDrain?)
  }

  lemma {:induction false} PollKeepsDrain(s: State, g: nat, step: Step)
    requires DrainInv(s) && g < |s.generations|
    ensures DrainInv(NextPoll(s, g, step))
  {
  }

  lemma {:induction false} ItemKeepsDrain(s: State, i: nat, step: Step)
    requires DrainInv(s) && i < |s.items|
    ensures DrainInv(NextItem(s, i, step))
  {
  }

  lemma {:induction false} NextKeepsDrain(s: State, step: Step)
    requires DrainInv(s)
    ensures DrainInv(Next(s, step))
  {
    hide NextPoll, NextItem;
    match step
    case Start =>
    case Release(i) => if i < |s.items| { ItemKeepsDrain(s, i, step); }
    case End(i) => if i < |s.items| { ItemKeepsDrain(s, i, step); }
    case _ => if step.g < |s.generations| { PollKeepsDrain(s, step.g, step); }
  }

  lemma {:induction false} RunKeepsInv(s: State, steps: seq<Step>)
    requires SlotInv(s) && DrainInv(s)
    ensures SlotInv(Run(s, steps)) && DrainInv(Run(s, steps)) && Run(s, steps).capacity == s.capacity
    decreases steps
  {
    hide SlotInv, DrainInv;
    if steps != [] {
      NextKeepsSlots(s, steps[0]);
      NextKeepsDrain(s, steps[0]);
      RunKeepsInv(Next(s, steps[0]), steps[1..]);
    }
  }

  /** The drainDone channel of this generation is closed. */
  predicate ClosedFor(s: State, g: nat) {
    g < |s.generations| && s.generations[g].wait.ClosedDone?
  }

  /**
   In every interleaving the items being processed never exceed the semaphore's capacity, no slot is
   lost or given back twice, at most one generation is live, and once a generation's drainDone is closed its
   poll loop has returned and every item it fetched is over.
   */
  lemma {:induction false} WorkerSafe(capacity: nat, steps: seq<Step>)
    ensures var s := Run(Init(capacity), steps);
            && InFlight(s.items) <= capacity && s.slots == InFlight(s.items) + Holding(s.generations)
            && (forall g :: 0 <= g < |s.generations| - 1 ==> !s.generations[g].wait.AwaitingDrain?)
            && (forall g :: 0 <= g < |s.generations| && s.generations[g].wait.ClosedDone? ==>
                  s.generations[g].poll.Exited?)
            && (forall i :: 0 <= i < |s.items| && ClosedFor(s, s.items[i].generation) ==> s.items[i].phase.Over?)
  {
    RunKeepsInv(Init(capacity), steps);
  }

  /** And nothing is fetched for a drained generation afterwards. */
  lemma {:induction false} DrainedStaysDrained(s: State, steps: seq<Step>, g: nat)
    requires DrainInv(s) && g < |s.generations| && !s.generations[g].wait.AwaitingDrain?
    ensures var s' := Run(s, steps);
            g < |s'.generations| && !s'.generations[g].wait.AwaitingDrain? && s'.generations[g].poll.Exited?
    decreases steps
  {
    hide Next;
    if steps != [] {
      NextKeepsDrain(s, steps[0]);
      NextKeepsDrained(s, steps[0], g);
      DrainedStaysDrained(Next(s, steps[0]), steps[1..], g);
    }
  }

  lemma NextKeepsDrained(s: State, step: Step, g: nat)
    requires g < |s.generations| && !s.generations[g].wait.AwaitingDrain?
    ensures g < |Next(s, step).generations| && !Next(s, step).generations[g].wait.AwaitingDrain?
  {
  }

  /******* Progress *******/

  lemma {:induction false} RunAppend(s: State, steps: seq<Step>, more: seq<Step>)
    ensures Run(s, steps + more) == Run(Run(s, steps), more)
    decreases steps
  {
    hide Next;
    if steps == [] {
      assert steps + more == more;
    } else {
      assert (steps + more)[1..] == steps[1..] + more;
      RunAppend(Next(s, steps[0]), steps[1..], more);
    }
  }

  lemma {:induction false} TwoSteps(s: State, a: Step, b: Step)
    ensures Run(s, [a, b]) == Next(Next(s, a), b)
  {
    hide Next;
    RunAppend(s, [a], [b]);
    assert [a, b] == [a] + [b] && [a][1..] == [] && [b][1..] == [];
  }

  lemma {:induction false} Fetches(s: State, g: nat)
    requires g < |s.generations| && s.generations[g].poll.Idle? && s.slots < s.capacity
    ensures Next(Next(s, Acquire(g)), Fetch(g, true)) ==
            s.(slots := s.slots + 1, items := s.items + [Item(g, Processing)])
  {
    var x := s.generations[g];
    var s1 := Next(s, Acquire(g));
    assert s1 == s.(slots := s.slots + 1, generations := s.generations[g := x.(poll := Fetching)]);
    assert s1.generations[g := x] == s.generations;
  }

  lemma {:induction false} Processes(s: State, g: nat)
    ensures var s1 := s.(slots := s.slots + 1, items := s.items + [Item(g, Processing)]);
            Next(Next(s1, Release(|s.items|)), End(|s.items|)) == s.(items := s.items + [Item(g, Over)])
  {
    var i := |s.items|;
    var s1 := s.(slots := s.slots + 1, items := s.items + [Item(g, Processing)]);
    assert s1.items[i := Item(g, Released)] == s.items + [Item(g, Released)];
    var s2 := Next(s1, Release(i));
    assert s2 == s.(items := s.items + [Item(g, Released)]);
    assert s2.items[i := Item(g, Over)] == s.items + [Item(g, Over)];
  }

  lemma {:induction false} SlotsUsed(capacity: nat, steps: seq<Step>)
    ensures var s := Run(Init(capacity), steps);
            s.slots == InFlight(s.items) + Holding(s.generations) && s.capacity == capacity
  {
    RunKeepsInv(Init(capacity), steps);
  }

  /**
   In every reachable state an idle poll loop gets a slot if fewer than capacity items are processed or fetched;
   the item it fetches is processed, and after it the slots are as they were.
   */
  lemma {:induction false} ItemServed(capacity: nat, steps: seq<Step>, g: nat)
    requires var s := Run(Init(capacity), steps);
             && g < |s.generations| && s.generations[g].poll.Idle?
             && InFlight(s.items) + Holding(s.generations) < capacity
    ensures var s := Run(Init(capacity), steps);
            var i := |s.items|;
            var s1 := Run(s, [Acquire(g), Fetch(g, true)]);
            && s1 == s.(slots := s.slots + 1, items := s.items + [Item(g, Processing)])
            && Run(s1, [Release(i), End(i)]) == s.(items := s.items + [Item(g, Over)])
  {
    hide Run, Next, InFlight, Holding;
    SlotsUsed(capacity, steps);
    var s := Run(Init(capacity), steps);
    Fetches(s, g);
    TwoSteps(s, Acquire(g), Fetch(g, true));
    Processes(s, g);
    TwoSteps(Run(s, [Acquire(g), Fetch(g, true)]), Release(|s.items|), End(|s.items|));
  }

  /** An item under way ends by its own steps. */
  lemma {:induction false} ItemEnds(s: State, i: nat)
    requires i < |s.items|
    ensures var s' := Run(s, [Release(i), End(i)]);
            && s'.generations == s.generations && s'.running == s.running
            && s'.items == s.items[i := s.items[i].(phase := Over)]
  {
    hide Run;
    TwoSteps(s, Release(i), End(i));
  }

  predicate ItemStep(step: Step) {
    step.Release? || step.End?
  }

  lemma {:induction false} ItemsEnd(s: State, n: nat) returns (steps: seq<Step>)
    requires n <= |s.items|
    ensures forall x :: x in steps ==> ItemStep(x)
    ensures var s' := Run(s, steps);
            && s'.generations == s.generations && s'.running == s.running && |s'.items| == |s.items|
            && (forall i :: 0 <= i < n ==> s'.items[i].phase.Over?)
  {
    if n == 0 {
      steps := [];
    } else {
      var front := ItemsEnd(s, n - 1);
      hide Run;
      steps := front + [Release(n - 1), End(n - 1)];
      ItemEnds(Run(s, front), n - 1);
      RunAppend(s, front, [Release(n - 1), End(n - 1)]);
    }
  }

  /** A cancelled poll loop returns, whether it was idle or fetching. */
  lemma {:induction false} PollReturns(s: State, g: nat)
    requires g < |s.generations|
    ensures var s', x := Run(s, [Cancel(g), Fetch(g, false)] + [ExitPoll(g)]), s.generations[g];
            && s'.generations == s.generations[g := x.(cancelled := true, poll := Exited)]
            && s'.running == s.running && s'.items == s.items
  {
    hide Run;
    RunAppend(s, [Cancel(g), Fetch(g, false)], [ExitPoll(g)]);
    TwoSteps(s, Cancel(g), Fetch(g, false));
    OneStep(Next(Next(s, Cancel(g)), Fetch(g, false)), ExitPoll(g));
  }

  lemma {:induction false} OneStep(s: State, step: Step)
    ensures Run(s, [step]) == Next(s, step)
  {
    assert [step][1..] == [];
  }

  predicate DrainStep(step: Step, g: nat) {
    ItemStep(step) || ((step.Cancel? || step.Fetch? || step.ExitPoll? || step.Drain? || step.CloseDone?) && step.g == g)
  }

  /**
   From every reachable state a running worker drains by the steps of its poll loop, its items and its waiting
   goroutine alone; then it is no longer running, and it can be started again.
   */
  lemma {:induction false} WorkerDrains(capacity: nat, steps: seq<Step>) returns (more: seq<Step>)
    requires Run(Init(capacity), steps).running
    ensures var s := Run(Init(capacity), steps);
            var g, s' := |s.generations| - 1, Run(s, more);
            && s.generations != [] && (forall x :: x in more ==> DrainStep(x, g))
            && ClosedFor(s', g) && !s'.running && WaitGroupEmpty(s') && Next(s', Start).running
  {
    RunKeepsInv(Init(capacity), steps);
    var s := Run(Init(capacity), steps);
    var g := |s.generations| - 1;
    assert s.generations[g].wait.AwaitingDrain?;
    hide Run, DrainInv, SlotInv;
    var poll := [Cancel(g), Fetch(g, false)] + [ExitPoll(g)];
    PollReturns(s, g);
    var s1 := Run(s, poll);
    var ending := ItemsEnd(s1, |s1.items|);
    var s2 := Run(s1, ending);
    TwoSteps(s2, Drain(g), CloseDone(g));
    more := poll + ending + [Drain(g), CloseDone(g)];
    RunAppend(s, poll, ending);
    RunAppend(s, poll + ending, [Drain(g), CloseDone(g)]);
  }
}
