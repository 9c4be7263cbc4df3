/**
 Replaying histories of older releases (task/orchestrator.go, task/detached.go).

 A program is the list of work a deterministic workflow schedules, in order. A history lists the
 same work under the numbers an earlier execution gave it; it may lack any of the optional timers,
 because releases that predate them did not record them.
 */
module Alignment {
  import opened Work
  import opened Numbering
  import opened NumberingTheorems

  datatype Program = Program(works: seq<Work>, hist: seq<Item>) {
    function ItemAt(i: nat): Item
      requires i < |works|
    {
      Item(i, works[i])
    }
  }

  predicate Recordable(w: Work) {
    HasTask(w) || w.Detached?
  }

  /** The schedule event that history holds for an item under number id. */
  function RecordOf(item: Item, id: int): ScheduleEvent
    requires Recordable(item.work)
  {
    match item.work
    case Activity(_) => TaskScheduled(id)
    case Child(_) => ChildCreated(id)
    case Timer(origin, fireAt) => TimerCreated(id, origin, fireAt)
    case Detached(instanceId) => DetachedCreated(id, instanceId)
  }

  /**
   The history from k on is the program from pos on with some optional timers missing, the
   remaining optional timers being interchangeable.
   */
  ghost predicate Fits(p: Program, k: nat, pos: nat)
    decreases |p.works| - pos
  {
    && k <= |p.hist| && pos <= |p.works|
    && (k == |p.hist| ||
        (pos < |p.works| &&
         if IsOptional(p.works[pos])
         then (IsOptional(p.hist[k].work) && Fits(p, k + 1, pos + 1)) || Fits(p, k, pos + 1)
         else p.hist[k] == p.ItemAt(pos) && Fits(p, k + 1, pos + 1)))
  }

  /** What a release without optional timers records of the program from pos on. */
  function LegacyFrom(works: seq<Work>, pos: nat): (q: seq<Item>)
    requires pos <= |works|
    ensures forall i :: 0 <= i < |q| ==> !IsOptional(q[i].work)
    decreases |works| - pos
  {
    if pos == |works| then []
    else (if IsOptional(works[pos]) then [] else [Item(pos, works[pos])]) + LegacyFrom(works, pos + 1)
  }

  lemma {:induction false} LegacyFits(p: Program, k: nat, pos: nat)
    requires k <= |p.hist| && pos <= |p.works| && p.hist[k..] == LegacyFrom(p.works, pos)
    ensures Fits(p, k, pos)
    decreases |p.works| - pos
  {
    if pos < |p.works| && k < |p.hist| {
      if IsOptional(p.works[pos]) {
        assert p.hist[k..] == LegacyFrom(p.works, pos + 1);
        LegacyFits(p, k, pos + 1);
      } else {
        assert p.hist[k] == p.hist[k..][0];
        assert p.hist[k + 1..] == p.hist[k..][1..] == LegacyFrom(p.works, pos + 1);
        LegacyFits(p, k + 1, pos + 1);
      }
    }
  }

  /** A recorded optional timer can be matched with the first outstanding one. */
  lemma {:induction false} FitsOptional(p: Program, k: nat, pos: nat)
    requires Fits(p, k, pos) && k < |p.hist| && IsOptional(p.hist[k].work)
    ensures pos < |p.works| && IsOptional(p.works[pos]) && Fits(p, k + 1, pos + 1)
    decreases |p.works| - pos
  {
    if Fits(p, k, pos + 1) {
      FitsOptional(p, k, pos + 1);
    }
  }

  lemma {:induction false} FitsPrefix(p: Program, k: nat, pos: nat, d: nat)
    requires Fits(p, k, pos) && k + d < |p.hist| && pos + d < |p.works|
    requires forall i :: pos <= i <= pos + d ==> !IsOptional(p.works[i])
    ensures p.hist[k + d] == p.ItemAt(pos + d)
    decreases d
  {
    if d > 0 { FitsPrefix(p, k + 1, pos + 1, d - 1); }
  }

  /******* The alignment invariant *******/

  predicate Recognises(now: Item, recorded: Item) {
    if IsOptional(recorded.work) then IsOptional(now.work) else now == recorded
  }

  /** The part of the state that alignment is about. */
  datatype Shape = Shape(order: seq<Item>, pending: set<int>, issued: nat)

  function ShapeOf(s: State): Shape {
    Shape(s.order, s.actions.Keys, s.issued)
  }

  /**
   k recorded schedules have been matched and the program is matched up to pos: numbers below k
   carry the recorded work, numbers from k on carry the rest of the program, still pending.
   */
  ghost predicate Fitted(a: Shape, p: Program, k: nat, pos: nat) {
    && k <= |p.hist| && k <= |a.order| && pos <= a.issued <= |p.works|
    && |a.order| - k == a.issued - pos
    && (forall j :: k <= j < |a.order| ==> a.order[j] == p.ItemAt(pos + (j - k)) && j in a.pending)
    && (forall j :: 0 <= j < k ==> Recognises(a.order[j], p.hist[j]) && j !in a.pending)
    && Fits(p, k, pos)
  }

  ghost predicate Aligned(s: State, p: Program, k: nat) {
    Inv(s) && exists pos :: Fitted(ShapeOf(s), p, k, pos)
  }

  /** The detached handler drops one optional timer only. */
  predicate AtMostOneOptional(s: State, k: nat) {
    OptionalAt(s, k) ==> !OptionalAt(s, k + 1)
  }

  /** What one step of a deterministic replay of this history may be. */
  ghost predicate Consistent(s: State, p: Program, k: nat, step: Step) {
    match step
    case Call(w) => s.issued < |p.works| && w == p.works[s.issued]
    case Resolve(_) => true
    case Withdraw(_) => false
    case Record(e) =>
      && k < |p.hist| && Recordable(p.hist[k].work) && e == RecordOf(p.hist[k], k)
      && (if IsOptional(p.hist[k].work) then k < |s.order| else p.hist[k].n < s.issued)
      && (e.DetachedCreated? ==> AtMostOneOptional(s, k))
  }

  /******* Effects of the handlers on the shape *******/

  lemma ScheduleShape(s: State, w: Work)
    ensures ShapeOf(Schedule(s, w)) == Shape(s.order + [Item(s.issued, w)], s.actions.Keys + {s.seqNo}, s.issued + 1)
  {
  }

  lemma DeliverShape(s: State, r: Resolution)
    ensures ShapeOf(Deliver(s, r)) == ShapeOf(s)
  {
    assert Restore(s.actions, r).Keys == s.actions.Keys;
  }

  lemma {:induction false} ConsumeEachShape(s: State, ids: seq<int>)
    ensures ShapeOf(ConsumeEach(s, ids)) == ShapeOf(s)
  {
    if ids != [] {
      var front := ConsumeEach(s, ids[..|ids| - 1]);
      ConsumeEachShape(s, ids[..|ids| - 1]);
      forall r, b | true ensures ShapeOf(Deliver(front.(buffered := b), r)) == ShapeOf(front) {
        DeliverShape(front.(buffered := b), r);
      }
    }
  }

  lemma DropAtShape(s: State, at: int)
    requires Inv(s) && OptionalAt(s, at)
    ensures Inv(DropAt(s, at))
    ensures ShapeOf(DropAt(s, at)) == Shape(Without(s.order, at), ShiftKeys(s.actions.Keys, at), s.issued)
  {
    hide Numbering.CoreInv, Numbering.NoLostWakeUp;
    DropAtKeepsInv(s, at);
    var shifted := Shift(s, at);
    ConsumeEachShape(shifted, Ascending(set i | i in shifted.tasks && i >= at));
    forall k ensures k in shifted.actions <==> k in ShiftKeys(s.actions.Keys, at) {
      ShiftKeysMember(s.actions.Keys, at, k);
    }
    assert shifted.actions.Keys == ShiftKeys(s.actions.Keys, at);
  }

  lemma ConfirmShape(s: State, id: int)
    requires Inv(s)
    ensures Inv(ConfirmTimer(s, id))
    ensures ShapeOf(ConfirmTimer(s, id)) == ShapeOf(s).(pending := s.actions.Keys - {id})
  {
    var s' := s.(actions := s.actions - {id}, optional := s.optional - {id});
    ConfirmTimerKeepsInv(s, id);
    ConsumeEachShape(s', Ascending(s'.tasks.Keys));
  }

  lemma PendingItem(s: State, k: int)
    requires Inv(s)
    ensures k in s.actions ==> 0 <= k < |s.order| && s.actions[k].item == s.order[k]
    ensures OptionalAt(s, k) <==> k in s.actions && IsOptional(s.order[k].work)
  {
  }

  /******* Effects of the shape on the alignment *******/

  lemma CallFitted(a: Shape, p: Program, k: nat, pos: nat)
    requires Fitted(a, p, k, pos) && a.issued < |p.works|
    ensures Fitted(Shape(a.order + [p.ItemAt(a.issued)], a.pending + {|a.order|}, a.issued + 1), p, k, pos)
  {
  }

  /** Dropping the optional timer at k brings the next work of the program to number k. */
  lemma DropFitted(a: Shape, p: Program, k: nat, pos: nat)
    requires Fitted(a, p, k, pos) && k < |a.order|
    requires Fits(p, k, pos + 1)
    ensures Fitted(Shape(Without(a.order, k), ShiftKeys(a.pending, k), a.issued), p, k, pos + 1)
  {
    forall j | 0 <= j < |a.order| - 1 ensures j in ShiftKeys(a.pending, k) <==> j >= k {
      ShiftKeysMember(a.pending, k, j);
    }
  }

  lemma MatchFitted(a: Shape, p: Program, k: nat, pos: nat)
    requires Fitted(a, p, k, pos) && k < |p.hist| && k < |a.order| && Recognises(a.order[k], p.hist[k])
    requires Fits(p, k + 1, pos + 1)
    ensures Fitted(a.(pending := a.pending - {k}), p, k + 1, pos + 1)
  {
  }

  /** The next recorded work is the program's work at q. */
  ghost predicate NextIs(p: Program, k: nat, q: nat) {
    k < |p.hist| && q < |p.works| && p.ItemAt(q) == p.hist[k] && !IsOptional(p.hist[k].work) && Fits(p, k + 1, q + 1)
  }

  /** Only optional timers lie between pos and q. */
  ghost predicate Gap(p: Program, k: nat, pos: nat, q: nat) {
    pos <= q < |p.works| && forall i :: pos <= i < q ==> IsOptional(p.works[i]) && Fits(p, k, i + 1)
  }

  lemma {:induction false} NextExists(p: Program, k: nat, pos: nat) returns (q: nat)
    requires k < |p.hist| && Fits(p, k, pos) && !IsOptional(p.hist[k].work)
    ensures NextIs(p, k, q) && Gap(p, k, pos, q)
    decreases |p.works| - pos
  {
    if IsOptional(p.works[pos]) {
      q := NextExists(p, k, pos + 1);
      forall i | pos <= i < q ensures IsOptional(p.works[i]) && Fits(p, k, i + 1) {
        assert i == pos || pos + 1 <= i;
      }
    } else {
      q := pos;
    }
  }

  lemma GapFitted(s: State, p: Program, k: nat, pos: nat, q: nat)
    requires Inv(s) && Fitted(ShapeOf(s), p, k, pos) && Gap(p, k, pos, q) && pos < q < s.issued
    ensures k < |s.order| && OptionalAt(s, k) && Inv(DropAt(s, k)) && Fitted(ShapeOf(DropAt(s, k)), p, k, pos + 1)
    ensures DropAt(s, k).issued == s.issued
  {
    PendingItem(s, k);
    assert s.order[k] == p.ItemAt(pos) && IsOptional(p.works[pos]) && Fits(p, k, pos + 1);
    DropAtShape(s, k);
    DropFitted(ShapeOf(s), p, k, pos);
  }

  lemma NextSettled(s: State, p: Program, k: nat, q: nat)
    requires Inv(s) && Fitted(ShapeOf(s), p, k, q) && NextIs(p, k, q) && q < s.issued
    ensures !OptionalAt(s, k)
  {
    PendingItem(s, k);
    assert s.order[k] == p.ItemAt(q);
  }

  lemma {:induction false} DropAllFitted(s: State, p: Program, k: nat, pos: nat, q: nat)
    requires Inv(s) && Fitted(ShapeOf(s), p, k, pos) && NextIs(p, k, q) && Gap(p, k, pos, q) && q < s.issued
    ensures Inv(DropAll(s, k)) && Fitted(ShapeOf(DropAll(s, k)), p, k, q)
    decreases q - pos
  {
    hide Numbering.DropAt, Numbering.CoreInv, Fitted;
    if pos < q {
      GapFitted(s, p, k, pos, q);
      assert Gap(p, k, pos + 1, q);
      DropAllFitted(DropAt(s, k), p, k, pos + 1, q);
      assert DropAll(s, k) == DropAll(DropAt(s, k), k);
    } else {
      NextSettled(s, p, k, q);
      assert DropAll(s, k) == s;
    }
  }

  lemma OptionalFitted(a: Shape, p: Program, k: nat, pos: nat)
    requires Fitted(a, p, k, pos) && k < |p.hist| && IsOptional(p.hist[k].work) && k < |a.order|
    ensures k in a.pending && IsOptional(a.order[k].work)
    ensures Fitted(a.(pending := a.pending - {k}), p, k + 1, pos + 1)
  {
    FitsOptional(p, k, pos);
    MatchFitted(a, p, k, pos);
  }

  lemma OnOptionalTimer(s: State, e: ScheduleEvent)
    requires Inv(s) && e.TimerCreated? && OptionalTimer(e.origin, e.fireAt) && OptionalAt(s, e.id)
    ensures OnTimerRecorded(s, e) == (ConfirmTimer(s, e.id), true)
  {
  }

  lemma OnPlainTimer(s: State, e: ScheduleEvent)
    requires Inv(s) && e.TimerCreated? && !OptionalTimer(e.origin, e.fireAt)
    requires e.id in DropAll(s, e.id).actions && DropAll(s, e.id).actions[e.id].item.work.Timer?
    ensures OnTimerRecorded(s, e) == (ConfirmTimer(DropAll(s, e.id), e.id), true)
  {
  }

  lemma RecordOptional(s: State, p: Program, k: nat, pos: nat)
    requires Inv(s) && Fitted(ShapeOf(s), p, k, pos) && k < |p.hist| && IsOptional(p.hist[k].work) && k < |s.order|
    ensures var e := RecordOf(p.hist[k], k); OnTimerRecorded(s, e).1 && Aligned(OnTimerRecorded(s, e).0, p, k + 1)
  {
    OptionalFitted(ShapeOf(s), p, k, pos);
    PendingItem(s, k);
    OnOptionalTimer(s, RecordOf(p.hist[k], k));
    ConfirmShape(s, k);
  }

  lemma RecordTimer(s: State, p: Program, k: nat, q: nat)
    requires Inv(s) && Inv(DropAll(s, k)) && Fitted(ShapeOf(DropAll(s, k)), p, k, q) && NextIs(p, k, q) &&
      q < DropAll(s, k).issued
    requires p.hist[k].work.Timer?
    ensures var e := RecordOf(p.hist[k], k); OnTimerRecorded(s, e).1 && Aligned(OnTimerRecorded(s, e).0, p, k + 1)
  {
    var s1 := DropAll(s, k);
    NextFitted(ShapeOf(s1), p, k, q);
    PendingItem(s1, k);
    OnPlainTimer(s, RecordOf(p.hist[k], k));
    ConfirmShape(s1, k);
  }

  lemma NextFitted(a: Shape, p: Program, k: nat, q: nat)
    requires Fitted(a, p, k, q) && NextIs(p, k, q) && q < a.issued
    ensures k < |a.order| && k in a.pending && a.order[k] == p.hist[k]
    ensures Fitted(a.(pending := a.pending - {k}), p, k + 1, q + 1)
  {
    MatchFitted(a, p, k, q);
  }

  /**
   A recorded schedule finds its own work: the drop loops bring exactly the recorded item to the
   recorded number, whichever optional timers the history lacks.
   */
  lemma RecordAligned(s: State, p: Program, k: nat, e: ScheduleEvent)
    requires Aligned(s, p, k) && Consistent(s, p, k, Record(e))
    ensures OnScheduled(s, e).1 && Aligned(OnScheduled(s, e).0, p, k + 1)
  {
    hide Numbering.CoreInv, Numbering.DropAll, Numbering.DropAt, Fitted;
    var pos: nat :| Fitted(ShapeOf(s), p, k, pos);
    if IsOptional(p.hist[k].work) {
      RecordOptional(s, p, k, pos);
    } else {
      RecordPlain(s, p, k, pos, e);
    }
  }

  lemma RecordPlain(s: State, p: Program, k: nat, pos: nat, e: ScheduleEvent)
    requires Inv(s) && Fitted(ShapeOf(s), p, k, pos) && Consistent(s, p, k, Record(e)) && !IsOptional(p.hist[k].work)
    ensures OnScheduled(s, e).1 && Aligned(OnScheduled(s, e).0, p, k + 1)
  {
    hide Numbering.CoreInv, Numbering.DropAll, Numbering.DropAt;
    var q := NextExists(p, k, pos);
    if e.DetachedCreated? {
      RecordDetached(s, p, k, pos, q);
    } else {
      DropAllFitted(s, p, k, pos, q);
      DropAllKeepsIssued(s, k);
      if e.TimerCreated? {
        RecordTimer(s, p, k, q);
      } else {
        RecordRetired(DropAll(s, k), p, k, q);
      }
    }
  }

  lemma RecordRetired(s: State, p: Program, k: nat, q: nat)
    requires Inv(s) && Fitted(ShapeOf(s), p, k, q) && NextIs(p, k, q) && q < s.issued && Recordable(p.hist[k].work)
    ensures var (s', ok) := Retire(s, RecordOf(p.hist[k], k)); ok && Aligned(s', p, k + 1)
  {
    var e := RecordOf(p.hist[k], k);
    NextFitted(ShapeOf(s), p, k, q);
    PendingItem(s, k);
    RetireKeepsInv(s, e);
    assert ShapeOf(Retire(s, e).0) == ShapeOf(s).(pending := s.actions.Keys - {k});
  }

  /** Dropping one of two adjacent optional timers leaves the other in its place. */
  lemma DropAtMovesNext(s: State, k: nat)
    requires Inv(s) && OptionalAt(s, k) && OptionalAt(s, k + 1)
    ensures OptionalAt(DropAt(s, k), k)
  {
    DropAtShape(s, k);
    PendingItem(s, k + 1);
    ShiftKeysMember(s.actions.Keys, k, k);
    assert Without(s.order, k)[k] == s.order[k + 1];
    PendingItem(DropAt(s, k), k);
  }

  lemma GapIsOne(s: State, p: Program, k: nat, pos: nat, q: nat)
    requires Inv(s) && Fitted(ShapeOf(s), p, k, pos) && Gap(p, k, pos, q) && pos < q < s.issued &&
      AtMostOneOptional(s, k)
    ensures pos + 1 == q && OptionalAt(s, k)
  {
    PendingItem(s, k);
    PendingItem(s, k + 1);
    assert s.order[k + 1] == p.ItemAt(pos + 1);
  }

  lemma DropAtFitted(s: State, p: Program, k: nat, pos: nat)
    requires Inv(s) && Fitted(ShapeOf(s), p, k, pos) && Fits(p, k, pos + 1) && OptionalAt(s, k)
    ensures Inv(DropAt(s, k)) && Fitted(ShapeOf(DropAt(s, k)), p, k, pos + 1) && DropAt(s, k).issued == s.issued
  {
    PendingItem(s, k);
    DropAtShape(s, k);
    DropFitted(ShapeOf(s), p, k, pos);
  }

  lemma RetiredAfterDrop(s: State, p: Program, k: nat, pos: nat)
    requires Inv(s) && Fitted(ShapeOf(s), p, k, pos) && Fits(p, k, pos + 1) && OptionalAt(s, k)
    requires NextIs(p, k, pos + 1) && pos + 1 < s.issued && Recordable(p.hist[k].work)
    ensures var (s', ok) := Retire(DropAt(s, k), RecordOf(p.hist[k], k)); ok && Aligned(s', p, k + 1)
  {
    DropAtFitted(s, p, k, pos);
    RecordRetired(DropAt(s, k), p, k, pos + 1);
  }

  lemma OnDetachedDropping(s: State, e: ScheduleEvent)
    requires Inv(s) && OptionalAt(s, e.id)
    ensures OnDetachedRecorded(s, e) == Retire(DropAt(s, e.id), e)
  {
  }

  lemma RecordDetachedDropping(s: State, p: Program, k: nat, pos: nat)
    requires Inv(s) && Fitted(ShapeOf(s), p, k, pos) && Fits(p, k, pos + 1) && OptionalAt(s, k)
    requires NextIs(p, k, pos + 1) && pos + 1 < s.issued && p.hist[k].work.Detached?
    ensures var e := RecordOf(p.hist[k], k); OnDetachedRecorded(s, e).1 && Aligned(OnDetachedRecorded(s, e).0, p, k + 1)
  {
    var e := RecordOf(p.hist[k], k);
    assert e.id == k;
    assert OnDetachedRecorded(s, e) == Retire(DropAt(s, k), e) by { OnDetachedDropping(s, e); }
    RetiredAfterDrop(s, p, k, pos);
  }

  lemma RecordDetachedDirectly(s: State, p: Program, k: nat, q: nat)
    requires Inv(s) && Fitted(ShapeOf(s), p, k, q) && NextIs(p, k, q) && q < s.issued && p.hist[k].work.Detached?
    ensures var e := RecordOf(p.hist[k], k); OnDetachedRecorded(s, e).1 && Aligned(OnDetachedRecorded(s, e).0, p, k + 1)
  {
    NextFitted(ShapeOf(s), p, k, q);
    PendingItem(s, k);
    RecordRetired(s, p, k, q);
  }

  lemma RecordDetached(s: State, p: Program, k: nat, pos: nat, q: nat)
    requires Inv(s) && Fitted(ShapeOf(s), p, k, pos) && NextIs(p, k, q) && Gap(p, k, pos, q) && q < s.issued
    requires p.hist[k].work.Detached? && AtMostOneOptional(s, k)
    ensures var e := RecordOf(p.hist[k], k); OnDetachedRecorded(s, e).1 && Aligned(OnDetachedRecorded(s, e).0, p, k + 1)
  {
    if pos < q {
      GapIsOne(s, p, k, pos, q);
      RecordDetachedDropping(s, p, k, pos);
    } else {
      RecordDetachedDirectly(s, p, k, q);
    }
  }

  lemma DetachedRejected(s: State, e: ScheduleEvent)
    requires Inv(s) && e.DetachedCreated? && e.id >= 0 && !AtMostOneOptional(s, e.id)
    ensures !OnDetachedRecorded(s, e).1
  {
    DropAtMovesNext(s, e.id);
  }

  lemma DetachedAccepted(s: State, p: Program, k: nat)
    requires Aligned(s, p, k) && k < |p.hist| && p.hist[k].work.Detached? && p.hist[k].n < s.issued &&
      AtMostOneOptional(s, k)
    ensures OnDetachedRecorded(s, RecordOf(p.hist[k], k)).1
  {
    var pos: nat :| Fitted(ShapeOf(s), p, k, pos);
    var q := NextExists(p, k, pos);
    RecordDetached(s, p, k, pos, q);
  }

  /** A detached schedule is matched exactly when at most one optional timer is outstanding before it. */
  lemma DetachedMatchedIff(s: State, p: Program, k: nat)
    requires Aligned(s, p, k) && k < |p.hist| && p.hist[k].work.Detached? && p.hist[k].n < s.issued
    ensures OnDetachedRecorded(s, RecordOf(p.hist[k], k)).1 <==> AtMostOneOptional(s, k)
  {
    if AtMostOneOptional(s, k) {
      DetachedAccepted(s, p, k);
    } else {
      DetachedRejected(s, RecordOf(p.hist[k], k));
    }
  }

  /** Two waits without a timeout before a detached schedule: an older history is rejected. */
  lemma DetachedBehindTwoWaits(name: Name, instance: string)
    ensures var wait := Timer(ExternalEvent(name), INDEFINITE);
            var s := Schedule(Schedule(Schedule(INIT, wait), wait), Detached(instance));
            Inv(s) && !OnDetachedRecorded(s, DetachedCreated(0, instance)).1
  {
    hide Numbering.Schedule, Numbering.CoreInv, Numbering.DropAt;
    var wait := Timer(ExternalEvent(name), INDEFINITE);
    var s1 := Schedule(INIT, wait);
    var s2 := Schedule(s1, wait);
    var s := Schedule(s2, Detached(instance));
    InitInv();
    ScheduleKeepsInv(INIT, wait);
    ScheduleKeepsInv(s1, wait);
    ScheduleKeepsInv(s2, Detached(instance));
    ScheduleShape(INIT, wait);
    ScheduleShape(s1, wait);
    ScheduleShape(s2, Detached(instance));
    NumbersAreOrder(s1);
    PendingItem(s, 0);
    PendingItem(s, 1);
    DropAtMovesNext(s, 0);
  }

  lemma NumbersAreOrder(s: State)
    requires Inv(s)
    ensures s.seqNo == |s.order|
  {
  }

  /******* Whole replays *******/

  function Matched(k: nat, step: Step): nat {
    if step.Record? then k + 1 else k
  }

  function MatchedAll(k: nat, steps: seq<Step>): nat
    decreases steps
  {
    if steps == [] then k else MatchedAll(Matched(k, steps[0]), steps[1..])
  }

  ghost predicate ConsistentRun(s: State, p: Program, k: nat, steps: seq<Step>)
    requires Inv(s)
    decreases steps
  {
    steps == [] ||
    (Consistent(s, p, k, steps[0]) &&
     (NextKeepsInv(s, steps[0]);
      ConsistentRun(Next(s, steps[0]), p, Matched(k, steps[0]), steps[1..])))
  }

  /** Every recorded schedule was accepted. */
  ghost predicate AllAccepted(s: State, steps: seq<Step>)
    requires Inv(s)
    decreases steps
  {
    steps == [] ||
    ((steps[0].Record? ==> OnScheduled(s, steps[0].e).1) &&
     (NextKeepsInv(s, steps[0]); AllAccepted(Next(s, steps[0]), steps[1..])))
  }

  lemma NextAligned(s: State, p: Program, k: nat, step: Step)
    requires Aligned(s, p, k) && Consistent(s, p, k, step)
    ensures Aligned(Next(s, step), p, Matched(k, step))
    ensures step.Record? ==> OnScheduled(s, step.e).1
  {
    match step
    case Call(w) =>
      var pos: nat :| Fitted(ShapeOf(s), p, k, pos);
      ScheduleKeepsInv(s, w);
      ScheduleShape(s, w);
      CallFitted(ShapeOf(s), p, k, pos);
    case Resolve(r) =>
      DeliverKeepsInv(s, r);
      DeliverShape(s, r);
    case Record(e) => RecordAligned(s, p, k, e);
  }

  lemma {:induction false} RunAligned(s: State, p: Program, k: nat, steps: seq<Step>)
    requires Aligned(s, p, k) && ConsistentRun(s, p, k, steps)
    ensures Aligned(Run(s, steps), p, MatchedAll(k, steps)) && AllAccepted(s, steps)
    decreases steps
  {
    if steps != [] {
      NextKeepsInv(s, steps[0]);
      NextAligned(s, p, k, steps[0]);
      RunAligned(Next(s, steps[0]), p, Matched(k, steps[0]), steps[1..]);
    }
  }

  /** In an aligned replay a result is only ever given to the work its number was recorded for. */
  lemma ResolvedIsRecorded(s: State, p: Program, k: nat, key: ResolutionKey)
    requires Aligned(s, p, k) && key in s.resolved && key.id < |p.hist|
    ensures 0 <= key.id < |s.order| && Recognises(s.order[key.id], p.hist[key.id])
  {
    var pos: nat :| Fitted(ShapeOf(s), p, k, pos);
    var id := key.id;
    if id >= k {
      forall i | pos <= i <= pos + (id - k) ensures !IsOptional(p.works[i]) {
        assert s.order[k + (i - pos)] == p.ItemAt(i);
        PendingItem(s, k + (i - pos));
        assert k + (i - pos) in s.optional ==> Provisional(s, id);
      }
      FitsPrefix(p, k, pos, id - k);
      assert s.order[id] == p.ItemAt(pos + (id - k));
    }
  }

  /**
   Alignment: replaying any history that lacks some or all optional timers accepts every recorded
   schedule, numbers the recorded work as recorded, and gives each result to the work that the
   history recorded under the result's number.
   */
  lemma ReplayAligns(p: Program, steps: seq<Step>)
    requires Fits(p, 0, 0)
    requires ConsistentRun(INIT, p, 0, steps)
    ensures AllAccepted(INIT, steps)
    ensures var s, k := Run(INIT, steps), MatchedAll(0, steps);
            && k <= |s.order| && k <= |p.hist|
            && (forall j :: 0 <= j < k ==> Recognises(s.order[j], p.hist[j]))
            && (forall key :: key in s.resolved && key.id < |p.hist| ==>
                  0 <= key.id < |s.order| && Recognises(s.order[key.id], p.hist[key.id]))
  {
    InitInv();
    assert Fitted(ShapeOf(INIT), p, 0, 0);
    RunAligned(INIT, p, 0, steps);
    var s, k := Run(INIT, steps), MatchedAll(0, steps);
    forall key | key in s.resolved && key.id < |p.hist|
      ensures 0 <= key.id < |s.order| && Recognises(s.order[key.id], p.hist[key.id])
    {
      ResolvedIsRecorded(s, p, k, key);
    }
  }

  /** A history of a release without optional timers: every number means the same work as then. */
  lemma LegacyReplay(works: seq<Work>, steps: seq<Step>)
    requires var p := Program(works, LegacyFrom(works, 0)); ConsistentRun(INIT, p, 0, steps)
    ensures var legacy := LegacyFrom(works, 0);
            var s, k := Run(INIT, steps), MatchedAll(0, steps);
            && AllAccepted(INIT, steps)
            && k <= |s.order| && k <= |legacy|
            && (forall j :: 0 <= j < k ==> s.order[j] == legacy[j])
            && (forall key :: key in s.resolved && key.id < |legacy| ==>
                  0 <= key.id < |s.order| && s.order[key.id] == legacy[key.id])
  {
    var p := Program(works, LegacyFrom(works, 0));
    assert p.hist[0..] == p.hist;
    LegacyFits(p, 0, 0);
    ReplayAligns(p, steps);
  }

  /******* Histories that record every optional timer *******/

  ghost predicate Undropped(s: State, p: Program, k: nat) {
    && Inv(s)
    && |s.order| == s.issued <= |p.works|
    && (forall j :: 0 <= j < |s.order| ==> s.order[j] == p.ItemAt(j))
    && (forall j :: k <= j < |s.order| ==> j in s.actions)
  }

  lemma NextUndropped(s: State, p: Program, k: nat, step: Step)
    requires Undropped(s, p, k) && Consistent(s, p, k, step)
    requires |p.hist| <= |p.works| && forall i :: 0 <= i < |p.hist| ==> p.hist[i] == p.ItemAt(i)
    ensures Undropped(Next(s, step), p, Matched(k, step))
    ensures step.Record? ==> Next(s, step).order == s.order
  {
    NextKeepsInv(s, step);
    match step
    case Call(w) => ScheduleShape(s, w);
    case Resolve(r) => DeliverShape(s, r);
    case Record(e) => RecordUndropped(s, p, k);
  }

  lemma RecordUndropped(s: State, p: Program, k: nat)
    requires Undropped(s, p, k) && k < |p.works| && Recordable(p.works[k]) && k < |s.order|
    ensures var e := RecordOf(p.ItemAt(k), k);
            ShapeOf(OnScheduled(s, e).0) == ShapeOf(s).(pending := s.actions.Keys - {k})
  {
    var e := RecordOf(p.ItemAt(k), k);
    PendingItem(s, k);
    if e.TimerCreated? {
      if OptionalTimer(e.origin, e.fireAt) { OnOptionalTimer(s, e); } else { OnPlainTimer(s, e); }
      ConfirmShape(s, k);
    }
  }

  /** Replaying a history that records every optional timer never drops or renumbers anything. */
  lemma {:induction false} ModernNeverDrops(s: State, p: Program, k: nat, steps: seq<Step>)
    requires Undropped(s, p, k) && ConsistentRun(s, p, k, steps)
    requires |p.hist| <= |p.works| && forall i :: 0 <= i < |p.hist| ==> p.hist[i] == p.ItemAt(i)
    ensures Undropped(Run(s, steps), p, MatchedAll(k, steps))
    ensures s.order <= Run(s, steps).order
    decreases steps
  {
    if steps != [] {
      NextKeepsInv(s, steps[0]);
      NextUndropped(s, p, k, steps[0]);
      if steps[0].Call? { ScheduleShape(s, steps[0].work); }
      if steps[0].Resolve? { DeliverShape(s, steps[0].r); }
      ModernNeverDrops(Next(s, steps[0]), p, Matched(k, steps[0]), steps[1..]);
    }
  }
}
