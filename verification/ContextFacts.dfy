/** Facts about values that the methods of WorkflowContext use. */
module ContextFacts {
  import opened Work
  import N = Numbering
  import T = NumberingTheorems
  import X = ExternalEvents
  import opened Replay
  import Shifting

  /******* Lists of waiters *******/

  /** The lists that are linked under a name. */
  ghost function Deref(links: map<Name, nat>, lists: seq<seq<X.Waiter>>): (m: map<Name, seq<X.Waiter>>) {
    map name | name in links && links[name] < |lists| :: lists[links[name]]
  }

  /** Every linked list exists and was made for the name it is linked under. */
  ghost predicate Owned(links: map<Name, nat>, lists: seq<seq<X.Waiter>>, owner: seq<Name>) {
    |owner| == |lists| && forall name :: name in links ==> links[name] < |lists| && owner[links[name]] == name
  }

  /** Every waiter that is not done joined the list that is linked for its name. */
  ghost predicate Joined(x: X.Ext, listOf: map<X.Waiter, nat>, links: map<Name, nat>) {
    forall w :: X.Pending(x, w) ==> w in listOf && w.name in links && listOf[w] == links[w.name]
  }

  ghost predicate Wired(x: X.Ext, links: map<Name, nat>, lists: seq<seq<X.Waiter>>, owner: seq<Name>,
                        listOf: map<X.Waiter, nat>) {
    Owned(links, lists, owner) && Joined(x, listOf, links)
  }

  /** Replacing a linked list, or unlinking it, changes what is linked under its own name only. */
  lemma DerefPut(links: map<Name, nat>, lists: seq<seq<X.Waiter>>, owner: seq<Name>, name: Name, q: seq<X.Waiter>)
    requires Owned(links, lists, owner) && name in links
    ensures Owned(links, lists[links[name] := q], owner)
    ensures Deref(links, lists[links[name] := q]) == Deref(links, lists)[name := q]
    ensures Owned(links - {name}, lists, owner) && Deref(links - {name}, lists) == Deref(links, lists) - {name}
  {
  }

  /** A fired timer takes its waiter out of the list it joined, or unlinks that list. */
  lemma WiredExpire(x: X.Ext, links: map<Name, nat>, lists: seq<seq<X.Waiter>>, owner: seq<Name>,
                    listOf: map<X.Waiter, nat>, w: X.Waiter)
    requires Wired(x, links, lists, owner, listOf) && x.queue == Deref(links, lists) && X.Inv(x) && X.Pending(x, w)
    ensures w in listOf && listOf[w] < |lists|
    ensures var l := listOf[w];
            var q, x' := X.Without(lists[l], {w}), X.Expire(x, {w});
            if |lists[l]| > 1
            then x' == x.(done := x.done[w := X.Cancelled], queue := Deref(links, lists[l := q])) &&
                 Wired(x', links, lists[l := q], owner, listOf)
            else x' == x.(done := x.done[w := X.Cancelled], queue := Deref(links - {w.name}, lists)) &&
                 Wired(x', links - {w.name}, lists, owner, listOf)
  {
    hide X.Inv, X.Expire, X.Without;
    PendingQueued(x, w);
    JoinedAfterExpire(x, listOf, links, w);
    ExpiresOne(x, w);
    DerefPut(links, lists, owner, w.name, X.Without(lists[listOf[w]], {w}));
  }

  /******* Expiring waiters *******/

  lemma {:induction false} WithoutNobody(q: seq<X.Waiter>)
    ensures X.Without(q, {}) == q
  {
    if q != [] { WithoutNobody(q[1..]); }
  }

  lemma {:induction false} WithoutAbsent(q: seq<X.Waiter>, w: X.Waiter)
    requires w !in q
    ensures X.Without(q, {w}) == q
  {
    if q != [] { WithoutAbsent(q[1..], w); }
  }

  lemma {:induction false} WithoutTwice(q: seq<X.Waiter>, a: set<X.Waiter>, b: set<X.Waiter>)
    ensures X.Without(X.Without(q, a), b) == X.Without(q, a + b)
  {
    if q != [] {
      WithoutTwice(q[1..], a, b);
      if q[0] in a {
        assert X.Without(q, a) == X.Without(q[1..], a);
        assert X.Without(q, a + b) == X.Without(q[1..], a + b);
      } else {
        assert X.Without(q, a) == [q[0]] + X.Without(q[1..], a);
        assert X.Without(q, a)[1..] == X.Without(q[1..], a);
      }
    }
  }

  function ExpireQueue(queue: map<Name, seq<X.Waiter>>, gone: set<X.Waiter>): map<Name, seq<X.Waiter>> {
    map name | name in queue && X.Without(queue[name], gone) != [] :: X.Without(queue[name], gone)
  }

  function ExpireDone(done: map<X.Waiter, X.WaitOutcome>, gone: set<X.Waiter>): map<X.Waiter, X.WaitOutcome> {
    done + map w | w in gone && w !in done :: X.Cancelled
  }

  lemma ExpireParts(x: X.Ext, gone: set<X.Waiter>)
    ensures X.Expire(x, gone) == x.(queue := ExpireQueue(x.queue, gone), done := ExpireDone(x.done, gone))
  {
  }

  lemma ExpireNobody(x: X.Ext)
    requires X.Inv(x)
    ensures X.Expire(x, {}) == x
  {
    forall name | name in x.queue ensures X.Without(x.queue[name], {}) == x.queue[name] {
      WithoutNobody(x.queue[name]);
    }
    assert ExpireQueue(x.queue, {}) == x.queue;
    assert ExpireDone(x.done, {}) == x.done;
    ExpireParts(x, {});
  }

  lemma ExpireQueueTwice(queue: map<Name, seq<X.Waiter>>, a: set<X.Waiter>, b: set<X.Waiter>)
    ensures ExpireQueue(ExpireQueue(queue, a), b) == ExpireQueue(queue, a + b)
  {
    forall name | name in queue ensures X.Without(X.Without(queue[name], a), b) == X.Without(queue[name], a + b) {
      WithoutTwice(queue[name], a, b);
    }
    assert X.Without([], b) == [];
  }

  lemma ExpireDoneTwice(done: map<X.Waiter, X.WaitOutcome>, a: set<X.Waiter>, b: set<X.Waiter>)
    ensures ExpireDone(ExpireDone(done, a), b) == ExpireDone(done, a + b)
  {
  }

  lemma ExpireTwice(x: X.Ext, a: set<X.Waiter>, b: set<X.Waiter>)
    ensures X.Expire(X.Expire(x, a), b) == X.Expire(x, a + b)
  {
    hide X.Expire, ExpireQueue, ExpireDone;
    ExpireParts(x, a);
    ExpireParts(x, a + b);
    ExpireParts(X.Expire(x, a), b);
    ExpireQueueTwice(x.queue, a, b);
    ExpireDoneTwice(x.done, a, b);
  }

  lemma PendingQueued(x: X.Ext, w: X.Waiter)
    requires X.Inv(x) && X.Pending(x, w)
    ensures w.name in x.queue && w in x.queue[w.name]
    ensures X.Without(x.queue[w.name], {w}) == [] <==> |x.queue[w.name]| == 1
  {
    assert X.QueueOf(x, w.name, X.Get(x.queue, w.name));
    SoleWaiter(x.queue[w.name], w);
  }

  lemma SoleWaiter(q: seq<X.Waiter>, w: X.Waiter)
    requires w in q && X.Ordered(q)
    ensures X.Without(q, {w}) == [] <==> |q| == 1
  {
    if |q| == 1 {
      assert q[1..] == [];
    } else {
      var other := if q[0] == w then q[1] else q[0];
      X.WithoutMembers(q, {w});
      assert other in X.Without(q, {w});
    }
  }

  /** A fired timer takes its waiter out of its own list and leaves every other list alone. */
  lemma ExpiresOne(x: X.Ext, w: X.Waiter)
    requires X.Inv(x) && X.Pending(x, w) && w.name in x.queue
    ensures X.Expire(x, {w}) ==
      x.(done := x.done[w := X.Cancelled], queue := X.Put(x.queue, w.name, X.Without(x.queue[w.name], {w})))
  {
    hide ExpireQueue, X.Expire;
    ExpireParts(x, {w});
    assert ExpireDone(x.done, {w}) == x.done[w := X.Cancelled];
    forall name | name in x.queue && name != w.name ensures w !in x.queue[name] && x.queue[name] != [] {
      assert X.QueueOf(x, name, X.Get(x.queue, name));
    }
    ExpiresInOne(x.queue, w);
  }

  lemma ExpiresInOne(queue: map<Name, seq<X.Waiter>>, w: X.Waiter)
    requires w.name in queue
    requires forall name :: name in queue && name != w.name ==> w !in queue[name] && queue[name] != []
    ensures ExpireQueue(queue, {w}) == X.Put(queue, w.name, X.Without(queue[w.name], {w}))
  {
    forall name | name in queue && name != w.name ensures X.Without(queue[name], {w}) == queue[name] {
      WithoutAbsent(queue[name], w);
    }
  }

  lemma DoneExpires(x: X.Ext, w: X.Waiter)
    requires X.Inv(x) && w in x.done
    ensures X.Expire(x, {w}) == x
  {
    ExpireParts(x, {w});
    forall name | name in x.queue ensures X.Without(x.queue[name], {w}) == x.queue[name] && x.queue[name] != [] {
      assert X.QueueOf(x, name, X.Get(x.queue, name));
      WithoutAbsent(x.queue[name], w);
    }
    assert ExpireQueue(x.queue, {w}) == x.queue;
    assert ExpireDone(x.done, {w}) == x.done;
  }

  lemma JoinedAfterExpire(x: X.Ext, listOf: map<X.Waiter, nat>, links: map<Name, nat>, w: X.Waiter)
    requires X.Inv(x) && X.Pending(x, w) && Joined(x, listOf, links) && links.Keys == x.queue.Keys
    ensures w in listOf && w.name in links && listOf[w] == links[w.name]
    ensures Joined(X.Expire(x, {w}), listOf, links)
    ensures X.Without(X.Get(x.queue, w.name), {w}) == [] ==> Joined(X.Expire(x, {w}), listOf, links - {w.name})
  {
    hide X.Inv, X.Without;
    assert forall v :: X.Pending(X.Expire(x, {w}), v) ==> X.Pending(x, v) && v != w;
    if X.Without(X.Get(x.queue, w.name), {w}) == [] {
      forall v | X.Pending(x, v) && v != w ensures v.name != w.name {
        NobodyElse(x, w, v);
      }
    }
  }

  lemma NobodyElse(x: X.Ext, w: X.Waiter, v: X.Waiter)
    requires X.Inv(x) && X.Pending(x, v) && v != w && X.Without(X.Get(x.queue, w.name), {w}) == []
    ensures v.name != w.name
  {
    assert X.QueueOf(x, v.name, X.Get(x.queue, v.name));
    X.WithoutMembers(X.Get(x.queue, v.name), {w});
  }

  /******* Settling *******/

  /** The waiters whose timer completed between two sets of results. */
  ghost function Fired(callbacks: map<Item, X.Waiter>, before: map<Item, Outcome>, after: map<Item,
                       Outcome>): set<X.Waiter> {
    set item | item in callbacks && item in after && item !in before :: callbacks[item]
  }

  /** Every callback belongs to an issued waiter, and a completed timer leaves no waiter behind. */
  ghost predicate Bound(x: X.Ext, callbacks: map<Item, X.Waiter>, issued: nat, outcome: map<Item, Outcome>) {
    && X.Inv(x)
    && (forall item :: item in callbacks ==> item.n < issued && X.Issued(x, callbacks[item]))
    && (forall item :: item in callbacks && item in outcome ==> callbacks[item] in x.done)
  }

  lemma FiredKeepsBound(x: X.Ext, callbacks: map<Item, X.Waiter>, issued: nat, before: map<Item, Outcome>,
                        after: map<Item, Outcome>)
    requires Bound(x, callbacks, issued, before)
    ensures Bound(X.Expire(x, Fired(callbacks, before, after)), callbacks, issued, after)
  {
    hide X.Inv;
    var gone := Fired(callbacks, before, after);
    X.ExpireKeepsInv(x, gone);
    forall item | item in callbacks && item in after ensures callbacks[item] in X.Expire(x, gone).done {
      if item !in before { assert callbacks[item] in gone; }
    }
  }

  lemma FinishFires(c: N.State, x: X.Ext, callbacks: map<Item, X.Waiter>, r: Resolution)
    requires N.CoreInv(c) && N.Matches(c, r.KeyOf()) && r.KeyOf() !in c.buffered
    requires Bound(x, callbacks, c.issued, c.outcome)
    ensures X.Inv(x) && r.id in c.tasks && N.CoreInv(N.Finish(c, r))
    ensures var item, after := c.tasks[r.id], N.Finish(c, r).outcome;
            && Bound(X.Expire(x, Fired(callbacks, c.outcome, after)), callbacks, c.issued, after)
            && (if item in callbacks
                then X.Issued(x, callbacks[item]) && Fired(callbacks, c.outcome, after) == {callbacks[item]}
                else X.Expire(x, Fired(callbacks, c.outcome, after)) == x)
  {
    hide X.Inv, X.Expire;
    N.FinishKeepsInv(c, r);
    var item, after := c.tasks[r.id], N.Finish(c, r).outcome;
    FiredKeepsBound(x, callbacks, c.issued, c.outcome, after);
    assert item !in c.outcome;
    if item !in callbacks {
      assert Fired(callbacks, c.outcome, after) == {};
      ExpireNobody(x);
    }
  }

  lemma TasksHaveKinds(c: N.State)
    requires N.CoreInv(c)
    ensures forall k :: k in c.tasks ==> HasTask(c.tasks[k].work)
  {
  }

  lemma NothingFires(c: N.State, x: X.Ext, callbacks: map<Item, X.Waiter>)
    requires Bound(x, callbacks, c.issued, c.outcome)
    ensures X.Expire(x, Fired(callbacks, c.outcome, c.outcome)) == x
  {
    assert Fired(callbacks, c.outcome, c.outcome) == {};
    ExpireNobody(x);
  }

  lemma BufferFires(c: N.State, x: X.Ext, callbacks: map<Item, X.Waiter>, r: Resolution)
    requires N.CoreInv(c) && !N.Matches(c, r.KeyOf()) && Bound(x, callbacks, c.issued, c.outcome)
    ensures N.CoreInv(N.Buffer(c, r)) && X.Expire(x, Fired(callbacks, c.outcome, N.Buffer(c, r).outcome)) == x
  {
    N.BufferKeepsInv(c, r);
    NothingFires(c, x, callbacks);
  }

  /** A buffered resolution can be taken out and delivered again. */
  lemma Unbuffered(c: N.State, key: ResolutionKey)
    requires N.CoreInv(c) && key in c.buffered
    ensures c.buffered[key].KeyOf() == key && N.CoreInv(c.(buffered := c.buffered - {key}))
  {
    assert forall id :: N.Provisional(c.(buffered := c.buffered - {key}), id) == N.Provisional(c, id);
  }

  lemma FiredTwice(x: X.Ext, callbacks: map<Item, X.Waiter>, a: map<Item, Outcome>, b: map<Item, Outcome>, c: map<Item,
                   Outcome>)
    requires a.Keys <= b.Keys <= c.Keys
    ensures X.Expire(X.Expire(x, Fired(callbacks, a, b)), Fired(callbacks, b, c)) == X.Expire(x, Fired(callbacks, a, c))
  {
    ExpireTwice(x, Fired(callbacks, a, b), Fired(callbacks, b, c));
    assert Fired(callbacks, a, b) + Fired(callbacks, b, c) == Fired(callbacks, a, c);
  }

  lemma {:induction false} ConsumeEachGrows(c: N.State, ids: seq<int>)
    ensures c.outcome.Keys <= N.ConsumeEach(c, ids).outcome.Keys
  {
    if ids != [] { ConsumeEachGrows(c, ids[..|ids| - 1]); }
  }

  lemma ConsumeEachSnoc(c: N.State, ids: seq<int>, i: nat)
    requires i < |ids|
    ensures N.ConsumeEach(c, ids[..i + 1]) == N.ConsumeAt(N.ConsumeEach(c, ids[..i]), ids[i])
    ensures c.outcome.Keys <= N.ConsumeEach(c, ids[..i]).outcome.Keys <= N.ConsumeEach(c, ids[..i + 1]).outcome.Keys
  {
    assert ids[..i + 1][..i] == ids[..i];
    ConsumeEachGrows(c, ids[..i]);
  }

  lemma {:induction false} NothingBuffered(c: N.State, ids: seq<int>)
    requires c.buffered == map[]
    ensures N.ConsumeEach(c, ids) == c
  {
    if ids != [] { NothingBuffered(c, ids[..|ids| - 1]); }
  }

  lemma MatchesWhen(c: N.State, r: Resolution)
    requires N.CoreInv(c)
    ensures forall k :: k in c.tasks ==> HasTask(c.tasks[k].work)
    ensures N.Matches(c, r.KeyOf()) <==>
      r.id in c.tasks && WorkKind(c.tasks[r.id].work) == r.KindOf() && !N.Provisional(c, r.id)
  {
  }

  lemma ActionIds(c: N.State)
    requires N.CoreInv(c)
    ensures (forall k :: k in c.actions ==> c.actions[k].id == k) && c.optional <= c.actions.Keys
  {
    forall k | k in c.optional ensures k in c.actions {
      assert N.OptionalAt(c, k);
    }
  }

  lemma DropSteps(c: N.State, at: int)
    requires N.CoreInv(c) && N.NoLostWakeUp(c, {}) && N.OptionalAt(c, at)
    ensures 0 <= at < |c.order| && N.CoreInv(N.Shift(c, at)) && N.CoreInv(N.DropAt(c, at)) &&
      N.NoLostWakeUp(N.DropAt(c, at), {})
    ensures N.DropAt(c, at) ==
      N.ConsumeEach(N.Shift(c, at), Shifting.Decremented(N.Ascending(Shifting.Later(c.tasks - {at}, at))))
  {
    N.DropAtKeepsInv(c, at);
    N.ShiftKeepsInv(c, at);
    Shifting.MovedIds(c.tasks, at);
  }

  lemma DropAllUnfolds(c: N.State, id: int)
    requires N.CoreInv(c) && N.NoLostWakeUp(c, {})
    ensures if N.OptionalAt(c, id)
            then 0 <= id < |c.order| && N.Inv(N.DropAt(c, id)) && N.DropAll(c, id) == N.DropAll(N.DropAt(c, id), id) &&
                 |N.DropAt(c, id).order| < |c.order| && c.outcome.Keys <= N.DropAt(c, id).outcome.Keys
            else N.DropAll(c, id) == c
  {
    if N.OptionalAt(c, id) {
      N.DropAtKeepsInv(c, id);
      ConsumeEachGrows(N.Shift(c, id), N.Ascending(set k | k in N.Shift(c, id).tasks && k >= id));
    }
  }

  lemma RetireKeeps(c: N.State, e: ScheduleEvent)
    requires N.CoreInv(c) && N.NoLostWakeUp(c, {}) && !N.OptionalAt(c, e.id)
    ensures N.CoreInv(N.Retire(c, e).0) && N.NoLostWakeUp(N.Retire(c, e).0, {})
  {
    N.RetireKeepsInv(c, e);
  }

  lemma {:induction false} DropAllGrows(c: N.State, id: int)
    requires N.CoreInv(c) && N.NoLostWakeUp(c, {})
    ensures c.outcome.Keys <= N.DropAll(c, id).outcome.Keys
    decreases |c.order|
  {
    DropAllUnfolds(c, id);
    if N.OptionalAt(c, id) { DropAllGrows(N.DropAt(c, id), id); }
  }

  lemma ConfirmSteps(c: N.State, id: int)
    requires N.CoreInv(c) && N.NoLostWakeUp(c, {})
    ensures var c1 := c.(actions := c.actions - {id}, optional := c.optional - {id});
            && N.CoreInv(c1)
            && N.CoreInv(N.ConfirmTimer(c, id)) && N.NoLostWakeUp(N.ConfirmTimer(c, id), {})
            && N.ConfirmTimer(c, id) == N.ConsumeEach(c1, N.Ascending(c1.tasks.Keys))
            && c.outcome.Keys <= N.ConfirmTimer(c, id).outcome.Keys
  {
    N.ConfirmTimerKeepsInv(c, id);
    N.ConfirmedCore(c, id);
    var c1 := c.(actions := c.actions - {id}, optional := c.optional - {id});
    ConsumeEachGrows(c1, N.Ascending(c1.tasks.Keys));
  }

  lemma TimerRecordedSteps(c: N.State, e: ScheduleEvent) returns (c1: N.State)
    requires N.CoreInv(c) && N.NoLostWakeUp(c, {}) && e.TimerCreated?
    ensures c1 == if OptionalTimer(e.origin, e.fireAt) then c else N.DropAll(c, e.id)
    ensures c.outcome.Keys <= c1.outcome.Keys <= N.ConfirmTimer(c1, e.id).outcome.Keys
    ensures N.OnTimerRecorded(c, e) ==
      if e.id in c1.actions && c1.actions[e.id].item.work.Timer? then (N.ConfirmTimer(c1, e.id), true) else (c1, false)
  {
    hide N.CoreInv, N.NoLostWakeUp, N.DropAll, N.ConfirmTimer;
    c1 := if OptionalTimer(e.origin, e.fireAt) then c else N.DropAll(c, e.id);
    N.DropAllKeepsInv(c, e.id);
    DropAllGrows(c, e.id);
    ConfirmSteps(c1, e.id);
  }

  lemma ScheduleSteps(c: N.State, x: X.Ext, callbacks: map<Item, X.Waiter>, w: Work)
    requires N.CoreInv(c) && N.NoLostWakeUp(c, {}) && Bound(x, callbacks, c.issued, c.outcome)
    ensures N.CoreInv(N.Register(c, w)) && N.CoreInv(N.Schedule(c, w)) && N.NoLostWakeUp(N.Schedule(c, w), {})
    ensures Bound(x, callbacks, c.issued + 1, c.outcome)
  {
    N.RegisterKeepsInv(c, w);
    N.ScheduleKeepsInv(c, w);
  }

  /******* External events *******/

  lemma RaiseKeepsBound(x: X.Ext, callbacks: map<Item, X.Waiter>, issued: nat, outcome: map<Item, Outcome>, name: Name,
                        payload: string)
    requires Bound(x, callbacks, issued, outcome)
    ensures X.Inv(x) && Bound(X.Raise(x, name, payload), callbacks, issued, outcome)
  {
    hide X.Inv;
    X.RaiseKeepsInv(x, name, payload);
  }

  /** A raised event is given to the first waiter of the linked list, which then leaves the list. */
  lemma WiredRaise(x: X.Ext, links: map<Name, nat>, lists: seq<seq<X.Waiter>>, owner: seq<Name>,
                   listOf: map<X.Waiter, nat>, name: Name, payload: string)
    requires Wired(x, links, lists, owner, listOf) && x.queue == Deref(links, lists) && X.Inv(x)
    ensures name in links ==> links[name] < |lists| && lists[links[name]] != []
    ensures name in links ==>
      var l, q, x' := links[name], lists[links[name]], X.Raise(x, name, payload);
      && x'.done == x.done[q[0] := X.Received(payload)]
      && x' == x.(done := x'.done, received := x.received[name := X.Get(x.received, name) + [payload]],
                  queue := if |q| > 1 then Deref(links, lists[l := q[1..]]) else Deref(links - {name}, lists))
      && (if |q| > 1 then Wired(x', links, lists[l := q[1..]], owner, listOf)
          else Wired(x', links - {name}, lists, owner, listOf))
    ensures name !in links ==>
      && X.Raise(x, name, payload) == x.(events := x.events[name := X.Get(x.events, name) + [payload]])
      && Wired(X.Raise(x, name, payload), links, lists, owner, listOf)
  {
    if name in links {
      var q := lists[links[name]];
      assert X.QueueOf(x, name, X.Get(x.queue, name));
      assert q[0] in q;
      DerefPut(links, lists, owner, name, q[1..]);
      JoinedAfterRaise(x, listOf, links, name, payload);
    } else {
      assert forall w :: X.Pending(X.Raise(x, name, payload), w) <==> X.Pending(x, w);
    }
  }

  lemma JoinedAfterRaise(x: X.Ext, listOf: map<X.Waiter, nat>, links: map<Name, nat>, name: Name, payload: string)
    requires X.Inv(x) && Joined(x, listOf, links) && name in x.queue
    ensures Joined(X.Raise(x, name, payload), listOf, links)
    ensures |x.queue[name]| == 1 ==> Joined(X.Raise(x, name, payload), listOf, links - {name})
  {
    var q := x.queue[name];
    assert X.QueueOf(x, name, X.Get(x.queue, name));
    assert forall w :: X.Pending(X.Raise(x, name, payload), w) ==> X.Pending(x, w) && w != q[0];
    if |q| == 1 {
      assert forall w :: X.Pending(x, w) && w.name == name ==> w == q[0];
    }
  }

  lemma WaitKeepsBound(x: X.Ext, callbacks: map<Item, X.Waiter>, issued: nat, outcome: map<Item, Outcome>, name: Name,
                       zero: bool)
    requires Bound(x, callbacks, issued, outcome)
    ensures X.Inv(x) && Bound(X.Wait(x, name, zero), callbacks, issued, outcome)
    ensures X.Issued(X.Wait(x, name, zero), X.Waiter(|x.waiters|, name))
  {
    hide X.Inv;
    X.WaitKeepsInv(x, name, zero);
    WaitExtendsWaiters(x, name, zero);
  }

  lemma WiredWaitAtOnce(x: X.Ext, links: map<Name, nat>, lists: seq<seq<X.Waiter>>, owner: seq<Name>,
                        listOf: map<X.Waiter, nat>, name: Name, zero: bool)
    requires Wired(x, links, lists, owner, listOf) && X.Inv(x) && (name in x.events || zero)
    ensures Wired(X.Wait(x, name, zero), links, lists, owner, listOf)
    ensures var w, x' := X.Waiter(|x.waiters|, name), X.Wait(x, name, zero);
            if name in x.events
            then x.events[name] != [] &&
                 var events := x.events[name];
                 x' == x.(waiters := x.waiters + [w], done := x.done[w := X.Received(events[0])],
                          received := x.received[name := X.Get(x.received, name) + [events[0]]],
                          events := if |events| > 1 then x.events[name := events[1..]] else x.events - {name})
            else x' == x.(waiters := x.waiters + [w], done := x.done[w := X.Cancelled])
  {
    var w, x' := X.Waiter(|x.waiters|, name), X.Wait(x, name, zero);
    X.NewWaiter(x, w, x');
    assert forall v :: X.Pending(x', v) ==> X.Pending(x, v);
  }

  lemma WiredNewList(x: X.Ext, links: map<Name, nat>, lists: seq<seq<X.Waiter>>, owner: seq<Name>,
                     listOf: map<X.Waiter, nat>, name: Name)
    requires Wired(x, links, lists, owner, listOf) && x.queue == Deref(links, lists)
    ensures if name in links then Deref(links, lists) == x.queue[name := X.Get(x.queue, name)]
            else var links', lists' := links[name := |lists|], lists + [[]];
                 Wired(x, links', lists', owner + [name], listOf) &&
                 Deref(links', lists') == x.queue[name := X.Get(x.queue, name)]
  {
  }

  lemma WiredJoin(x: X.Ext, links: map<Name, nat>, lists: seq<seq<X.Waiter>>, owner: seq<Name>,
                  listOf: map<X.Waiter, nat>, name: Name)
    requires Wired(x, links, lists, owner, listOf) && name in links && X.Inv(x) && name !in x.events
    requires Deref(links, lists) == x.queue[name := X.Get(x.queue, name)]
    ensures links[name] < |lists|
    ensures var w, l, x' := X.Waiter(|x.waiters|, name), links[name], X.Wait(x, name, false);
            var lists' := lists[l := lists[l] + [w]];
            && x' == x.(waiters := x.waiters + [w], queue := Deref(links, lists'))
            && Wired(x', links, lists', owner, listOf[w := l])
  {
    hide X.Inv, Joined, Deref;
    var w, l := X.Waiter(|x.waiters|, name), links[name];
    DerefPut(links, lists, owner, name, lists[l] + [w]);
    DerefAt(links, lists, owner, name);
    JoinedAfterWait(x, listOf, links, name);
  }

  lemma DerefAt(links: map<Name, nat>, lists: seq<seq<X.Waiter>>, owner: seq<Name>, name: Name)
    requires Owned(links, lists, owner) && name in links
    ensures name in Deref(links, lists) && Deref(links, lists)[name] == lists[links[name]]
  {
  }

  lemma JoinedAfterWait(x: X.Ext, listOf: map<X.Waiter, nat>, links: map<Name, nat>, name: Name)
    requires X.Inv(x) && Joined(x, listOf, links) && name in links && name !in x.events
    ensures Joined(X.Wait(x, name, false), listOf[X.Waiter(|x.waiters|, name) := links[name]], links)
  {
    hide X.QueueOf;
    var w, x' := X.Waiter(|x.waiters|, name), X.Wait(x, name, false);
    X.NewWaiter(x, w, x');
    assert forall v :: X.Pending(x', v) ==> X.Pending(x, v) || v == w;
  }

  lemma WaitSettles(s: State, name: Name, timeout: int, now: int)
    requires Bound(s.ext, s.callbacks, s.core.issued, s.core.outcome) && X.Queues(s.ext, name, timeout == 0)
    ensures X.Inv(s.ext)
    ensures var work := Timer(ExternalEvent(name), if timeout > 0 then now + timeout else INDEFINITE);
            var item, w := Item(s.core.issued, work), X.Waiter(|s.ext.waiters|, name);
            var core, x, all := N.Schedule(s.core, work), X.Wait(s.ext, name, false), s.callbacks[item := w];
            && X.Issued(x, w) && Bound(x, s.callbacks, s.core.issued, s.core.outcome)
            && WaitFor(s, name, timeout, now) ==
                 s.(core := core, ext := X.Expire(x, Fired(all, s.core.outcome, core.outcome)), callbacks := all)
  {
    hide X.Inv, X.Expire, Fired, X.Wait, Bound;
    var work := Timer(ExternalEvent(name), if timeout > 0 then now + timeout else INDEFINITE);
    var item, w := Item(s.core.issued, work), X.Waiter(|s.ext.waiters|, name);
    var x := X.Wait(s.ext, name, false);
    WaitKeepsBound(s.ext, s.callbacks, s.core.issued, s.core.outcome, name, false);
    ExpiredIsFired(s.(ext := x, callbacks := s.callbacks[item := w]), N.Schedule(s.core, work));
  }

  lemma ExpiredIsFired(s: State, core: N.State)
    ensures Expired(s, core) == Fired(s.callbacks, s.core.outcome, core.outcome)
  {
  }

  lemma WaitCases(s: State, name: Name, timeout: int, now: int)
    requires Bound(s.ext, s.callbacks, s.core.issued, s.core.outcome)
    ensures X.Inv(s.ext) && X.Queues(s.ext, name, timeout == 0) == !(name in s.ext.events || timeout == 0)
    ensures Bound(X.Wait(s.ext, name, timeout == 0), s.callbacks, s.core.issued, s.core.outcome)
    ensures if X.Queues(s.ext, name, timeout == 0)
            then WaitFor(s, name, timeout, now) == s.(core := WaitFor(s, name, timeout, now).core,
                   ext := WaitFor(s, name, timeout, now).ext, callbacks := WaitFor(s, name, timeout, now).callbacks)
            else WaitFor(s, name, timeout, now) == s.(ext := X.Wait(s.ext, name, timeout == 0))
  {
    WaitKeepsBound(s.ext, s.callbacks, s.core.issued, s.core.outcome, name, timeout == 0);
  }

  lemma ScheduleIssues(c: N.State, w: Work)
    requires N.CoreInv(c) && N.NoLostWakeUp(c, {})
    ensures N.Schedule(c, w).issued == c.issued + 1 && Item(c.issued, w) !in c.outcome
  {
  }

  /** A timer that was complete before its callback was attached expires its waiter like any other. */
  lemma WaitBacked(x: X.Ext, callbacks: map<Item, X.Waiter>, issued: nat, before: map<Item, Outcome>, after: map<Item,
                   Outcome>,
                   item: Item, w: X.Waiter)
    requires Bound(x, callbacks, issued, before) && item.n == issued && item !in before && X.Issued(x, w)
    ensures var x1 := X.Expire(x, Fired(callbacks, before, after));
            && X.Inv(x1) && X.Issued(x1, w)
            && var x2 := if item in after then X.Expire(x1, {w}) else x1;
               && x2 == X.Expire(x, Fired(callbacks[item := w], before, after))
               && Bound(x2, callbacks[item := w], issued + 1, after)
  {
    hide X.Inv, X.Expire, Fired, ExpireQueue, ExpireDone;
    var all, gone := callbacks[item := w], Fired(callbacks, before, after);
    assert Bound(x, all, issued + 1, before);
    FiredKeepsBound(x, callbacks, issued, before, after);
    FiredKeepsBound(x, all, issued + 1, before, after);
    ExpireParts(x, gone);
    FiredWith(callbacks, before, after, item, w);
    ExpireTwice(x, gone, {w});
  }

  lemma FiredWith(callbacks: map<Item, X.Waiter>, before: map<Item, Outcome>, after: map<Item, Outcome>, item: Item,
                  w: X.Waiter)
    requires item !in callbacks && item !in before
    ensures Fired(callbacks[item := w], before, after) ==
      if item in after then Fired(callbacks, before, after) + {w} else Fired(callbacks, before, after)
  {
  }

  /******* Termination *******/

  function Withdrawn(c: N.State, id: Option<int>): N.State {
    if id.Some? then c.(actions := c.actions - {id.value}) else c
  }

  /** The completion a termination may find: any pending one. */
  predicate Finds(c: N.State, found: Option<int>) {
    if found.Some? then found.value in Completions(c) else Completions(c) == {}
  }

  function TerminateFinding(c: N.State, found: Option<int>): N.State
    requires Finds(c, found)
  {
    if found.Some? && c.actions[found.value].item.work.status != ContinuedAsNew then c
    else N.Schedule(Withdrawn(c, found), Completion(Terminated))
  }

  /** What a termination may do, whichever pending completion it finds first. */
  ghost predicate Terminates(c: N.State, c': N.State) {
    exists found :: Finds(c, found) && c' == TerminateFinding(c, found)
  }

  /** With at most one pending completion there is no choice. */
  lemma {:induction false} TerminatesUnique(c: N.State, c': N.State)
    requires OneCompletion(c) && Terminates(c, c')
    ensures c' == Terminate(c)
  {
    var found :| Finds(c, found) && c' == TerminateFinding(c, found);
    assert forall k :: k in Restarts(c) ==> k in Completions(c);
    if found.None? {
      assert c.actions - Restarts(c) == c.actions;
    } else if c.actions[found.value].item.work.status == ContinuedAsNew {
      assert found.value in Restarts(c);
      assert forall k :: k in Completions(c) ==> k == found.value;
      assert Completions(c) == {found.value} == Restarts(c);
    } else {
      assert found.value !in Restarts(c);
    }
  }

  /** What the engine may do with an event; only a termination that finds several completions has a choice. */
  ghost predicate Dispatches(s: State, e: Event, s': State, ok: bool)
    requires N.Inv(s.core)
  {
    if e.ExecutionTerminated?
    then ok && Terminates(s.core, s'.core) && s' == s.(handled := s.handled + [e], terminated := true, core := s'.core)
    else (s', ok) == Dispatch(s, e)
  }

  ghost predicate Handles(s: State, e: Event, s': State, ok: bool)
    requires N.Inv(s.core)
  {
    if s.terminated || !e.ExecutionTerminated? then (s', ok) == Handle(s, e) else Dispatches(s, e, s', ok)
  }

  ghost predicate Processes(s: State, e: Event, s': State, ok: bool)
    requires N.Inv(s.core)
  {
    if e.ExecutionTerminated? then Handles(s, e, s', ok) else (s', ok) == Process(s, e)
  }

  ghost predicate Arrives(s: State, e: Event, s': State, ok: bool)
    requires N.Inv(s.core)
  {
    Processes(if s.terminated then s else s.(arrived := s.arrived + [e]), e, s', ok)
  }

  /** In the states a replay reaches, where at most one completion is pending, the engine has no choice at all. */
  lemma {:induction false} ArrivesUnique(s: State, e: Event, s': State, ok: bool)
    requires N.Inv(s.core) && OneCompletion(s.core) && Arrives(s, e, s', ok)
    ensures (s', ok) == Arrive(s, e)
  {
    hide N.Inv, OneCompletion, Terminates, Resume;
    if e.ExecutionTerminated? && !s.terminated { TerminatesUnique(s.core, s'.core); }
  }

  lemma WithdrawnKeeps(c: N.State, id: Option<int>)
    requires N.CoreInv(c) && N.NoLostWakeUp(c, {}) && (id.Some? ==> id.value in Restarts(c))
    ensures N.CoreInv(Withdrawn(c, id)) && N.NoLostWakeUp(Withdrawn(c, id), {})
    ensures N.Schedule(Withdrawn(c, id), Completion(Terminated)).outcome == c.outcome
  {
    if id.Some? {
      NotOptional(c, id.value);
      T.DiscardAdvances(c, {id.value});
    }
  }

  lemma NotOptional(c: N.State, id: int)
    requires N.CoreInv(c) && id in Completions(c)
    ensures id !in c.optional
  {
  }

  /******* Events *******/

  lemma ResolvedFields(s: State, r: Resolution) returns (s': State)
    requires N.CoreInv(s.core) && N.NoLostWakeUp(s.core, {})
    ensures s' == Dispatch(s, Resolved(r)).0
    ensures s'.core == N.Deliver(s.core, r) &&
      s'.ext == X.Expire(s.ext, Fired(s.callbacks, s.core.outcome, s'.core.outcome))
    ensures s' == s.(core := s'.core, ext := s'.ext, handled := s.handled + [Resolved(r)])
  {
    s' := Dispatch(s, Resolved(r)).0;
    ExpiredIsFired(s.(handled := s.handled + [Resolved(r)]), N.Deliver(s.core, r));
  }

  lemma RecordedFields(s: State, e: ScheduleEvent) returns (s': State)
    requires N.CoreInv(s.core) && N.NoLostWakeUp(s.core, {})
    ensures Dispatch(s, Recorded(e)) == (s', N.OnScheduled(s.core, e).1)
    ensures s'.core == N.OnScheduled(s.core, e).0 &&
      s'.ext == X.Expire(s.ext, Fired(s.callbacks, s.core.outcome, s'.core.outcome))
    ensures s' == s.(core := s'.core, ext := s'.ext, handled := s.handled + [Recorded(e)])
  {
    s' := Dispatch(s, Recorded(e)).0;
    ExpiredIsFired(s.(handled := s.handled + [Recorded(e)]), N.OnScheduled(s.core, e).0);
  }

  lemma ResolvedKeeps(c: N.State, r: Resolution)
    requires N.CoreInv(c) && N.NoLostWakeUp(c, {})
    ensures N.Matches(c, r.KeyOf()) ==> r.KeyOf() !in c.buffered
    ensures N.NoLostWakeUp(N.Deliver(c, r), {})
  {
    N.DeliverKeepsInv(c, r);
  }

  lemma HandleAllNone(s: State)
    requires N.CoreInv(s.core) && N.NoLostWakeUp(s.core, {})
    ensures HandleAll(s, []) == (s, true)
  {
  }

  /** One more event after a prefix that was handled without failing. */
  lemma {:induction false} HandleAllSnoc(s: State, es: seq<Event>, i: nat)
    requires N.CoreInv(s.core) && N.NoLostWakeUp(s.core, {}) && i < |es| && HandleAll(s, es[..i]).1
    ensures var s1 := HandleAll(s, es[..i]).0;
            N.Inv(s1.core) && HandleAll(s, es[..i + 1]) == Handle(s1, es[i]) &&
            (!Handle(s1, es[i]).1 ==> HandleAll(s, es) == Handle(s1, es[i]))
    decreases i
  {
    if i > 0 {
      HandleAdvances(s, es[0]);
      var s0 := Handle(s, es[0]).0;
      assert es[..i][0] == es[0] && es[..i][1..] == es[1..][..i - 1];
      assert es[..i + 1][0] == es[0] && es[..i + 1][1..] == es[1..][..i];
      HandleAllSnoc(s0, es[1..], i - 1);
      assert es[1..][i - 1] == es[i];
    } else {
      assert es[..0] == [] && es[..1] == [es[0]];
      assert es[..1][1..] == [];
    }
  }

  /******* Returned actions *******/

  /** A returned action, and the events a completion carries over. */
  datatype Emission = Emission(action: Action, carryover: seq<(Name, string)>)

  /** The payloads carried over under a name, in order. */
  function CarriedFor(carried: seq<(Name, string)>, name: Name): seq<string> {
    if carried == [] then []
    else
      var last := carried[|carried| - 1];
      CarriedFor(carried[..|carried| - 1], name) + (if last.0 == name then [last.1] else [])
  }

  /** Exactly these events are carried over, in order. */
  ghost predicate Carries(carried: seq<(Name, string)>, events: map<Name, seq<string>>) {
    forall name :: CarriedFor(carried, name) == X.Get(events, name)
  }

  /** Whether this action continues as new and keeps the external events nobody consumed. */
  predicate Keeps(s: State, action: Action) {
    s.continuing && s.keep && action.item.work.Completion?
  }

  lemma CarriedSnoc(carried: seq<(Name, string)>, name: Name, payload: string)
    ensures forall other :: CarriedFor(carried + [(name, payload)], other) ==
                            if other == name then CarriedFor(carried, other) + [payload] else CarriedFor(carried, other)
  {
    assert (carried + [(name, payload)])[..|carried|] == carried;
  }

  lemma CarriedNone()
    ensures forall name :: CarriedFor([], name) == []
  {
  }

  lemma CarriesNothing()
    ensures Carries([], map[])
  {
  }

  lemma SuspendedReturnsNothing(s: State)
    requires s.suspended && !s.terminated
    ensures Emitted(s) == {} && N.Ascending(Emitted(s)) == []
  {
  }

  lemma EmittedPending(s: State)
    ensures forall k :: k in Emitted(s) ==> k in s.core.actions
  {
  }
}
