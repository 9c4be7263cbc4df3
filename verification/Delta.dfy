/**
 The stateful-history protocol end to end (backend/executor_stateful.go:140-180,
 client/worker_history.go:53-84, client/worker_grpc.go:119 and 259-292): one server stream, the
 worker behind it, and the committed histories, which only grow by appending.
 */
module Delta {
  import opened Work
  import opened HistoryCaches
  import opened StatefulHistory

  /** What the worker makes of a work item. */
  datatype Replay = Unresolved | Resolved(history: seq<Event>, hit: bool) | Abandoned

  /** A workflow work item as sent; full is the committed history the server started from. */
  datatype Sent =
    Sent(iid: string, executionID: string, full: seq<Event>, past: seq<Event>, cached: Option<nat>, replay: Replay)

  datatype State = State(
    committed: map<string, seq<Event>>,
    warm: map<string, Warm>,
    cache: Entries,
    sent: seq<Sent>)

  const INIT := State(map[], map[], map[], [])

  datatype Step =
    | Commit(executionID: string, more: seq<Event>)
    | Send(iid: string, executionID: string, unknown: seq<Event>, forget: set<string>)
    | Resolve(i: nat, fetched: Option<string>)
    | Finish(i: nat, reset: bool, now: int, evict: set<string>)
    | Evict(gone: set<string>)
    | Reconnect

  /******* The worker's side *******/

  function Lookup(cache: Entries, iid: string, executionID: string): Option<seq<Event>> {
    if iid in cache && executionID != "" && cache[iid].executionID == executionID then Some(cache[iid].events) else None
  }

  /** The history to replay: the events sent, or the cached prefix and the delta, or the fetched history. */
  function ResolveHistory(cache: Entries, w: Sent, fetched: Option<seq<Event>>): Replay {
    if w.cached.None? then Resolved(w.past, false)
    else
      var c := Lookup(cache, w.iid, w.executionID);
      if c.Some? && |c.value| == w.cached.value then Resolved(c.value + w.past, true)
      else if fetched.None? ||
              (w.executionID != "" && HistoryExecutionID(fetched.value) != w.executionID) then Abandoned
      else Resolved(fetched.value, false)
  }

  /** The engine's own code for it; fetched is what the service answers if it is asked. */
  method ResolveWorkflowHistory(cache: WorkflowHistoryCache, w: Sent, fetched: Option<seq<Event>>, now: int)
    returns (r: Replay)
    requires cache.Valid()
    modifies cache`entries
    ensures cache.Valid() && r == ResolveHistory(old(cache.entries), w, fetched)
    ensures cache.entries.Keys == old(cache.entries).Keys
    ensures forall k :: k in cache.entries ==>
      cache.entries[k] == old(cache.entries)[k].(lastAccess := cache.entries[k].lastAccess)
  {
    if w.cached.None? { return Resolved(w.past, false); }
    var hit := cache.Get(w.iid, Some(w.executionID), now);
    if hit.Some? && |hit.value| == w.cached.value {
      return Resolved(hit.value + w.past, true);
    }
    if fetched.None? { return Abandoned; }
    var id := FindExecutionID(fetched.value);
    if w.executionID != "" && id != w.executionID { return Abandoned; }
    return Resolved(fetched.value, false);
  }

  /** After a turn: an execution that ended leaves the cache, any other is stored as replayed. */
  method RefreshCache(cache: WorkflowHistoryCache, w: Sent, reset: bool, now: int)
    requires cache.Valid() && w.replay.Resolved?
    modifies cache`entries, cache`totalBytes
    ensures cache.Valid()
    ensures reset ==> cache.entries == old(cache.entries) - {w.iid}
    ensures !reset ==>
      && w.iid in cache.entries
      && cache.entries[w.iid] == Entry(w.executionID, w.replay.history, now, cache.entries[w.iid].bytes)
      && Submap(cache.entries, old(cache.entries)[w.iid := cache.entries[w.iid]])
  {
    if reset {
      cache.Delete(w.iid);
    } else {
      cache.PutForExecution(w.iid, w.executionID, w.replay.history, now);
    }
  }

  /******* Steps *******/

  function Without<T>(m: map<string, T>, gone: set<string>, keep: string): map<string, T> {
    m - (gone - {keep})
  }

  /** What an execution has committed: nothing before its first turn is over. */
  function HistoryOf(s: State, x: string): seq<Event> {
    if x in s.committed then s.committed[x] else []
  }

  function Next(s: State, step: Step): State {
    match step
    case Commit(x, more) =>
      var h := HistoryOf(s, x) + more;
      if x == "" || HistoryExecutionID(h) != x then s else s.(committed := s.committed[x := h])
    case Send(iid, x, unknown, forget) =>
      var full := if x != "" then HistoryOf(s, x) else unknown;
      var n := DeltaCount(s.warm, iid, x, |full|);
      s.(sent := s.sent + [Sent(iid, x, full, if n.Some? then full[n.value..] else full, n, Unresolved)],
         warm := Without(s.warm[iid := Warm(x, |full|)], forget, iid))
    case Resolve(i, x) =>
      if i >= |s.sent| || !s.sent[i].replay.Unresolved? then s
      else
        var fetched := if x.Some? && x.value in s.committed then Some(s.committed[x.value]) else None;
        s.(sent := s.sent[i := s.sent[i].(replay := ResolveHistory(s.cache, s.sent[i], fetched))])
    case Finish(i, reset, now, evict) =>
      if i >= |s.sent| || !s.sent[i].replay.Resolved? then s
      else
        var w := s.sent[i];
        if reset then s.(cache := s.cache - {w.iid})
        else s.(cache := Without(s.cache[w.iid := Entry(w.executionID, w.replay.history, now, 0)], evict, w.iid))
    case Evict(gone) => s.(cache := s.cache - gone)
    case Reconnect => s.(cache := map[], warm := map[])
  }

  function Run(s: State, steps: seq<Step>): State
    decreases steps
  {
    if steps == [] then s else Run(Next(s, steps[0]), steps[1..])
  }

  /******* Invariant *******/

  /** The history is a prefix of what the execution has committed; nothing is known of an unnamed execution. */
  ghost predicate Committed(s: State, x: string, h: seq<Event>) {
    x != "" ==> h <= HistoryOf(s, x)
  }

  ghost predicate SentInv(s: State, w: Sent) {
    && Committed(s, w.executionID, w.full)
    && (if w.cached.Some?
        then w.executionID != "" && w.cached.value <= |w.full| && w.past == w.full[w.cached.value..]
        else w.past == w.full)
    && (w.replay.Resolved? ==>
          && Committed(s, w.executionID, w.replay.history) && w.full <= w.replay.history
          && (w.replay.hit || w.cached.None? ==> w.replay.history == w.full))
  }

  ghost predicate Inv(s: State) {
    && (forall x :: x in s.committed ==> x != "" && HistoryExecutionID(s.committed[x]) == x)
    && (forall k :: k in s.cache ==> Committed(s, s.cache[k].executionID, s.cache[k].events))
    && (forall i :: 0 <= i < |s.sent| ==> SentInv(s, s.sent[i]))
  }

  /** Committing more keeps every prefix a prefix. */
  lemma CommitKeepsInv(s: State, x: string, more: seq<Event>)
    requires Inv(s)
    ensures Inv(Next(s, Commit(x, more)))
  {
    var s' := Next(s, Commit(x, more));
    forall y, h | Committed(s, y, h) ensures Committed(s', y, h) {
      if y == x && s' != s {
        assert s'.committed[x] == HistoryOf(s, x) + more;
      }
    }
    forall i | 0 <= i < |s'.sent| ensures SentInv(s', s'.sent[i]) {
      assert SentInv(s, s.sent[i]);
    }
  }

  lemma SendKeepsInv(s: State, iid: string, x: string, unknown: seq<Event>, forget: set<string>)
    requires Inv(s)
    ensures Inv(Next(s, Send(iid, x, unknown, forget)))
  {
    var s' := Next(s, Send(iid, x, unknown, forget));
    forall i | 0 <= i < |s'.sent| ensures SentInv(s', s'.sent[i]) {
      if i < |s.sent| { assert SentInv(s, s.sent[i]); }
    }
  }

  /** A cached prefix of the right execution and length, with the delta, is the whole history again. */
  lemma HitIsFull(s: State, w: Sent, c: seq<Event>)
    requires SentInv(s, w) && w.cached.Some? && |c| == w.cached.value && Committed(s, w.executionID, c)
    ensures c + w.past == w.full
  {
    var h := HistoryOf(s, w.executionID);
    assert c == h[..|c|] == w.full[..|c|];
  }

  lemma SameCommitted(s: State, s': State, w: Sent)
    requires SentInv(s, w) && s'.committed == s.committed
    ensures SentInv(s', w)
  {
  }

  lemma {:induction false} ResolveKeepsInv(s: State, i: nat, x: Option<string>)
    requires Inv(s)
    ensures Inv(Next(s, Resolve(i, x)))
  {
    hide ResolveHistory, SentInv;
    var s' := Next(s, Resolve(i, x));
    forall k | k in s'.cache ensures Committed(s', s'.cache[k].executionID, s'.cache[k].events) {
      assert Committed(s, s.cache[k].executionID, s.cache[k].events);
    }
    forall j | 0 <= j < |s'.sent| ensures SentInv(s', s'.sent[j]) {
      if j == i && s.sent[i].replay.Unresolved? {
        ResolvedIsFaithful(s, s.sent[i], if x.Some? && x.value in s.committed then x else None);
      }
      SameCommitted(s, s', s'.sent[j]);
    }
  }

  lemma ResolvedIsFaithful(s: State, w: Sent, x: Option<string>)
    requires Inv(s) && SentInv(s, w) && (x.Some? ==> x.value in s.committed)
    ensures var fetched := if x.Some? then Some(s.committed[x.value]) else None;
            SentInv(s, w.(replay := ResolveHistory(s.cache, w, fetched)))
  {
    if w.cached.Some? {
      var c := Lookup(s.cache, w.iid, w.executionID);
      if c.Some? && |c.value| == w.cached.value {
        assert Committed(s, s.cache[w.iid].executionID, s.cache[w.iid].events);
        HitIsFull(s, w, c.value);
      }
    }
  }

  lemma CacheKeepsInv(s: State, cache: Entries)
    requires Inv(s) && forall k :: k in cache ==> Committed(s, cache[k].executionID, cache[k].events)
    ensures Inv(s.(cache := cache))
  {
    var s' := s.(cache := cache);
    forall k | k in cache ensures Committed(s', cache[k].executionID, cache[k].events) {
      assert Committed(s, cache[k].executionID, cache[k].events);
    }
    forall i | 0 <= i < |s'.sent| ensures SentInv(s', s'.sent[i]) {
      assert SentInv(s, s.sent[i]);
    }
  }

  lemma NextKeepsInv(s: State, step: Step)
    requires Inv(s)
    ensures Inv(Next(s, step))
  {
    match step
    case Commit(x, more) => CommitKeepsInv(s, x, more);
    case Send(iid, x, unknown, forget) => SendKeepsInv(s, iid, x, unknown, forget);
    case Resolve(i, x) => ResolveKeepsInv(s, i, x);
    case Finish(i, reset, now, evict) =>
      if i < |s.sent| && s.sent[i].replay.Resolved? { assert SentInv(s, s.sent[i]); }
      CacheKeepsInv(s, Next(s, step).cache);
    case Evict(gone) => CacheKeepsInv(s, s.cache - gone);
    case Reconnect => CacheKeepsInv(s, map[]); assert Inv(s.(cache := map[]));
      WarmIsFree(s.(cache := map[]), map[]);
  }

  /** The server may believe anything about what the worker holds. */
  lemma WarmIsFree(s: State, warm: map<string, Warm>)
    requires Inv(s)
    ensures Inv(s.(warm := warm))
  {
    var s' := s.(warm := warm);
    forall k | k in s'.cache ensures Committed(s', s'.cache[k].executionID, s'.cache[k].events) {
      assert Committed(s, s.cache[k].executionID, s.cache[k].events);
    }
    forall i | 0 <= i < |s'.sent| ensures SentInv(s', s'.sent[i]) {
      assert SentInv(s, s.sent[i]);
    }
  }

  lemma {:induction false} RunKeepsInv(s: State, steps: seq<Step>)
    requires Inv(s)
    ensures Inv(Run(s, steps))
    decreases steps
  {
    if steps != [] {
      NextKeepsInv(s, steps[0]);
      RunKeepsInv(Next(s, steps[0]), steps[1..]);
    }
  }

  /**
   Delta refinement: in every run of commits, sends, turns, misses, evictions and reconnects, what
   the worker replays after a full send or a cache hit is exactly the history the server started
   from; after a miss it is that history, possibly extended by what the same execution committed since.
   */
  lemma DeltaRefinesFullSend(steps: seq<Step>, i: nat)
    requires var s := Run(INIT, steps); i < |s.sent| && s.sent[i].replay.Resolved?
    ensures var s := Run(INIT, steps);
            var w := s.sent[i];
            && w.full <= w.replay.history
            && (w.replay.hit || w.cached.None? ==> w.replay.history == w.full)
            && (w.executionID != "" ==> w.replay.history <= HistoryOf(s, w.executionID))
  {
    RunKeepsInv(INIT, steps);
    assert SentInv(Run(INIT, steps), Run(INIT, steps).sent[i]);
  }

  /** Every cache entry of a named execution is a prefix of what that execution committed. */
  lemma CacheHoldsPrefixes(steps: seq<Step>, iid: string)
    requires iid in Run(INIT, steps).cache && Run(INIT, steps).cache[iid].executionID != ""
    ensures var s := Run(INIT, steps);
            s.cache[iid].events <= HistoryOf(s, s.cache[iid].executionID)
  {
    RunKeepsInv(INIT, steps);
  }

  /******* What is resolved, and when *******/

  /** The worker holds exactly the prefix that the work item names, for the execution it names. */
  predicate HoldsPrefix(s: State, w: Sent) {
    w.cached.Some? && w.iid in s.cache && s.cache[w.iid].executionID == w.executionID &&
    |s.cache[w.iid].events| == w.cached.value
  }

  lemma LookupHolds(s: State, w: Sent)
    requires SentInv(s, w) && w.cached.Some?
    ensures HoldsPrefix(s, w) <==>
            var c := Lookup(s.cache, w.iid, w.executionID); c.Some? && |c.value| == w.cached.value
  {
  }

  lemma {:induction false} ResolveOutcome(s: State, i: nat, x: Option<string>)
    requires Inv(s) && i < |s.sent| && s.sent[i].replay.Unresolved?
    ensures var s', w := Next(s, Resolve(i, x)), s.sent[i];
            && s' == s.(sent := s'.sent) && s'.sent == s.sent[i := w.(replay := s'.sent[i].replay)]
            && s'.sent[i].replay ==
               if w.cached.None? then Resolved(w.full, false)
               else if HoldsPrefix(s, w) then Resolved(w.full, true)
               else if x == Some(w.executionID) && w.executionID in s.committed
               then Resolved(s.committed[w.executionID], false)
               else Abandoned
  {
    var w := s.sent[i];
    assert SentInv(s, w);
    if w.cached.Some? {
      LookupHolds(s, w);
      if HoldsPrefix(s, w) {
        assert Committed(s, s.cache[w.iid].executionID, s.cache[w.iid].events);
        HitIsFull(s, w, s.cache[w.iid].events);
      }
    }
  }

  /**
   In every reachable state a work item is replayed from what was sent; a delta from the cached prefix, if the
   worker holds it, whatever the service would answer; otherwise from the fetched history of its execution.
   It is abandoned exactly if the prefix is missing and the fetch fails or yields another execution.
   */
  lemma {:induction false} ResolvedExactlyWhen(steps: seq<Step>, i: nat, x: Option<string>)
    requires var s := Run(INIT, steps); i < |s.sent| && s.sent[i].replay.Unresolved?
    ensures var s := Run(INIT, steps);
            var w, r := s.sent[i], Next(s, Resolve(i, x)).sent[i].replay;
            && (w.cached.None? ==> r == Resolved(w.full, false))
            && (HoldsPrefix(s, w) ==> r == Resolved(w.full, true))
            && (w.cached.Some? && !HoldsPrefix(s, w) && x == Some(w.executionID) && w.executionID in s.committed ==>
                  r == Resolved(s.committed[w.executionID], false))
            && (r.Abandoned? <==>
                  w.cached.Some? && !HoldsPrefix(s, w) && !(x == Some(w.executionID) && w.executionID in s.committed))
  {
    RunKeepsInv(INIT, steps);
    ResolveOutcome(Run(INIT, steps), i, x);
  }

  /******* Consecutive turns *******/

  lemma {:induction false} SentInFull(s: State, iid: string, x: string, unknown: seq<Event>, forget: set<string>)
    requires x != ""
    ensures var s' := Next(s, Send(iid, x, unknown, forget));
            && s'.committed == s.committed && s'.cache == s.cache && |s'.sent| == |s.sent| + 1
            && s'.sent[|s.sent|].iid == iid && s'.sent[|s.sent|].executionID == x
            && s'.sent[|s.sent|].full == HistoryOf(s, x) && s'.sent[|s.sent|].replay.Unresolved?
            && iid in s'.warm && s'.warm[iid] == Warm(x, |HistoryOf(s, x)|)
  {
  }

  /** The send after a turn is a delta of what that turn held. */
  lemma {:induction false} SentAsDelta(s: State, iid: string, x: string, unknown: seq<Event>, forget: set<string>)
    requires x != "" && iid in s.warm && s.warm[iid].executionID == x && 0 < s.warm[iid].eventCount <= |HistoryOf(s, x)|
    ensures var w := Next(s, Send(iid, x, unknown, forget)).sent[|s.sent|];
            w.cached == Some(s.warm[iid].eventCount) && w.past == HistoryOf(s, x)[s.warm[iid].eventCount..]
  {
  }

  lemma {:induction false} FinishStores(s: State, i: nat, now: int, evict: set<string>)
    requires i < |s.sent| && s.sent[i].replay.Resolved?
    ensures var s', w := Next(s, Finish(i, false, now, evict)), s.sent[i];
            && s' == s.(cache := s'.cache) && w.iid in s'.cache
            && s'.cache[w.iid] == Entry(w.executionID, w.replay.history, now, 0)
  {
  }

  lemma {:induction false} CommitAppends(s: State, x: string, more: seq<Event>)
    requires Inv(s) && x in s.committed
    ensures Next(s, Commit(x, more)) == s.(committed := s.committed[x := s.committed[x] + more])
  {
    StartStays(s.committed[x], more);
  }

  lemma {:induction false} StartStays(h: seq<Event>, more: seq<Event>)
    requires HistoryExecutionID(h) != ""
    ensures HistoryExecutionID(h + more) == HistoryExecutionID(h)
  {
    if h[0].started.None? {
      StartStays(h[1..], more);
      assert (h + more)[1..] == h[1..] + more;
    }
  }

  lemma {:induction false} RunFirst(s: State, step: Step, rest: seq<Step>)
    ensures Run(s, [step] + rest) == Run(Next(s, step), rest)
  {
    assert ([step] + rest)[1..] == rest;
  }

  /** A turn after which the worker keeps the history. */
  function Turn(iid: string, x: string, i: nat, now: int, forget: set<string>, evict: set<string>): seq<Step> {
    [Send(iid, x, [], forget)] + ([Resolve(i, Some(x))] + ([Finish(i, false, now, evict)] + []))
  }

  /** Whatever is believed and cached before it, a turn leaves both sides with the committed history. */
  lemma {:induction false} TurnWarms(s: State, iid: string, x: string, now: int, forget: set<string>,
                                     evict: set<string>)
    requires Inv(s) && x in s.committed
    ensures var s' := Run(s, Turn(iid, x, |s.sent|, now, forget, evict));
            && Inv(s') && s'.committed == s.committed && |s'.sent| == |s.sent| + 1
            && iid in s'.warm && s'.warm[iid] == Warm(x, |s.committed[x]|)
            && iid in s'.cache && s'.cache[iid] == Entry(x, s.committed[x], now, 0)
  {
    assert x != "";
    hide Next, Run, Inv;
    var i := |s.sent|;
    SentInFull(s, iid, x, [], forget);
    NextKeepsInv(s, Send(iid, x, [], forget));
    var s1 := Next(s, Send(iid, x, [], forget));
    ResolveOutcome(s1, i, Some(x));
    NextKeepsInv(s1, Resolve(i, Some(x)));
    var s2 := Next(s1, Resolve(i, Some(x)));
    FinishStores(s2, i, now, evict);
    NextKeepsInv(s2, Finish(i, false, now, evict));
    RunFirst(s, Send(iid, x, [], forget), [Resolve(i, Some(x))] + ([Finish(i, false, now, evict)] + []));
    RunFirst(s1, Resolve(i, Some(x)), [Finish(i, false, now, evict)] + []);
    RunFirst(s2, Finish(i, false, now, evict), []);
    RunNothing(Next(s2, Finish(i, false, now, evict)));
  }

  lemma RunNothing(s: State)
    ensures Run(s, []) == s
  {
  }

  /** The next turn of an instance whose history both sides hold. */
  lemma {:induction false} WarmTurnIsHit(s: State, iid: string, x: string, n: nat, forget: set<string>,
                                         fetched: Option<string>)
    requires Inv(s) && x in s.committed && iid in s.warm && s.warm[iid] == Warm(x, n)
    requires iid in s.cache && s.cache[iid].executionID == x && |s.cache[iid].events| == n
    requires 0 < n <= |s.committed[x]|
    ensures var h, s' := s.committed[x], Next(Next(s, Send(iid, x, [], forget)), Resolve(|s.sent|, fetched));
            |s'.sent| == |s.sent| + 1 && s'.sent[|s.sent|] == Sent(iid, x, h, h[n..], Some(n), Resolved(h, true))
  {
    assert x != "";
    hide Next, Inv;
    SentInFull(s, iid, x, [], forget);
    SentAsDelta(s, iid, x, [], forget);
    NextKeepsInv(s, Send(iid, x, [], forget));
    ResolveOutcome(Next(s, Send(iid, x, [], forget)), |s.sent|, fetched);
  }

  lemma {:induction false} CommittedNotEmpty(s: State, x: string)
    requires Inv(s) && x in s.committed
    ensures |s.committed[x]| > 0
  {
  }

  /**
   Whatever went before, the turn after a turn is sent as a delta of exactly what was committed in between,
   and is replayed from the cache, whatever the service would answer.
   */
  lemma {:induction false} NextTurnIsHit(steps: seq<Step>, iid: string, x: string, more: seq<Event>, now: int,
                                         forget: set<string>, evict: set<string>, fetched: Option<string>)
    requires x in Run(INIT, steps).committed
    ensures var s := Run(INIT, steps);
            var i, h := |s.sent|, s.committed[x];
            var s1 := Next(Run(s, Turn(iid, x, i, now, forget, evict)), Commit(x, more));
            var s2 := Next(Next(s1, Send(iid, x, [], forget)), Resolve(i + 1, fetched));
            |s2.sent| == i + 2 && s2.sent[i + 1] == Sent(iid, x, h + more, more, Some(|h|), Resolved(h + more, true))
  {
    RunKeepsInv(INIT, steps);
    var s := Run(INIT, steps);
    hide Next, Run, Inv;
    var i, h := |s.sent|, s.committed[x];
    TurnWarms(s, iid, x, now, forget, evict);
    CommittedNotEmpty(s, x);
    var s0 := Run(s, Turn(iid, x, i, now, forget, evict));
    CommitAppends(s0, x, more);
    NextKeepsInv(s0, Commit(x, more));
    WarmTurnIsHit(Next(s0, Commit(x, more)), iid, x, |h|, forget, fetched);
    assert (h + more)[|h|..] == more;
  }

  /******* What a delta builds on *******/

  /** Step j sent this many events of the execution to the stream, which has not reconnected since. */
  ghost predicate SentBefore(steps: seq<Step>, j: nat, iid: string, x: string, count: nat) {
    && j < |steps| && steps[j].Send? && steps[j].iid == iid && steps[j].executionID == x
    && (x != "" ==> count == |HistoryOf(Run(INIT, steps[..j]), x)|)
    && (forall m :: j < m < |steps| ==> !steps[m].Reconnect?)
  }

  ghost predicate WarmSent(s: State, steps: seq<Step>) {
    forall k :: k in s.warm ==> exists j: nat :: SentBefore(steps, j, k, s.warm[k].executionID, s.warm[k].eventCount)
  }

  lemma {:induction false} RunSnoc(s: State, steps: seq<Step>, last: Step)
    ensures Run(s, steps + [last]) == Next(Run(s, steps), last)
    decreases steps
  {
    hide Next;
    if steps == [] {
      assert [last][1..] == [];
    } else {
      assert (steps + [last])[1..] == steps[1..] + [last];
      RunSnoc(Next(s, steps[0]), steps[1..], last);
    }
  }

  lemma {:induction false} StillSent(steps: seq<Step>, last: Step, j: nat, iid: string, x: string, count: nat)
    requires SentBefore(steps, j, iid, x, count) && !last.Reconnect?
    ensures SentBefore(steps + [last], j, iid, x, count)
  {
    hide Run;
    assert (steps + [last])[..j] == steps[..j];
  }

  lemma {:induction false} JustSent(steps: seq<Step>, last: Step)
    requires last.Send?
    ensures var s' := Next(Run(INIT, steps), last);
            last.iid in s'.warm ==>
              SentBefore(steps + [last], |steps|, last.iid, s'.warm[last.iid].executionID, s'.warm[last.iid].eventCount)
  {
    hide Run;
    assert (steps + [last])[..|steps|] == steps;
  }

  /** What the server believes of a stream comes from its own sends on that stream. */
  lemma {:induction false} NextWarmSent(steps: seq<Step>, last: Step)
    requires WarmSent(Run(INIT, steps), steps)
    ensures WarmSent(Next(Run(INIT, steps), last), steps + [last])
  {
    hide Run, SentBefore;
    var s := Run(INIT, steps);
    var s' := Next(s, last);
    forall k | k in s'.warm
      ensures exists j: nat :: SentBefore(steps + [last], j, k, s'.warm[k].executionID, s'.warm[k].eventCount)
    {
      if last.Send? && last.iid == k {
        JustSent(steps, last);
      } else {
        assert k in s.warm && s'.warm[k] == s.warm[k] && !last.Reconnect?;
        var j: nat :| SentBefore(steps, j, k, s.warm[k].executionID, s.warm[k].eventCount);
        StillSent(steps, last, j, k, s.warm[k].executionID, s.warm[k].eventCount);
      }
    }
  }

  lemma {:induction false} RunWarmSent(steps: seq<Step>)
    ensures WarmSent(Run(INIT, steps), steps)
    decreases |steps|
  {
    hide Next, WarmSent;
    if steps == [] {
      assert WarmSent(INIT, []) by { NothingWarm(); }
    } else {
      var front, last := steps[..|steps| - 1], steps[|steps| - 1];
      RunWarmSent(front);
      NextWarmSent(front, last);
      RunSnoc(INIT, front, last);
      assert steps == front + [last];
    }
  }

  lemma NothingWarm()
    ensures WarmSent(INIT, [])
  {
  }

  /**
   A delta builds on an earlier send of the same instance and the same execution over the same connection, and
   names exactly as many events as the execution had committed then.
   */
  lemma {:induction false} DeltaBuildsOnSend(steps: seq<Step>, iid: string, x: string, unknown: seq<Event>,
                                             forget: set<string>)
    ensures var s := Run(INIT, steps);
            var w := Next(s, Send(iid, x, unknown, forget)).sent[|s.sent|];
            w.cached.Some? ==> x != "" && exists j: nat :: SentBefore(steps, j, iid, x, w.cached.value)
  {
    hide Run;
    RunWarmSent(steps);
  }
}
