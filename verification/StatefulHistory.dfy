/**
 The server's side of the stateful-history protocol (backend/executor_stateful.go): which stream
 owns an instance, and which prefix of its history a stream is believed to hold.
 */
module StatefulHistory {
  import opened Work
  import opened HistoryCaches

  /******* Affinity (lines 103-118) *******/

  /** The order of stream identifiers: by the first character in which they differ. */
  predicate Less(a: string, b: string) {
    b != [] && (a == [] || a[0] < b[0] || (a[0] == b[0] && Less(a[1..], b[1..])))
  }

  lemma {:induction false} LessTotal(a: string, b: string)
    ensures Less(a, b) || Less(b, a) || a == b
    ensures !(Less(a, b) && Less(b, a)) && !(Less(a, b) && a == b)
  {
    if a != [] && b != [] {
      LessTotal(a[1..], b[1..]);
      if a[0] == b[0] && a[1..] == b[1..] { assert a == [a[0]] + a[1..] == b; }
      if a == b { LessTotal(a[1..], a[1..]); }
    }
  }

  lemma {:induction false} LessTransitive(a: string, b: string, c: string)
    requires Less(a, b) && Less(b, c)
    ensures Less(a, c)
  {
    if a != [] && a[0] == b[0] == c[0] { LessTransitive(a[1..], b[1..], c[1..]); }
  }

  /** One stream is preferred to another for an instance: higher score, then smaller identifier. */
  predicate Preferred(score: (string, string) -> nat, iid: string, a: string, b: string) {
    score(iid, a) > score(iid, b) || (score(iid, a) == score(iid, b) && Less(a, b))
  }

  /** The capable stream that is preferred to every other capable stream. */
  ghost predicate Owns(score: (string, string) -> nat, iid: string, capable: set<string>, owner: string) {
    owner in capable && forall s :: s in capable && s != owner ==> Preferred(score, iid, owner, s)
  }

  lemma PreferredTotal(score: (string, string) -> nat, iid: string, a: string, b: string)
    requires a != b
    ensures Preferred(score, iid, a, b) <==> !Preferred(score, iid, b, a)
  {
    LessTotal(a, b);
  }

  lemma PreferredTransitive(score: (string, string) -> nat, iid: string, a: string, b: string, c: string)
    requires Preferred(score, iid, a, b) && Preferred(score, iid, b, c)
    ensures Preferred(score, iid, a, c)
  {
    if Less(a, b) && Less(b, c) { LessTransitive(a, b, c); }
  }

  /** There is at most one owner, so the order in which streams are visited does not matter. */
  lemma OwnerUnique(score: (string, string) -> nat, iid: string, capable: set<string>, a: string, b: string)
    requires Owns(score, iid, capable, a) && Owns(score, iid, capable, b)
    ensures a == b
  {
    if a != b { PreferredTotal(score, iid, a, b); }
  }

  /** A new stream changes an instance's owner only to itself. */
  lemma AddingMovesToNewcomer(score: (string, string) -> nat, iid: string, capable: set<string>, s: string,
                              before: string, after: string)
    requires Owns(score, iid, capable, before) && Owns(score, iid, capable + {s}, after)
    ensures after == before || after == s
  {
    if after != before && after != s {
      assert after in capable;
      PreferredTotal(score, iid, before, after);
    }
  }

  /** The departure of a stream that is not the owner changes nothing. */
  lemma RemovingOthersKeepsOwner(score: (string, string) -> nat, iid: string, capable: set<string>, s: string,
                                 owner: string)
    requires Owns(score, iid, capable, owner) && s != owner
    ensures Owns(score, iid, capable - {s}, owner)
    ensures forall o :: Owns(score, iid, capable - {s}, o) ==> o == owner
  {
    forall o | Owns(score, iid, capable - {s}, o) ensures o == owner {
      OwnerUnique(score, iid, capable - {s}, o, owner);
    }
  }

  /** The streams that retain histories, except those still to be visited. */
  function Capable(streams: map<string, bool>, rest: set<string>): set<string> {
    set s | s in streams && streams[s] && s !in rest
  }

  /**
   Finds the owner among the connected streams, visited in any order; streams maps an identifier to its capability.
   */
  method AffinityStreamOwner(score: (string, string) -> nat, streams: map<string, bool>, iid: string)
    returns (best: Option<string>)
    ensures var capable := Capable(streams, {});
            if best.Some? then Owns(score, iid, capable, best.value) else capable == {}
  {
    best := None;
    var bestScore := 0;
    var rest := streams.Keys;
    while rest != {}
      invariant rest <= streams.Keys
      invariant best.None? ==> forall s :: s in streams && streams[s] ==> s in rest
      invariant best.Some? ==> bestScore == score(iid, best.value)
      invariant best.Some? ==> Owns(score, iid, Capable(streams, rest), best.value)
      decreases rest
    {
      var s := Pick(rest);
      ghost var seen := Capable(streams, rest);
      rest := rest - {s};
      if streams[s] {
        ghost var now := Capable(streams, rest);
        assert now == seen + {s};
        var current := score(iid, s);
        if best.None? {
          assert seen == {};
          best, bestScore := Some(s), current;
        } else if current > bestScore || (current == bestScore && Less(s, best.value)) {
          ghost var was := best.value;
          forall o | o in now && o != s ensures Preferred(score, iid, s, o) {
            if o != was { PreferredTransitive(score, iid, s, was, o); }
          }
          best, bestScore := Some(s), current;
        } else {
          LessTotal(s, best.value);
        }
      } else {
        assert Capable(streams, rest) == seen;
      }
    }
    assert Capable(streams, rest) == Capable(streams, {});
  }

  /******* Delta sends (lines 140-180) *******/

  /** The execution and the number of events a stream is believed to hold for an instance. */
  datatype Warm = Warm(executionID: string, eventCount: nat)

  /** How many events may be left out of a send: a nonempty prefix of the same, known execution. */
  function DeltaCount(warm: map<string, Warm>, iid: string, executionID: string, pastLen: nat): Option<nat> {
    if iid in warm && executionID != "" && warm[iid].executionID == executionID && 0 < warm[iid].eventCount <= pastLen
    then Some(warm[iid].eventCount)
    else None
  }

  ghost predicate WarmSubmap(m: map<string, Warm>, full: map<string, Warm>) {
    m.Keys <= full.Keys && forall k :: k in m ==> m[k] == full[k]
  }

  class WorkflowRequest {
    const instanceID: string
    const executionID: string
    var pastEvents: seq<Event>
    var cachedHistory: Option<nat>

    constructor (instanceID: string, executionID: string, pastEvents: seq<Event>)
      ensures this.instanceID == instanceID && this.executionID == executionID
      ensures this.pastEvents == pastEvents && cachedHistory == None
    {
      this.instanceID, this.executionID, this.pastEvents, this.cachedHistory :=
        instanceID, executionID, pastEvents, None;
    }
  }

  class StreamState {
    const statefulHistory: bool
    const maxWarm: nat
    var warm: map<string, Warm>

    constructor (statefulHistory: bool, maxWarm: nat)
      ensures this.statefulHistory == statefulHistory && this.maxWarm == maxWarm && warm == map[]
    {
      this.statefulHistory, this.maxWarm, this.warm := statefulHistory, maxWarm, map[];
    }

    /** Forgets other instances until the cap holds; forgetting one only costs a full send. */
    method EvictWarm(keep: string)
      requires keep in warm
      modifies this`warm
      ensures keep in warm && WarmSubmap(warm, old(warm))
      ensures |warm| <= maxWarm || warm.Keys == {keep}
      ensures |old(warm)| <= maxWarm ==> warm == old(warm)
      ensures |old(warm)| > maxWarm ==> |warm| >= maxWarm
    {
      if |warm| <= maxWarm { return; }
      var rest := warm.Keys;
      while rest != {}
        invariant |warm| > maxWarm
        invariant keep in warm && WarmSubmap(warm, old(warm)) && rest <= old(warm).Keys
        invariant forall k :: k in warm ==> k == keep || k in rest
        decreases rest
      {
        var k := Pick(rest);
        rest := rest - {k};
        if k != keep {
          warm := warm - {k};
          if |warm| <= maxWarm { return; }
        }
      }
    }

    /** Rewrites the request in place into a delta where the stream is warm, and records what the worker now holds. */
    method ApplyStatefulHistory(req: WorkflowRequest)
      requires req.cachedHistory.None?
      modifies this`warm, req`pastEvents, req`cachedHistory
      ensures !statefulHistory ==> warm == old(warm) && req.pastEvents == old(req.pastEvents) && req.cachedHistory.None?
      ensures statefulHistory ==>
        req.cachedHistory == DeltaCount(old(warm), req.instanceID, req.executionID, |old(req.pastEvents)|)
      ensures req.cachedHistory.None? ==> req.pastEvents == old(req.pastEvents)
      ensures req.cachedHistory.Some? ==>
        var n := req.cachedHistory.value;
        n <= |old(req.pastEvents)| && old(req.pastEvents) == old(req.pastEvents)[..n] + req.pastEvents
      ensures statefulHistory ==>
        && req.instanceID in warm && warm[req.instanceID] == Warm(req.executionID, |old(req.pastEvents)|)
        && WarmSubmap(warm, old(warm)[req.instanceID := Warm(req.executionID, |old(req.pastEvents)|)])
        && (|warm| <= maxWarm || warm.Keys == {req.instanceID})
    {
      if !statefulHistory { return; }
      var iid, pastLen := req.instanceID, |req.pastEvents|;
      if iid in warm && req.executionID != "" {
        var cached := warm[iid];
        if cached.executionID == req.executionID && cached.eventCount > 0 && cached.eventCount <= pastLen {
          req.pastEvents := req.pastEvents[cached.eventCount..];
          req.cachedHistory := Some(cached.eventCount);
        }
      }
      warm := warm[iid := Warm(req.executionID, pastLen)];
      EvictWarm(iid);
    }
  }
}
