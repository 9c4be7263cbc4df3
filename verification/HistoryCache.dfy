/**
 The worker's cache of committed histories (client/worker_history.go:117-274): least-recently-used
 eviction under an instance cap and a byte budget, and expiry by age.
 */
module HistoryCaches {
  import opened Work

  /**
   A committed history event; a start event names its execution. Its serialised size is whatever the encoding makes it.
   */
  datatype Event = Event(content: string, started: Option<string>, size: nat)

  datatype Entry = Entry(executionID: string, events: seq<Event>, lastAccess: int, bytes: nat)

  type Entries = map<string, Entry>

  function HistoryBytes(events: seq<Event>): nat {
    if events == [] then 0 else HistoryBytes(events[..|events| - 1]) + events[|events| - 1].size
  }

  /** The execution named by the first start event. */
  function HistoryExecutionID(events: seq<Event>): string {
    if events == [] then ""
    else if events[0].started.Some? then events[0].started.value else HistoryExecutionID(events[1..])
  }

  method FindExecutionID(events: seq<Event>) returns (id: string)
    ensures id == HistoryExecutionID(events)
  {
    for i := 0 to |events|
      invariant HistoryExecutionID(events) == HistoryExecutionID(events[i..])
    {
      if events[i].started.Some? { return events[i].started.value; }
      assert events[i..][1..] == events[i + 1..];
    }
    assert events[|events|..] == [];
    return "";
  }

  /******* Sums over entries *******/

  ghost function TotalBytes(m: Entries): nat {
    if m == map[] then 0
    else
      var k := AnyOf(m.Keys);
      m[k].bytes + TotalBytes(m - {k})
  }

  ghost function AnyOf(s: set<string>): (k: string)
    requires s != {}
    ensures k in s
  {
    var k :| k in s;
    k
  }

  lemma {:induction false} TotalWithout(m: Entries, k: string)
    requires k in m
    ensures TotalBytes(m) == m[k].bytes + TotalBytes(m - {k})
    decreases |m|
  {
    var c := AnyOf(m.Keys);
    if c != k {
      TotalWithout(m - {c}, k);
      TotalWithout(m - {k}, c);
      assert m - {c} - {k} == m - {k} - {c};
    }
  }

  lemma TotalWith(m: Entries, k: string, e: Entry)
    ensures TotalBytes(m[k := e]) == e.bytes + TotalBytes(m - {k})
  {
    TotalWithout(m[k := e], k);
    assert m[k := e] - {k} == m - {k};
  }

  lemma TotalAbsent(m: Entries, k: string)
    ensures TotalBytes(m - {k}) == TotalBytes(m) - if k in m then m[k].bytes else 0
  {
    if k in m { TotalWithout(m, k); } else { assert m - {k} == m; }
  }

  /** Entries that were kept unchanged. */
  ghost predicate Submap(m: Entries, full: Entries) {
    m.Keys <= full.Keys && forall k :: k in m ==> m[k] == full[k]
  }

  /** Nothing that was evicted was used more recently than anything that survived, the kept entry apart. */
  ghost predicate OldestEvicted(m: Entries, full: Entries, keep: string) {
    forall gone, left :: gone in full && gone !in m && left in m && left != keep ==>
      full[gone].lastAccess <= m[left].lastAccess
  }

  lemma EvictOne(m: Entries, full: Entries, keep: string, victim: string)
    requires Submap(m, full) && OldestEvicted(m, full, keep) && victim in m && victim != keep
    requires forall k :: k in m && k != keep ==> m[victim].lastAccess <= m[k].lastAccess
    ensures Submap(m - {victim}, full) && OldestEvicted(m - {victim}, full, keep)
  {
  }

  /** Both budgets hold; a byte budget of zero is none. */
  ghost predicate Fits(m: Entries, maxInstances: int, maxBytes: int) {
    |m| <= maxInstances && (maxBytes > 0 ==> TotalBytes(m) <= maxBytes)
  }

  /** Nothing was evicted, or the last one evicted would not fit any more. */
  ghost predicate NoMoreThanNeeded(m: Entries, full: Entries, maxInstances: int, maxBytes: int) {
    m == full || exists k :: k in full && k !in m && !Fits(m[k := full[k]], maxInstances, maxBytes)
  }

  lemma EvictedOne(m: Entries, full: Entries, victim: string, maxInstances: int, maxBytes: int)
    requires Submap(m, full) && victim in m && !Fits(m, maxInstances, maxBytes)
    ensures NoMoreThanNeeded(m - {victim}, full, maxInstances, maxBytes)
  {
    assert (m - {victim})[victim := full[victim]] == m;
  }

  class WorkflowHistoryCache {
    var entries: Entries
    var totalBytes: int
    const ttl: int
    const maxInstances: int
    const maxBytes: int

    /** The running total is the sum of the sizes of the entries. */
    ghost predicate Valid()
      reads this
    {
      totalBytes == TotalBytes(entries) && maxInstances > 0 && maxBytes >= 0
    }

    predicate WithinBudget()
      reads this
    {
      |entries| <= maxInstances && (maxBytes > 0 ==> totalBytes <= maxBytes)
    }

    /** A limit that is absent or not positive means the default; the default byte budget is none. */
    constructor (ttl: Option<int>, maxInstances: Option<int>, maxBytes: Option<int>)
      ensures Valid() && entries == map[]
      ensures this.ttl == if ttl.Some? && ttl.value > 0 then ttl.value else 3_600_000_000_000
      ensures this.maxInstances == if maxInstances.Some? && maxInstances.value > 0 then maxInstances.value else 100_000
      ensures this.maxBytes == if maxBytes.Some? && maxBytes.value > 0 then maxBytes.value else 0
    {
      this.ttl := if ttl.Some? && ttl.value > 0 then ttl.value else 3_600_000_000_000;
      this.maxInstances := if maxInstances.Some? && maxInstances.value > 0 then maxInstances.value else 100_000;
      this.maxBytes := if maxBytes.Some? && maxBytes.value > 0 then maxBytes.value else 0;
      entries, totalBytes := map[], 0;
    }

    /** A hit needs an entry of the requested execution, which must be known; it counts as a use. */
    method Get(iid: string, executionID: Option<string>, now: int) returns (hit: Option<seq<Event>>)
      requires Valid()
      modifies this`entries
      ensures Valid()
      ensures hit.Some? <==>
        iid in old(entries) &&
        (executionID.Some? ==> executionID.value != "" && old(entries)[iid].executionID == executionID.value)
      ensures hit.Some? ==> hit.value == old(entries)[iid].events
      ensures entries == if hit.Some? then old(entries)[iid := old(entries)[iid].(lastAccess := now)] else old(entries)
    {
      if iid !in entries { return None; }
      if executionID.Some? &&
         (executionID.value == "" || entries[iid].executionID != executionID.value) { return None; }
      TotalWith(entries, iid, entries[iid].(lastAccess := now));
      TotalAbsent(entries, iid);
      hit := Some(entries[iid].events);
      entries := entries[iid := entries[iid].(lastAccess := now)];
    }

    method RemoveEntry(iid: string)
      requires Valid()
      modifies this`entries, this`totalBytes
      ensures Valid() && entries == old(entries) - {iid}
    {
      TotalAbsent(entries, iid);
      if iid in entries {
        totalBytes := totalBytes - entries[iid].bytes;
        entries := entries - {iid};
      } else {
        assert entries - {iid} == entries;
      }
    }

    method LruExcept(keep: string) returns (victim: Option<string>)
      ensures victim.None? <==> entries.Keys <= {keep}
      ensures victim.Some? ==> victim.value in entries && victim.value != keep
      ensures victim.Some? ==>
          forall k :: k in entries && k != keep ==> entries[victim.value].lastAccess <= entries[k].lastAccess
    {
      victim := None;
      var rest := entries.Keys;
      while rest != {}
        invariant rest <= entries.Keys
        invariant victim.None? ==> forall k :: k in entries && k !in rest ==> k == keep
        invariant victim.Some? ==> victim.value in entries && victim.value != keep
        invariant victim.Some? ==>
          forall k :: k in entries && k !in rest && k != keep ==>
            entries[victim.value].lastAccess <= entries[k].lastAccess
        decreases rest
      {
        var id := Pick(rest);
        rest := rest - {id};
        if id != keep && (victim.None? || entries[id].lastAccess < entries[victim.value].lastAccess) {
          victim := Some(id);
        }
      }
    }

    /** Evicts until both budgets hold or only the kept entry is left. */
    method EvictToFit(keep: string)
      requires Valid() && keep in entries
      modifies this`entries, this`totalBytes
      ensures Valid() && keep in entries && Submap(entries, old(entries)) && OldestEvicted(entries, old(entries), keep)
      ensures WithinBudget() || entries.Keys == {keep}
      ensures old(WithinBudget()) ==> entries == old(entries)
      ensures NoMoreThanNeeded(entries, old(entries), maxInstances, maxBytes)
    {
      ghost var full := entries;
      while |entries| > 1
        invariant Valid() && keep in entries && Submap(entries, full) && OldestEvicted(entries, full, keep)
        invariant old(WithinBudget()) ==> entries == full && totalBytes == old(totalBytes)
        invariant NoMoreThanNeeded(entries, full, maxInstances, maxBytes)
        decreases |entries|
      {
        if |entries| <= maxInstances && !(maxBytes > 0 && totalBytes > maxBytes) { return; }
        var victim := LruExcept(keep);
        if victim.None? { return; }
        EvictOne(entries, full, keep, victim.value);
        EvictedOne(entries, full, victim.value, maxInstances, maxBytes);
        RemoveEntry(victim.value);
      }
      OnlyOne(entries.Keys, keep);
    }

    /** Stores a history; the stored entry survives, and older entries make room for it. */
    method PutForExecution(iid: string, executionID: string, events: seq<Event>, now: int)
      requires Valid()
      modifies this`entries, this`totalBytes
      ensures Valid()
      ensures var e := Entry(executionID, events, now, if maxBytes > 0 then HistoryBytes(events) else 0);
              && iid in entries && entries[iid] == e
              && Submap(entries, old(entries)[iid := e]) && OldestEvicted(entries, old(entries)[iid := e], iid)
              && NoMoreThanNeeded(entries, old(entries)[iid := e], maxInstances, maxBytes)
      ensures WithinBudget() || entries.Keys == {iid}
    {
      var size := 0;
      if maxBytes > 0 { size := MeasureHistory(events); }
      var e := Entry(executionID, events, now, size);
      TotalWith(entries, iid, e);
      TotalAbsent(entries, iid);
      if iid in entries {
        totalBytes := totalBytes - entries[iid].bytes;
      }
      entries := entries[iid := e];
      totalBytes := totalBytes + size;
      EvictToFit(iid);
    }

    method Delete(iid: string)
      requires Valid()
      modifies this`entries, this`totalBytes
      ensures Valid() && entries == old(entries) - {iid}
    {
      RemoveEntry(iid);
    }

    method Reset()
      requires Valid()
      modifies this`entries, this`totalBytes
      ensures Valid() && entries == map[]
    {
      entries, totalBytes := map[], 0;
    }

    /** Drops exactly the entries whose last use is longer ago than the time to live. */
    method SweepExpired(now: int)
      requires Valid()
      modifies this`entries, this`totalBytes
      ensures Valid()
      ensures entries == map k | k in old(entries) && now - old(entries)[k].lastAccess <= ttl :: old(entries)[k]
    {
      ghost var full := entries;
      var rest := entries.Keys;
      while rest != {}
        invariant Valid() && rest <= full.Keys && Submap(entries, full)
        invariant forall k :: k in full ==> (k in entries <==> k in rest || now - full[k].lastAccess <= ttl)
        decreases rest
      {
        var id := Pick(rest);
        rest := rest - {id};
        if now - entries[id].lastAccess > ttl {
          RemoveEntry(id);
        }
      }
    }
  }

  lemma OnlyOne(s: set<string>, k: string)
    requires k in s && |s| <= 1
    ensures s == {k}
  {
    assert |s - {k}| == 0;
    assert s - {k} == {};
  }

  method MeasureHistory(events: seq<Event>) returns (total: nat)
    ensures total == HistoryBytes(events)
  {
    total := 0;
    for i := 0 to |events|
      invariant total == HistoryBytes(events[..i])
    {
      assert events[..i + 1][..i] == events[..i];
      total := total + events[i].size;
    }
    assert events[..|events|] == events;
  }
}
