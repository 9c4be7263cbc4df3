/**
 Propagating history to children and activities (backend/runtimestate/propagation.go:24-94) and
 decoding it (api/propagation.go:104-156 and 347-399).

 Marshalled events are a datatype: bytes that decode to an event, or bytes that do not.
 */
module Lineage {
  import opened Work
  import opened RuntimeStates

  datatype Bytes = Encoded(event: Event) | Garbage(bytes: string)

  datatype Scope = NoPropagation | OwnHistory | Lineage

  /** The wire form of one workflow's part of the history. */
  datatype Chunk = Chunk(appID: string, instanceID: string, workflowName: string, rawEvents: seq<Bytes>)

  datatype Wire = Wire(scope: Scope, chunks: seq<Option<Chunk>>)

  /** One workflow on the way: what it has recorded, and the scope it propagates with. */
  datatype Hop = Hop(appID: string, instanceID: string, past: seq<Event>, recent: seq<Event>, scope: Scope) {
    function Own(): seq<Event> {
      past + recent
    }
  }

  function NameOf(events: seq<Event>): string {
    if events == [] then "" else if events[0].ExecutionStarted? then events[0].start.name else NameOf(events[1..])
  }

  function Marshal(events: seq<Event>): (raw: seq<Bytes>)
    ensures |raw| == |events| && forall i :: 0 <= i < |raw| ==> raw[i] == Encoded(events[i])
  {
    seq(|events|, i requires 0 <= i < |events| => Encoded(events[i]))
  }

  function OwnChunk(h: Hop): seq<Option<Chunk>> {
    if h.Own() == [] then [] else [Some(Chunk(h.appID, h.instanceID, NameOf(h.Own()), Marshal(h.Own())))]
  }

  /** What a hop passes on, given what it received. */
  function Assemble(h: Hop, received: Option<Wire>): Option<Wire> {
    if h.scope.NoPropagation? then None
    else Some(Wire(h.scope, (if h.scope.Lineage? && received.Some? then received.value.chunks else []) + OwnChunk(h)))
  }

  /** A new generation of a workflow forwards with the scope it received. */
  function CanForwardScope(received: Option<Wire>): Scope {
    if received.Some? then received.value.scope else NoPropagation
  }

  /** So the next generation sees what this one saw, and this one's own history if it recorded any. */
  lemma RestartForwards(h: Hop, received: Option<Wire>)
    requires h.scope == CanForwardScope(received)
    ensures var out := Assemble(h, received);
            && (out.Some? <==> received.Some? && !received.value.scope.NoPropagation?)
            && (out.Some? ==> out.value.scope == received.value.scope)
            && (out.Some? && h.scope.Lineage? ==> out.value.chunks == received.value.chunks + OwnChunk(h))
  {
  }

  method FindName(events: seq<Event>) returns (name: string)
    ensures name == NameOf(events)
  {
    for k := 0 to |events|
      invariant NameOf(events) == NameOf(events[k..])
    {
      if events[k].ExecutionStarted? { return events[k].start.name; }
      assert events[k..][1..] == events[k + 1..];
    }
    assert events[|events|..] == [];
    return "";
  }

  method AssembleProtoPropagatedHistory(h: Hop, received: Option<Wire>) returns (wire: Option<Wire>)
    ensures wire == Assemble(h, received)
  {
    if h.scope.NoPropagation? { return None; }
    var chunks := [];
    if h.scope.Lineage? && received.Some? {
      chunks := received.value.chunks;
    }
    var own := h.past + h.recent;
    ghost var base := chunks;
    assert base + [] == base;
    if |own| > 0 {
      var name := FindName(own);
      var raw := [];
      for i := 0 to |own|
        invariant |raw| == i && forall j :: 0 <= j < i ==> raw[j] == Encoded(own[j])
      {
        raw := raw + [Encoded(own[i])];
      }
      assert raw == Marshal(own);
      chunks := chunks + [Some(Chunk(h.appID, h.instanceID, name, raw))];
    }
    return Some(Wire(h.scope, chunks));
  }

  /******* Decoding *******/

  datatype HistoryChunk =
    HistoryChunk(appID: string, startEventIndex: int, eventCount: int, instanceID: string, workflowName: string)

  datatype Decoded = Decoded(events: seq<Event>, scope: Scope, chunks: seq<HistoryChunk>)

  function Unmarshal(raw: seq<Bytes>): Option<seq<Event>> {
    if raw == [] then Some([])
    else
      var front := Unmarshal(raw[..|raw| - 1]);
      if front.None? || raw[|raw| - 1].Garbage? then None else Some(front.value + [raw[|raw| - 1].event])
  }

  /** Decodes the chunks in order; any chunk that is missing, anonymous or unreadable spoils the whole. */
  function DecodeChunks(chunks: seq<Option<Chunk>>): Option<(seq<Event>, seq<HistoryChunk>)> {
    if chunks == [] then Some(([], []))
    else
      var front, c := DecodeChunks(chunks[..|chunks| - 1]), chunks[|chunks| - 1];
      if front.None? || c.None? || c.value.appID == "" || Unmarshal(c.value.rawEvents).None? then None
      else
        var events := Unmarshal(c.value.rawEvents).value;
        Some((front.value.0 + events,
              front.value.1 +
                    [HistoryChunk(c.value.appID, |front.value.0|, |events|, c.value.instanceID, c.value.workflowName)]))
  }

  function Decode(wire: Wire): Option<Decoded> {
    var d := DecodeChunks(wire.chunks);
    if d.None? then None else Some(Decoded(d.value.0, wire.scope, d.value.1))
  }

  /** Whether a prefix of the chunks decodes; validity is checked on all of them first, with the same overall result. */
  lemma {:induction false} DecodePrefix(chunks: seq<Option<Chunk>>, i: nat)
    requires i <= |chunks| && DecodeChunks(chunks[..i]).None?
    ensures DecodeChunks(chunks).None?
    decreases |chunks|
  {
    if i < |chunks| {
      assert chunks[..|chunks| - 1][..i] == chunks[..i];
      DecodePrefix(chunks[..|chunks| - 1], i);
    } else {
      assert chunks[..i] == chunks;
    }
  }

  lemma DecodeSnoc(chunks: seq<Option<Chunk>>, i: nat)
    requires i < |chunks|
    ensures chunks[..i + 1][..i] == chunks[..i] && chunks[..i + 1][i] == chunks[i]
  {
  }

  method DecodeRaw(raw: seq<Bytes>) returns (events: Option<seq<Event>>)
    ensures events == Unmarshal(raw)
  {
    var out := [];
    assert raw[..0] == [];
    for i := 0 to |raw|
      invariant Unmarshal(raw[..i]) == Some(out)
    {
      assert raw[..i + 1][..i] == raw[..i];
      if raw[i].Garbage? {
        UnmarshalPrefix(raw, i + 1);
        return None;
      }
      out := out + [raw[i].event];
    }
    assert raw[..|raw|] == raw;
    return Some(out);
  }

  lemma {:induction false} UnmarshalPrefix(raw: seq<Bytes>, i: nat)
    requires i <= |raw| && Unmarshal(raw[..i]).None?
    ensures Unmarshal(raw).None?
    decreases |raw|
  {
    if i < |raw| {
      assert raw[..|raw| - 1][..i] == raw[..i];
      UnmarshalPrefix(raw[..|raw| - 1], i);
    } else {
      assert raw[..i] == raw;
    }
  }

  method ValidatePropagatedHistory(wire: Wire) returns (ok: bool)
    ensures ok <==> forall i :: 0 <= i < |wire.chunks| ==> wire.chunks[i].Some? && wire.chunks[i].value.appID != ""
  {
    for i := 0 to |wire.chunks|
      invariant forall j :: 0 <= j < i ==> wire.chunks[j].Some? && wire.chunks[j].value.appID != ""
    {
      if wire.chunks[i].None? || wire.chunks[i].value.appID == "" { return false; }
    }
    return true;
  }

  method PropagatedHistoryFromProto(wire: Wire) returns (d: Option<Decoded>)
    ensures d == Decode(wire)
  {
    var chunks := wire.chunks;
    var ok := ValidatePropagatedHistory(wire);
    if !ok {
      SpoiledChunk(chunks);
      return None;
    }
    var events, parts := [], [];
    assert chunks[..0] == [];
    for i := 0 to |chunks|
      invariant DecodeChunks(chunks[..i]) == Some((events, parts))
    {
      DecodeSnoc(chunks, i);
      var c := chunks[i].value;
      var more := DecodeRaw(c.rawEvents);
      if more.None? {
        DecodePrefix(chunks, i + 1);
        return None;
      }
      parts := parts + [HistoryChunk(c.appID, |events|, |more.value|, c.instanceID, c.workflowName)];
      events := events + more.value;
    }
    assert chunks[..|chunks|] == chunks;
    return Some(Decoded(events, wire.scope, parts));
  }

  lemma {:induction false} SpoiledChunk(chunks: seq<Option<Chunk>>)
    requires exists i :: 0 <= i < |chunks| && (chunks[i].None? || chunks[i].value.appID == "")
    ensures DecodeChunks(chunks).None?
  {
    var i :| 0 <= i < |chunks| && (chunks[i].None? || chunks[i].value.appID == "");
    DecodeSnoc(chunks, i);
    assert DecodeChunks(chunks[..i + 1]).None?;
    DecodePrefix(chunks, i + 1);
  }

  /******* Chains of any depth *******/

  /** What the last of these hops passes on. */
  function Chain(hops: seq<Hop>): Option<Wire> {
    if hops == [] then None else Assemble(hops[|hops| - 1], Chain(hops[..|hops| - 1]))
  }

  /**
   The hops whose history reaches the end: back to the last one that passes on only its own, or to just after a gap.
   */
  function Contributors(hops: seq<Hop>): seq<Hop> {
    if hops == [] || hops[|hops| - 1].scope.NoPropagation? then []
    else if hops[|hops| - 1].scope.OwnHistory? then [hops[|hops| - 1]]
    else Contributors(hops[..|hops| - 1]) + [hops[|hops| - 1]]
  }

  function OwnEvents(hops: seq<Hop>): seq<Event> {
    if hops == [] then [] else OwnEvents(hops[..|hops| - 1]) + hops[|hops| - 1].Own()
  }

  function WireChunks(hops: seq<Hop>): seq<Option<Chunk>> {
    if hops == [] then [] else WireChunks(hops[..|hops| - 1]) + OwnChunk(hops[|hops| - 1])
  }

  lemma WireChunksSnoc(hops: seq<Hop>, h: Hop)
    ensures WireChunks(hops + [h]) == WireChunks(hops) + OwnChunk(h)
  {
    assert (hops + [h])[..|hops|] == hops;
  }

  lemma {:induction false} ChainChunks(hops: seq<Hop>)
    ensures if hops == [] || hops[|hops| - 1].scope.NoPropagation? then Chain(hops).None?
            else Chain(hops) == Some(Wire(hops[|hops| - 1].scope, WireChunks(Contributors(hops))))
  {
    hide OwnChunk;
    if hops != [] {
      var front, h := hops[..|hops| - 1], hops[|hops| - 1];
      ChainChunks(front);
      var received := Chain(front);
      if h.scope.OwnHistory? {
        WireChunksSnoc([], h);
        assert [] + [h] == [h];
      } else if h.scope.Lineage? {
        WireChunksSnoc(Contributors(front), h);
        assert received.None? ==> Contributors(front) == [];
        assert (if received.Some? then received.value.chunks else []) == WireChunks(Contributors(front));
      }
    }
  }

  lemma {:induction false} UnmarshalMarshal(events: seq<Event>)
    ensures Unmarshal(Marshal(events)) == Some(events)
  {
    if events != [] {
      UnmarshalMarshal(events[..|events| - 1]);
      assert Marshal(events)[..|events| - 1] == Marshal(events[..|events| - 1]);
      assert events == events[..|events| - 1] + [events[|events| - 1]];
    }
  }

  lemma DecodeNone()
    ensures DecodeChunks([]) == Some(([], []))
  {
  }

  /** A further chunk that decodes adds its events. */
  lemma {:induction false} DecodeMore(chunks: seq<Option<Chunk>>, c: Chunk, events: seq<Event>)
    requires DecodeChunks(chunks).Some? && c.appID != "" && Unmarshal(c.rawEvents) == Some(events)
    ensures var all := DecodeChunks(chunks + [Some(c)]);
            all.Some? && all.value.0 == DecodeChunks(chunks).value.0 + events
  {
    hide Unmarshal;
    var all := chunks + [Some(c)];
    assert all[..|all| - 1] == chunks && all[|all| - 1] == Some(c);
  }

  lemma {:induction false} DecodeOwn(hops: seq<Hop>)
    requires forall i :: 0 <= i < |hops| ==> hops[i].appID != ""
    ensures DecodeChunks(WireChunks(hops)).Some? && DecodeChunks(WireChunks(hops)).value.0 == OwnEvents(hops)
  {
    hide DecodeChunks, Unmarshal, Marshal;
    if hops == [] {
      DecodeNone();
    } else {
      var front, h := hops[..|hops| - 1], hops[|hops| - 1];
      DecodeOwn(front);
      if h.Own() == [] {
        assert WireChunks(hops) == WireChunks(front);
        assert OwnEvents(hops) == OwnEvents(front);
      } else {
        UnmarshalMarshal(h.Own());
        DecodeMore(WireChunks(front), OwnChunk(h)[0].value, h.Own());
      }
    }
  }

  lemma {:induction false} ContributorsNamed(hops: seq<Hop>)
    requires forall i :: 0 <= i < |hops| ==> hops[i].appID != ""
    ensures forall i :: 0 <= i < |Contributors(hops)| ==> Contributors(hops)[i].appID != ""
  {
    if hops != [] { ContributorsNamed(hops[..|hops| - 1]); }
  }

  /**
   Lineage round trip: what arrives at the end of a chain decodes to the events of the contributing
   hops, each in full and in order, oldest first.
   */
  lemma LineageRoundTrip(hops: seq<Hop>)
    requires forall i :: 0 <= i < |hops| ==> hops[i].appID != ""
    requires Chain(hops).Some?
    ensures var d := Decode(Chain(hops).value);
            d.Some? && d.value.events == OwnEvents(Contributors(hops)) && d.value.scope == hops[|hops| - 1].scope
  {
    ChainChunks(hops);
    ContributorsNamed(hops);
    DecodeOwn(Contributors(hops));
  }

  /******* Generations of a workflow that continues as new *******/

  /**
   What the next generation receives after these generations; one that passes nothing on leaves it what it received.
   */
  function Incoming(received: Option<Wire>, generations: seq<Hop>): Option<Wire> {
    if generations == [] then received
    else
      var r := Incoming(received, generations[..|generations| - 1]);
      var out := Assemble(generations[|generations| - 1].(scope := CanForwardScope(r)), r);
      if out.Some? then out else r
  }

  function Scoped(generations: seq<Hop>, scope: Scope): seq<Hop> {
    if generations == [] then []
    else Scoped(generations[..|generations| - 1], scope) + [generations[|generations| - 1].(scope := scope)]
  }

  lemma ChainSnoc(hops: seq<Hop>, h: Hop)
    ensures Chain(hops + [h]) == Assemble(h, Chain(hops))
  {
    assert (hops + [h])[..|hops|] == hops;
  }

  lemma ChainScope(hops: seq<Hop>)
    requires Chain(hops).Some?
    ensures !Chain(hops).value.scope.NoPropagation?
  {
  }

  lemma IncomingNone(received: Option<Wire>)
    ensures Incoming(received, []) == received
  {
  }

  lemma IncomingLast(received: Option<Wire>, generations: seq<Hop>)
    requires generations != []
    ensures var r := Incoming(received, generations[..|generations| - 1]);
            var out := Assemble(generations[|generations| - 1].(scope := CanForwardScope(r)), r);
            Incoming(received, generations) == if out.Some? then out else r
  {
  }

  lemma NoEvents()
    ensures OwnEvents([]) == []
  {
  }

  lemma HopsSnoc(hops: seq<Hop>, h: Hop)
    ensures OwnEvents(hops + [h]) == OwnEvents(hops) + h.Own()
    ensures h.scope.Lineage? ==> Contributors(hops + [h]) == Contributors(hops) + [h]
    ensures h.scope.OwnHistory? ==> Contributors(hops + [h]) == [h]
  {
    assert (hops + [h])[..|hops|] == hops;
  }

  /** Generations pass a history on as a chain of hops would, in the scope it came with. */
  lemma {:induction false} GenerationsAreHops(hops: seq<Hop>, generations: seq<Hop>)
    requires Chain(hops).Some?
    ensures var scope := Chain(hops).value.scope;
            && !scope.NoPropagation?
            && Incoming(Chain(hops), generations) == Chain(hops + Scoped(generations, scope))
            && Incoming(Chain(hops), generations).Some?
            && Incoming(Chain(hops), generations).value.scope == scope
  {
    hide Chain, Incoming, Assemble;
    var scope := Chain(hops).value.scope;
    ChainScope(hops);
    if generations == [] {
      assert hops + [] == hops;
      assert Incoming(Chain(hops), []) == Chain(hops) by { IncomingNone(Chain(hops)); }
    } else {
      var front, h := generations[..|generations| - 1], generations[|generations| - 1];
      GenerationsAreHops(hops, front);
      var r := Incoming(Chain(hops), front);
      RestartForwards(h.(scope := scope), r);
      ChainSnoc(hops + Scoped(front, scope), h.(scope := scope));
      assert hops + Scoped(generations, scope) == hops + Scoped(front, scope) + [h.(scope := scope)];
      IncomingLast(Chain(hops), generations);
    }
  }

  lemma Assoc<T>(a: seq<T>, b: seq<T>, c: seq<T>)
    ensures a + b + c == a + (b + c)
  {
  }

  lemma {:induction false} ScopedNamed(generations: seq<Hop>, scope: Scope)
    requires forall i :: 0 <= i < |generations| ==> generations[i].appID != ""
    ensures var q := Scoped(generations, scope);
            |q| == |generations| && forall i :: 0 <= i < |q| ==> q[i].appID != ""
  {
    if generations != [] { ScopedNamed(generations[..|generations| - 1], scope); }
  }

  lemma {:induction false} ScopedEvents(hops: seq<Hop>, generations: seq<Hop>, scope: Scope)
    ensures OwnEvents(hops + Scoped(generations, scope)) == OwnEvents(hops) + OwnEvents(generations)
  {
    hide OwnEvents;
    NoEvents();
    if generations == [] {
      assert hops + [] == hops;
    } else {
      var front, h := generations[..|generations| - 1], generations[|generations| - 1];
      ScopedEvents(hops, front, scope);
      var q, h' := Scoped(front, scope), h.(scope := scope);
      Assoc(hops, q, [h']);
      HopsSnoc(hops + q, h');
      HopsSnoc(front, h);
      assert generations == front + [h];
      Assoc(OwnEvents(hops), OwnEvents(front), h.Own());
    }
  }

  lemma {:induction false} ScopedContribute(hops: seq<Hop>, generations: seq<Hop>)
    ensures Contributors(hops + Scoped(generations, Lineage)) == Contributors(hops) + Scoped(generations, Lineage)
  {
    hide Contributors;
    if generations == [] {
      assert hops + [] == hops;
    } else {
      var front, h := generations[..|generations| - 1], generations[|generations| - 1];
      ScopedContribute(hops, front);
      var q, h' := Scoped(front, Lineage), h.(scope := Lineage);
      Assoc(hops, q, [h']);
      HopsSnoc(hops + q, h');
      Assoc(Contributors(hops), q, [h']);
    }
  }

  /**
   Lineage through restarts: after any number of generations the next one decodes all that the first one
   received followed by what each generation recorded, or, where only the own history travels, what the
   last generation recorded.
   */
  lemma {:induction false} RestartsKeepLineage(hops: seq<Hop>, generations: seq<Hop>)
    requires Chain(hops).Some? && generations != []
    requires forall i :: 0 <= i < |hops| ==> hops[i].appID != ""
    requires forall i :: 0 <= i < |generations| ==> generations[i].appID != ""
    ensures var incoming := Incoming(Chain(hops), generations);
            && incoming.Some? && incoming.value.scope == Chain(hops).value.scope
            && var d := Decode(incoming.value);
               && d.Some?
               && d.value.events ==
                    if incoming.value.scope.Lineage? then OwnEvents(Contributors(hops)) + OwnEvents(generations)
                    else generations[|generations| - 1].Own()
  {
    hide Decode, Chain, Incoming, OwnEvents, Contributors;
    var scope := Chain(hops).value.scope;
    var q := Scoped(generations, scope);
    GenerationsAreHops(hops, generations);
    ScopedNamed(generations, scope);
    LineageRoundTrip(hops + q);
    if scope.Lineage? {
      ScopedContribute(hops, generations);
      ScopedEvents(Contributors(hops), generations, scope);
    } else {
      var h := generations[|generations| - 1].(scope := scope);
      assert hops + q == hops + q[..|q| - 1] + [h];
      HopsSnoc(hops + q[..|q| - 1], h);
      HopsSnoc([], h);
      NoEvents();
      assert [] + [h] == [h];
    }
  }

  /** Contributors end with the last hop and go back without a gap to the last hop of scope OwnHistory. */
  lemma {:induction false} ContributorsAreSuffix(hops: seq<Hop>)
    ensures var q := Contributors(hops);
            && |q| <= |hops| && q == hops[|hops| - |q|..]
            && (forall i :: |hops| - |q| < i < |hops| ==> hops[i].scope.Lineage?)
            && (0 < |q| ==>
                  hops[|hops| - |q|].scope.OwnHistory? || |q| == |hops| || hops[|hops| - |q| - 1].scope.NoPropagation?)
  {
    if hops != [] && hops[|hops| - 1].scope.Lineage? {
      var front := hops[..|hops| - 1];
      ContributorsAreSuffix(front);
      var n := |Contributors(front)|;
      assert Contributors(hops) == front[|front| - n..] + [hops[|hops| - 1]] == hops[|hops| - n - 1..];
    }
  }

  /******* Chunks *******/

  /** The slice of events of a chunk, clamped against malformed indices (lines 138-156). */
  function ChunkEvents(events: seq<Event>, c: HistoryChunk): seq<Event> {
    var start := c.startEventIndex;
    if start < 0 || start > |events| then []
    else
      var end := if start + c.eventCount > |events| then |events| else start + c.eventCount;
      if end < start then [] else events[start..end]
  }

  /** The chunks cover the events from the first to the last, one after the other. */
  ghost predicate Partition(chunks: seq<HistoryChunk>, n: int) {
    if chunks == [] then n == 0
    else
      var c := chunks[|chunks| - 1];
      && c.eventCount >= 0 && c.startEventIndex >= 0 && c.startEventIndex + c.eventCount == n
      && Partition(chunks[..|chunks| - 1], c.startEventIndex)
  }

  predicate Describes(d: HistoryChunk, c: Chunk) {
    d.appID == c.appID && d.instanceID == c.instanceID && d.workflowName == c.workflowName
  }

  lemma {:induction false} DecodedPartition(chunks: seq<Option<Chunk>>)
    requires DecodeChunks(chunks).Some?
    ensures var d := DecodeChunks(chunks).value;
            && |d.1| == |chunks| && Partition(d.1, |d.0|)
            && (forall i :: 0 <= i < |chunks| ==> chunks[i].Some? && Describes(d.1[i], chunks[i].value))
  {
    if chunks != [] {
      hide DecodeChunks, Unmarshal;
      DecodeLast(chunks);
      DecodedPartition(chunks[..|chunks| - 1]);
      var d, front := DecodeChunks(chunks).value, DecodeChunks(chunks[..|chunks| - 1]).value;
      assert d.1[..|d.1| - 1] == front.1;
    }
  }

  lemma {:induction false} PartitionBounds(chunks: seq<HistoryChunk>, n: int, i: nat)
    requires Partition(chunks, n) && i < |chunks|
    ensures n >= 0 && chunks[i].eventCount >= 0 &&
      0 <= chunks[i].startEventIndex <= chunks[i].startEventIndex + chunks[i].eventCount <= n
    decreases |chunks|
  {
    if i < |chunks| - 1 { PartitionBounds(chunks[..|chunks| - 1], chunks[|chunks| - 1].startEventIndex, i); }
  }

  /** The last chunk was decoded after the chunks before it. */
  lemma DecodeLast(chunks: seq<Option<Chunk>>)
    requires chunks != [] && DecodeChunks(chunks).Some?
    ensures var front, c := DecodeChunks(chunks[..|chunks| - 1]), chunks[|chunks| - 1];
            && front.Some? && c.Some? && Unmarshal(c.value.rawEvents).Some?
            && var events := Unmarshal(c.value.rawEvents).value;
               && DecodeChunks(chunks).value.0 == front.value.0 + events
               && DecodeChunks(chunks).value.1 ==
                    front.value.1 +
                    [HistoryChunk(c.value.appID, |front.value.0|, |events|, c.value.instanceID, c.value.workflowName)]
  {
  }

  lemma ChunkEventsExtended(events: seq<Event>, more: seq<Event>, c: HistoryChunk)
    requires 0 <= c.startEventIndex <= c.startEventIndex + c.eventCount <= |events|
    ensures ChunkEvents(events + more, c) == ChunkEvents(events, c)
  {
    var start, end := c.startEventIndex, c.startEventIndex + c.eventCount;
    assert (events + more)[start..end] == events[start..end];
  }

  /** Decoded chunks never need clamping, and each holds exactly the events of its own wire chunk. */
  lemma {:induction false} ChunkHoldsItsEvents(chunks: seq<Option<Chunk>>, i: nat)
    requires DecodeChunks(chunks).Some? && i < |chunks|
    ensures var d := DecodeChunks(chunks).value;
            && |d.1| == |chunks| && chunks[i].Some?
            && 0 <= d.1[i].startEventIndex && d.1[i].startEventIndex + d.1[i].eventCount <= |d.0|
            && Some(ChunkEvents(d.0, d.1[i])) == Unmarshal(chunks[i].value.rawEvents)
    decreases |chunks|
  {
    hide DecodeChunks, Partition, Unmarshal;
    DecodedPartition(chunks);
    DecodeLast(chunks);
    var d, front := DecodeChunks(chunks).value, DecodeChunks(chunks[..|chunks| - 1]).value;
    DecodedPartition(chunks[..|chunks| - 1]);
    if i < |chunks| - 1 {
      ChunkHoldsItsEvents(chunks[..|chunks| - 1], i);
      PartitionBounds(front.1, |front.0|, i);
      assert d.1[i] == front.1[i];
      ChunkEventsExtended(front.0, d.0[|front.0|..], front.1[i]);
      assert d.0 == front.0 + d.0[|front.0|..];
    } else {
      var events := Unmarshal(chunks[i].value.rawEvents).value;
      assert d.0[|front.0|..|front.0| + |events|] == events;
    }
  }

  /** The events of the chunks that match, in order: by application, instance or workflow name (lines 104-134). */
  method GetEvents(d: Decoded, matches: HistoryChunk -> bool) returns (events: seq<Event>)
    ensures events == EventsOf(d.events, d.chunks, matches)
  {
    events := [];
    assert d.chunks[..0] == [];
    for i := 0 to |d.chunks|
      invariant events == EventsOf(d.events, d.chunks[..i], matches)
    {
      assert d.chunks[..i + 1][..i] == d.chunks[..i];
      if matches(d.chunks[i]) {
        events := events + ChunkEvents(d.events, d.chunks[i]);
      }
    }
    assert d.chunks[..|d.chunks|] == d.chunks;
  }

  function ByInstance(instanceID: string): HistoryChunk -> bool {
    (c: HistoryChunk) => c.instanceID == instanceID
  }

  function EventsOf(events: seq<Event>, chunks: seq<HistoryChunk>, matches: HistoryChunk -> bool): seq<Event> {
    if chunks == [] then []
    else EventsOf(events, chunks[..|chunks| - 1], matches) +
         (if matches(chunks[|chunks| - 1]) then ChunkEvents(events, chunks[|chunks| - 1]) else [])
  }

  /** The events of the hops of an instance. */
  function OwnEventsOf(hops: seq<Hop>, instanceID: string): seq<Event> {
    if hops == [] then []
    else OwnEventsOf(hops[..|hops| - 1], instanceID) +
         (if hops[|hops| - 1].instanceID == instanceID then hops[|hops| - 1].Own() else [])
  }

  lemma {:induction false} EventsOfExtended(events: seq<Event>, more: seq<Event>, chunks: seq<HistoryChunk>,
                                            matches: HistoryChunk -> bool)
    requires Partition(chunks, |events|)
    ensures EventsOf(events + more, chunks, matches) == EventsOf(events, chunks, matches)
  {
    ExtendFrom(events, more, chunks, |events|, matches);
  }

  lemma {:induction false} ExtendFrom(events: seq<Event>, more: seq<Event>, chunks: seq<HistoryChunk>, n: int,
                                      matches: HistoryChunk -> bool)
    requires Partition(chunks, n) && n <= |events|
    ensures EventsOf(events + more, chunks, matches) == EventsOf(events, chunks, matches)
    decreases chunks
  {
    if chunks != [] {
      var c := chunks[|chunks| - 1];
      ExtendFrom(events, more, chunks[..|chunks| - 1], c.startEventIndex, matches);
      PartitionBounds(chunks, n, |chunks| - 1);
      assert (events + more)[c.startEventIndex..n] == events[c.startEventIndex..n];
    }
  }

  /** A further chunk adds its own events to the query, or nothing. */
  lemma QueryStep(events: seq<Event>, chunks: seq<HistoryChunk>, own: seq<Event>, c: HistoryChunk,
                  matches: HistoryChunk -> bool)
    requires Partition(chunks, |events|) && c.startEventIndex == |events| && c.eventCount == |own|
    ensures EventsOf(events + own, chunks + [c], matches) ==
            EventsOf(events, chunks, matches) + if matches(c) then own else []
  {
    EventsOfExtended(events, own, chunks, matches);
    assert (chunks + [c])[..|chunks|] == chunks;
    assert (events + own)[|events|..|events| + |own|] == own;
  }

  lemma InstanceQueryStep(front: seq<Hop>, h: Hop, all: seq<Option<Chunk>>, instanceID: string)
    requires h.appID != "" && h.Own() != [] && all == WireChunks(front) + OwnChunk(h) &&
      DecodeChunks(WireChunks(front)).Some?
    ensures DecodeChunks(all).Some?
    ensures var d0, d, matches := DecodeChunks(WireChunks(front)).value, DecodeChunks(all).value,
                                      ByInstance(instanceID);
            EventsOf(d.0, d.1, matches) ==
            EventsOf(d0.0, d0.1, matches) + if h.instanceID == instanceID then h.Own() else []
  {
    hide WireChunks, Unmarshal, Partition, EventsOf;
    var d0 := DecodeChunks(WireChunks(front)).value;
    assert all[..|all| - 1] == WireChunks(front) && all[|all| - 1] == OwnChunk(h)[0];
    UnmarshalMarshal(h.Own());
    DecodedPartition(WireChunks(front));
    var c := HistoryChunk(h.appID, |d0.0|, |h.Own()|, h.instanceID, NameOf(h.Own()));
    assert DecodeChunks(all) == Some((d0.0 + h.Own(), d0.1 + [c]));
    QueryStep(d0.0, d0.1, h.Own(), c, ByInstance(instanceID));
  }

  /** Asking for an instance returns what that instance recorded, all of it and nothing else. */
  lemma {:induction false} InstanceQuery(hops: seq<Hop>, instanceID: string)
    requires forall i :: 0 <= i < |hops| ==> hops[i].appID != ""
    ensures DecodeChunks(WireChunks(hops)).Some?
    ensures var d := DecodeChunks(WireChunks(hops)).value;
            EventsOf(d.0, d.1, ByInstance(instanceID)) == OwnEventsOf(hops, instanceID)
  {
    hide DecodeChunks, EventsOf;
    DecodeOwn(hops);
    if hops != [] {
      var front, h := hops[..|hops| - 1], hops[|hops| - 1];
      InstanceQuery(front, instanceID);
      if h.Own() == [] {
        assert WireChunks(hops) == WireChunks(front);
        assert OwnEventsOf(hops, instanceID) == OwnEventsOf(front, instanceID);
      } else {
        InstanceQueryStep(front, h, WireChunks(hops), instanceID);
      }
    } else {
      EventsOfNothing(instanceID);
    }
  }

  lemma EventsOfNothing(instanceID: string)
    ensures DecodeChunks([]) == Some(([], [])) && EventsOf([], [], ByInstance(instanceID)) == []
  {
  }
}
