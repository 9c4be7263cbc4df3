/**
 Attempts, their completion and their end (backend/executor_transport.go, backend/executor.go,
 backend/local/task.go).

 Execute calls, stream handlers, completion RPCs and Shutdown run concurrently, so the protocol
 is a state machine whose steps interleave freely. An attempt is named by its position in the
 list of all attempts ever registered; its completion token is that fresh name. Every step that
 is not possible in a state leaves the state as it is.
 */
module Completion {
  import opened Work

  type Key = string
  type Stream = nat

  /** Where the Execute call of an attempt is. */
  datatype Phase =
    | Registered
    | Offered
    | Waiting
    | Leaving
    | Left
    | Stopped
    | Drained
    | Gone

  datatype Attempt = Attempt(key: Key, stream: Option<Stream>, terminal: bool, holder: Option<nat>, phase: Phase)

  /** Where a completion RPC is; an RPC that is Locked or later holds the attempt's lock until it is Over. */
  datatype RpcPhase = Loaded | Locked | Admitted | Delivered | Settled | Over(ok: bool)

  datatype Rpc = Rpc(attempt: nat, token: Option<nat>, response: string, phase: RpcPhase)

  datatype Handler =
    | Open
    | Holding(key: Key, token: nat)
    | Claiming(attempt: nat, token: nat)
    | Closing(todo: set<Key>)
    | Closed

  datatype Shutdown = Running | Flagged | Ranging(todo: set<Key>) | Returned

  /** A completion that the backend accepted: by which RPC, through which attempt, for which waiter. */
  datatype Delivery = Delivery(rpc: nat, attempt: nat, waiter: nat, token: Option<nat>, response: string)

  datatype State = State(
    strict: bool,
    attempts: seq<Attempt>,
    registry: map<Key, nat>,
    waiters: map<Key, nat>,
    inbox: map<nat, Option<string>>,
    rpcs: seq<Rpc>,
    streams: map<Stream, Handler>,
    shutdown: Shutdown,
    log: seq<Delivery>)

  function Init(strict: bool): State {
    State(strict, [], map[], map[], map[], [], map[], Running, [])
  }

  datatype ExecuteStep =
    | Register(key: Key)
    | RegisterWaiter(a: nat)
    | AbandonOffer(a: nat)
    | ReturnCancelled(a: nat)
    | ReturnDelivered(a: nat)
    | RemoveWaiter(a: nat)
    | Stop(a: nat)
    | PassLock(a: nat)
    | Release(a: nat)

  datatype StreamStep =
    | Connect
    | Take(a: nat)
    | LoadForClaim
    | Claim
    | BeginClose
    | VisitClose(key: Key)
    | EndClose

  datatype RpcStep = Lock | Check | Deliver | Settle | Unlock

  datatype OtherStep =
    | Load(key: Key, token: Option<nat>, response: string)
    | CancelTask(key: Key)
    | Flag
    | BeginRange
    | VisitRange(key: Key)
    | EndRange

  /** A step of an Execute call, of a stream's handler, of a completion RPC, or of anything else. */
  datatype Step =
    | Execute(e: ExecuteStep)
    | OnStream(stream: Stream, h: StreamStep)
    | OnRpc(r: nat, c: RpcStep)
    | Other(o: OtherStep)

  /******* Steps *******/

  /** Nothing but attempts and RPCs differs. */
  predicate SameTables(s: State, s': State) {
    && s'.strict == s.strict && s'.registry == s.registry && s'.waiters == s.waiters && s'.inbox == s.inbox
    && s'.log == s.log && s'.streams == s.streams && s'.shutdown == s.shutdown && |s'.attempts| == |s.attempts|
  }

  function Update(s: State, a: nat, x: Attempt): (s': State)
    requires a < |s.attempts|
    ensures SameTables(s, s') && s'.rpcs == s.rpcs && s'.attempts == s.attempts[a := x]
  {
    s.(attempts := s.attempts[a := x])
  }

  function SetPhase(s: State, a: nat, phase: Phase): (s': State)
    requires a < |s.attempts|
    ensures SameTables(s, s') && s'.rpcs == s.rpcs
  {
    Update(s, a, s.attempts[a].(phase := phase))
  }

  function SetRpc(s: State, r: nat, phase: RpcPhase): (s': State)
    requires r < |s.rpcs|
    ensures SameTables(s, s') && |s'.rpcs| == |s.rpcs| && s'.attempts == s.attempts
  {
    s.(rpcs := s.rpcs[r := s.rpcs[r].(phase := phase)])
  }

  predicate At(s: State, a: nat, phase: Phase) {
    a < |s.attempts| && s.attempts[a].phase == phase
  }

  /** The Execute call that owns an attempt (backend/executor.go:136-197 and 200-293). */
  function NextExecute(s: State, step: ExecuteStep): State {
    match step
    case Register(key) =>
      if s.shutdown != Running || key in s.registry then s
      else s.(attempts := s.attempts + [Attempt(key, None, false, None, Registered)],
              registry := s.registry[key := |s.attempts|])
    case RegisterWaiter(a) =>
      if !At(s, a, Registered) then s
      else if s.attempts[a].key in s.waiters then SetPhase(s, a, Left)
      else SetPhase(s, a, Offered).(waiters := s.waiters[s.attempts[a].key := a])
    case AbandonOffer(a) => if At(s, a, Offered) then SetPhase(s, a, Leaving) else s
    case ReturnCancelled(a) => if At(s, a, Waiting) then SetPhase(s, a, Leaving) else s
    case ReturnDelivered(a) => if At(s, a, Waiting) && a in s.inbox then SetPhase(s, a, Leaving) else s
    case RemoveWaiter(a) =>
      if !At(s, a, Leaving) then s
      else
        var key := s.attempts[a].key;
        SetPhase(s, a, Left).(
          waiters := if key in s.waiters && s.waiters[key] == a then s.waiters - {key} else s.waiters)
    case Stop(a) => if At(s, a, Left) then Update(s, a, s.attempts[a].(terminal := true, phase := Stopped)) else s
    case PassLock(a) => if At(s, a, Stopped) && s.attempts[a].holder.None? then SetPhase(s, a, Drained) else s
    case Release(a) =>
      if !At(s, a, Drained) then s
      else
        var key := s.attempts[a].key;
        SetPhase(s, a, Gone).(
          registry := if key in s.registry && s.registry[key] == a then s.registry - {key} else s.registry)
  }

  /** The response with which a step makes its Execute call return. */
  function ResponseOf(s: State, step: ExecuteStep): Option<string> {
    if step.ReturnDelivered? && At(s, step.a, Waiting) && step.a in s.inbox then s.inbox[step.a] else None
  }

  /** Stopping whatever attempt is registered under a key, if it is one of the given stream's (or any). */
  function StopKey(s: State, key: Key, stream: Option<Stream>): (s': State)
    ensures SameTables(s, s') && s'.rpcs == s.rpcs
  {
    if key in s.registry && s.registry[key] < |s.attempts| &&
       (stream.None? || s.attempts[s.registry[key]].stream == stream)
    then Update(s, s.registry[key], s.attempts[s.registry[key]].(terminal := true))
    else s
  }

  /** A stream handler (backend/executor.go:332-470, backend/executor_transport.go:45-59). */
  function NextStream(s: State, stream: Stream, step: StreamStep): State {
    if stream !in s.streams then (if step.Connect? then s.(streams := s.streams[stream := Open]) else s)
    else
      var h := s.streams[stream];
      match step
      case Connect => s
      case Take(a) =>
        if h.Open? && At(s, a, Offered)
        then SetPhase(s, a, Waiting).(streams := s.streams[stream := Holding(s.attempts[a].key, a)])
        else s
      case LoadForClaim =>
        if h.Holding?
        then s.(streams := s.streams[stream :=
               if h.key in s.registry then Claiming(s.registry[h.key], h.token) else Open])
        else s
      case Claim =>
        if !h.Claiming? || h.attempt >= |s.attempts| || s.attempts[h.attempt].holder.Some? then s
        else
          var x, s' := s.attempts[h.attempt], s.(streams := s.streams[stream := Open]);
          if x.terminal || h.attempt != h.token then s' else Update(s', h.attempt, x.(stream := Some(stream)))
      case BeginClose => if h.Open? then s.(streams := s.streams[stream := Closing(s.registry.Keys)]) else s
      case VisitClose(key) =>
        if h.Closing? && key in h.todo
        then StopKey(s, key, Some(stream)).(streams := s.streams[stream := Closing(h.todo - {key})])
        else s
      case EndClose => if h == Closing({}) then s.(streams := s.streams[stream := Closed]) else s
  }

  predicate TokenFits(s: State, rpc: Rpc) {
    if rpc.token.None? then !s.strict else rpc.token.value == rpc.attempt
  }

  /** A completion RPC (backend/executor_transport.go:61-75, backend/executor.go:520-543). */
  function NextRpc(s: State, r: nat, step: RpcStep): State {
    if r >= |s.rpcs| || s.rpcs[r].attempt >= |s.attempts| then s
    else
      var rpc := s.rpcs[r];
      var x := s.attempts[rpc.attempt];
      match step
      case Lock =>
        if rpc.phase.Loaded? && x.holder.None?
        then Update(SetRpc(s, r, Locked), rpc.attempt, x.(holder := Some(r)))
        else s
      case Check =>
        if !rpc.phase.Locked? then s
        else if x.terminal || x.stream.None? || !TokenFits(s, rpc) then Leave(s, r, false)
        else SetRpc(s, r, Admitted)
      case Deliver =>
        if !rpc.phase.Admitted? then s
        else if x.key !in s.waiters then Leave(s, r, false)
        else SetRpc(s, r, Delivered).(
               waiters := s.waiters - {x.key}, inbox := s.inbox[s.waiters[x.key] := Some(rpc.response)],
               log := s.log + [Delivery(r, rpc.attempt, s.waiters[x.key], rpc.token, rpc.response)])
      case Settle =>
        if rpc.phase.Delivered? then Update(SetRpc(s, r, Settled), rpc.attempt, x.(terminal := true)) else s
      case Unlock => if rpc.phase.Settled? then Leave(s, r, true) else s
  }

  /** Releases the lock and returns. */
  function Leave(s: State, r: nat, ok: bool): (s': State)
    requires r < |s.rpcs| && s.rpcs[r].attempt < |s.attempts|
    ensures SameTables(s, s') &&
      s'.attempts == s.attempts[s.rpcs[r].attempt := s.attempts[s.rpcs[r].attempt].(holder := None)]
  {
    Update(SetRpc(s, r, Over(ok)), s.rpcs[r].attempt, s.attempts[s.rpcs[r].attempt].(holder := None))
  }

  /**
   RPCs arriving, cancellation through the backend, and Shutdown (backend/local/task.go:47-52 and 96-101,
   backend/executor.go:298-324).
   */
  function NextOther(s: State, step: OtherStep): State {
    match step
    case Load(key, token, response) =>
      if key in s.registry then s.(rpcs := s.rpcs + [Rpc(s.registry[key], token, response, Loaded)]) else s
    case CancelTask(key) =>
      if key in s.waiters then s.(waiters := s.waiters - {key}, inbox := s.inbox[s.waiters[key] := None]) else s
    case Flag => if s.shutdown == Running then s.(shutdown := Flagged) else s
    case BeginRange => if s.shutdown == Flagged then s.(shutdown := Ranging(s.registry.Keys)) else s
    case VisitRange(key) =>
      if s.shutdown.Ranging? && key in s.shutdown.todo
      then StopKey(s, key, None).(shutdown := Ranging(s.shutdown.todo - {key}))
      else s
    case EndRange => if s.shutdown == Ranging({}) then s.(shutdown := Returned) else s
  }

  function Next(s: State, step: Step): State {
    match step
    case Execute(e) => NextExecute(s, e)
    case OnStream(stream, h) => NextStream(s, stream, h)
    case OnRpc(r, c) => NextRpc(s, r, c)
    case Other(o) => NextOther(s, o)
  }

  function Run(s: State, steps: seq<Step>): State
    decreases steps
  {
    if steps == [] then s else Run(Next(s, steps[0]), steps[1..])
  }

  /******* Invariant *******/

  predicate Holds(phase: RpcPhase) {
    phase.Locked? || phase.Admitted? || phase.Delivered? || phase.Settled?
  }

  /** The attempt may still be completed: its lock has not been passed by the finishing Execute call. */
  predicate Live(x: Attempt) {
    !x.phase.Drained? && !x.phase.Gone?
  }

  /** An attempt is registered under its key until it is gone, and it is terminal before it drains. */
  ghost predicate AttemptInv(s: State, a: nat)
    requires a < |s.attempts|
  {
    var x := s.attempts[a];
    && (!x.phase.Gone? <==> x.key in s.registry && s.registry[x.key] == a)
    && (x.phase.Stopped? || x.phase.Drained? || x.phase.Gone? ==> x.terminal)
    && (x.holder.Some? ==>
          x.holder.value < |s.rpcs| && s.rpcs[x.holder.value].attempt == a && Holds(s.rpcs[x.holder.value].phase))
    && (a in s.inbox ==> !x.phase.Registered?)
  }

  ghost predicate RpcInv(s: State, r: nat)
    requires r < |s.rpcs|
  {
    var rpc := s.rpcs[r];
    && rpc.attempt < |s.attempts|
    && (Holds(rpc.phase) ==> s.attempts[rpc.attempt].holder == Some(r))
    && (rpc.phase.Admitted? || rpc.phase.Delivered? || rpc.phase.Settled? ==>
        Live(s.attempts[rpc.attempt]) && TokenFits(s, rpc))
  }

  ghost predicate RegistryInv(s: State, key: Key)
    requires key in s.registry
  {
    s.registry[key] < |s.attempts| && s.attempts[s.registry[key]].key == key
  }

  ghost predicate WaiterInv(s: State, key: Key)
    requires key in s.waiters
  {
    var w := s.waiters[key];
    && w < |s.attempts| && s.attempts[w].key == key && w !in s.inbox
    && (s.attempts[w].phase.Offered? || s.attempts[w].phase.Waiting? || s.attempts[w].phase.Leaving?)
  }

  /** A delivery reached the waiter of the attempt it went through, under that attempt's token. */
  ghost predicate Isolated(s: State, d: Delivery) {
    && d.waiter == d.attempt
    && (if d.token.None? then !s.strict else d.token.value == d.attempt)
    && d.attempt in s.inbox && s.inbox[d.attempt] == Some(d.response)
  }

  ghost predicate CoreInv(s: State) {
    && (forall a :: 0 <= a < |s.attempts| ==> AttemptInv(s, a))
    && (forall r :: 0 <= r < |s.rpcs| ==> RpcInv(s, r))
    && (forall key :: key in s.registry ==> RegistryInv(s, key))
    && (forall key :: key in s.waiters ==> WaiterInv(s, key))
    && (forall a :: a in s.inbox ==> a < |s.attempts|)
  }

  ghost predicate LogInv(s: State) {
    && (forall i :: 0 <= i < |s.log| ==> Isolated(s, s.log[i]))
    && (forall i, j :: 0 <= i < j < |s.log| ==> s.log[i].attempt != s.log[j].attempt)
    && (forall a :: a in s.inbox && s.inbox[a].Some? ==> exists i :: 0 <= i < |s.log| && s.log[i].attempt == a)
  }

  lemma {:induction false} WaiterIsRegistered(s: State, key: Key)
    requires CoreInv(s) && key in s.waiters
    ensures key in s.registry && s.registry[key] == s.waiters[key] < |s.attempts| &&
      MayWait(s.attempts[s.waiters[key]].phase)
    ensures s.waiters[key] !in s.inbox
  {
    assert WaiterInv(s, key);
    assert AttemptInv(s, s.waiters[key]);
  }

  /******* Every step keeps the invariant *******/

  predicate MayWait(phase: Phase) {
    phase.Offered? || phase.Waiting? || phase.Leaving?
  }

  /** One attempt moves on; it keeps its key and its lock. */
  lemma {:induction false} UpdateKeepsCore(s: State, a: nat, x: Attempt)
    requires CoreInv(s) && a < |s.attempts| && x.key == s.attempts[a].key && x.holder == s.attempts[a].holder
    requires x.phase.Gone? <==> s.attempts[a].phase.Gone?
    requires x.phase.Stopped? || x.phase.Drained? || x.phase.Gone? ==> x.terminal
    requires x.phase.Registered? ==> s.attempts[a].phase.Registered?
    requires Live(s.attempts[a]) && !Live(x) ==> x.holder.None?
    requires x.key in s.waiters && s.waiters[x.key] == a ==> MayWait(x.phase)
    ensures CoreInv(Update(s, a, x))
  {
    var s' := Update(s, a, x);
    forall b | 0 <= b < |s'.attempts| ensures AttemptInv(s', b) {
      assert AttemptInv(s, b);
    }
    forall r | 0 <= r < |s'.rpcs| ensures RpcInv(s', r) {
      assert RpcInv(s, r);
    }
    forall key | key in s'.registry ensures RegistryInv(s', key) {
      assert RegistryInv(s, key);
    }
    forall key | key in s'.waiters ensures WaiterInv(s', key) {
      assert WaiterInv(s, key);
    }
  }

  lemma {:induction false} RegisterKeepsCore(s: State, key: Key)
    requires CoreInv(s) && key !in s.registry
    ensures CoreInv(s.(attempts := s.attempts + [Attempt(key, None, false, None, Registered)],
                       registry := s.registry[key := |s.attempts|]))
  {
    var s' := s.(attempts := s.attempts + [Attempt(key, None, false, None, Registered)],
                 registry := s.registry[key := |s.attempts|]);
    forall b | 0 <= b < |s'.attempts| ensures AttemptInv(s', b) {
      if b < |s.attempts| { assert AttemptInv(s, b); }
    }
    forall r | 0 <= r < |s'.rpcs| ensures RpcInv(s', r) {
      assert RpcInv(s, r);
    }
    forall k | k in s'.registry ensures RegistryInv(s', k) {
      if k != key { assert RegistryInv(s, k); }
    }
    forall k | k in s'.waiters ensures WaiterInv(s', k) {
      assert WaiterInv(s, k);
    }
  }

  /** An attempt that registers its waiter never finds another one in its place. */
  lemma {:induction false} OwnWaiter(s: State, a: nat)
    requires CoreInv(s) && At(s, a, Registered)
    ensures s.attempts[a].key !in s.waiters
  {
    var key := s.attempts[a].key;
    assert AttemptInv(s, a);
    if key in s.waiters {
      WaiterIsRegistered(s, key);
    }
  }

  lemma {:induction false} AddWaiterKeepsCore(s: State, a: nat)
    requires CoreInv(s) && At(s, a, Offered) && a !in s.inbox
    ensures CoreInv(s.(waiters := s.waiters[s.attempts[a].key := a]))
  {
    var s' := s.(waiters := s.waiters[s.attempts[a].key := a]);
    forall b | 0 <= b < |s'.attempts| ensures AttemptInv(s', b) {
      assert AttemptInv(s, b);
    }
    forall r | 0 <= r < |s'.rpcs| ensures RpcInv(s', r) {
      assert RpcInv(s, r);
    }
    forall k | k in s'.registry ensures RegistryInv(s', k) {
      assert RegistryInv(s, k);
    }
    forall k | k in s'.waiters ensures WaiterInv(s', k) {
      if k != s.attempts[a].key { assert WaiterInv(s, k); }
    }
  }

  /** A waiter is taken out of the table, with or without an answer for it. */
  lemma {:induction false} DropWaiterKeepsCore(s: State, key: Key, inbox: map<nat, Option<string>>)
    requires CoreInv(s) && inbox.Keys <= s.inbox.Keys + (if key in s.waiters then {s.waiters[key]} else {})
    ensures CoreInv(s.(waiters := s.waiters - {key}, inbox := inbox))
  {
    var s' := s.(waiters := s.waiters - {key}, inbox := inbox);
    if key in s.waiters { assert WaiterInv(s, key); }
    forall b | 0 <= b < |s'.attempts| ensures AttemptInv(s', b) {
      assert AttemptInv(s, b);
    }
    forall r | 0 <= r < |s'.rpcs| ensures RpcInv(s', r) {
      assert RpcInv(s, r);
    }
    forall k | k in s'.registry ensures RegistryInv(s', k) {
      assert RegistryInv(s, k);
    }
    forall k | k in s'.waiters ensures WaiterInv(s', k) {
      assert WaiterInv(s, k);
    }
  }

  lemma {:induction false} ReleaseKeepsCore(s: State, a: nat)
    requires CoreInv(s) && At(s, a, Drained)
    ensures CoreInv(NextExecute(s, Release(a)))
  {
    var key := s.attempts[a].key;
    assert AttemptInv(s, a);
    var x := s.attempts[a].(phase := Gone);
    var s' := s.(attempts := s.attempts[a := x], registry := s.registry - {key});
    assert NextExecute(s, Release(a)) == s';
    forall b | 0 <= b < |s'.attempts| ensures AttemptInv(s', b) {
      assert AttemptInv(s, b);
    }
    forall r | 0 <= r < |s'.rpcs| ensures RpcInv(s', r) {
      assert RpcInv(s, r);
    }
    forall k | k in s'.registry ensures RegistryInv(s', k) {
      assert RegistryInv(s, k);
    }
    forall k | k in s'.waiters ensures WaiterInv(s', k) {
      assert WaiterInv(s, k);
    }
  }

  lemma {:induction false} ExecuteKeepsCore(s: State, step: ExecuteStep)
    requires CoreInv(s)
    ensures CoreInv(NextExecute(s, step))
  {
    hide CoreInv;
    if NextExecute(s, step) == s { return; }
    match step
    case Register(key) => RegisterKeepsCore(s, key);
    case RegisterWaiter(a) =>
      OwnWaiter(s, a);
      UpdateKeepsCore(s, a, s.attempts[a].(phase := Offered));
      NotAnswered(s, a);
      AddWaiterKeepsCore(SetPhase(s, a, Offered), a);
    case AbandonOffer(a) => UpdateKeepsCore(s, a, s.attempts[a].(phase := Leaving));
    case ReturnCancelled(a) => UpdateKeepsCore(s, a, s.attempts[a].(phase := Leaving));
    case ReturnDelivered(a) => UpdateKeepsCore(s, a, s.attempts[a].(phase := Leaving));
    case RemoveWaiter(a) => RemoveWaiterKeepsCore(s, a);
    case Stop(a) =>
      NotWaiting(s, a);
      UpdateKeepsCore(s, a, s.attempts[a].(terminal := true, phase := Stopped));
    case PassLock(a) =>
      NotWaiting(s, a);
      UpdateKeepsCore(s, a, s.attempts[a].(phase := Drained));
    case Release(a) => ReleaseKeepsCore(s, a);
  }

  lemma {:induction false} NotAnswered(s: State, a: nat)
    requires CoreInv(s) && At(s, a, Registered)
    ensures a !in s.inbox
  {
    assert AttemptInv(s, a);
  }

  lemma {:induction false} NotWaiting(s: State, a: nat)
    requires CoreInv(s) && a < |s.attempts| && !MayWait(s.attempts[a].phase)
    ensures s.attempts[a].key in s.waiters ==> s.waiters[s.attempts[a].key] != a
    ensures s.attempts[a].phase.Stopped? ==> s.attempts[a].terminal
  {
    assert AttemptInv(s, a);
    var key := s.attempts[a].key;
    if key in s.waiters { assert WaiterInv(s, key); }
  }

  lemma {:induction false} RemoveWaiterKeepsCore(s: State, a: nat)
    requires CoreInv(s) && At(s, a, Leaving)
    ensures CoreInv(NextExecute(s, RemoveWaiter(a)))
  {
    var key := s.attempts[a].key;
    if key in s.waiters && s.waiters[key] == a {
      DropWaiterKeepsCore(s, key, s.inbox);
      UpdateKeepsCore(s.(waiters := s.waiters - {key}), a, s.attempts[a].(phase := Left));
    } else {
      UpdateKeepsCore(s, a, s.attempts[a].(phase := Left));
    }
  }

  /** Handlers and Shutdown change attempts only by claiming or stopping them. */
  lemma {:induction false} StopKeyKeepsCore(s: State, key: Key, stream: Option<Stream>)
    requires CoreInv(s)
    ensures CoreInv(StopKey(s, key, stream))
  {
    if StopKey(s, key, stream) != s {
      var a := s.registry[key];
      assert AttemptInv(s, a);
      if s.attempts[a].key in s.waiters { assert WaiterInv(s, s.attempts[a].key); }
      UpdateKeepsCore(s, a, s.attempts[a].(terminal := true));
    }
  }

  lemma {:induction false} OtherFieldsKeepCore(s: State, streams: map<Stream, Handler>, shutdown: Shutdown,
                                               log: seq<Delivery>)
    requires CoreInv(s)
    ensures CoreInv(s.(streams := streams, shutdown := shutdown, log := log))
  {
    var s' := s.(streams := streams, shutdown := shutdown, log := log);
    forall b | 0 <= b < |s'.attempts| ensures AttemptInv(s', b) {
      assert AttemptInv(s, b);
    }
    forall r | 0 <= r < |s'.rpcs| ensures RpcInv(s', r) {
      assert RpcInv(s, r);
    }
    forall k | k in s'.registry ensures RegistryInv(s', k) {
      assert RegistryInv(s, k);
    }
    forall k | k in s'.waiters ensures WaiterInv(s', k) {
      assert WaiterInv(s, k);
    }
  }

  lemma {:induction false} StreamKeepsCore(s: State, stream: Stream, step: StreamStep)
    requires CoreInv(s)
    ensures CoreInv(NextStream(s, stream, step))
  {
    hide CoreInv;
    var s' := NextStream(s, stream, step);
    if s' == s { return; }
    match step
    case Take(a) =>
      UpdateKeepsCore(s, a, s.attempts[a].(phase := Waiting));
      OtherFieldsKeepCore(SetPhase(s, a, Waiting), s'.streams, s.shutdown, s.log);
    case Claim =>
      OtherFieldsKeepCore(s, s'.streams, s.shutdown, s.log);
      ClaimKeepsCore(s.(streams := s'.streams), s.streams[stream].attempt, stream);
    case VisitClose(key) =>
      StopKeyKeepsCore(s, key, Some(stream));
      OtherFieldsKeepCore(StopKey(s, key, Some(stream)), s'.streams, s.shutdown, s.log);
    case _ => OtherFieldsKeepCore(s, s'.streams, s.shutdown, s.log);
  }

  lemma {:induction false} ClaimKeepsCore(s: State, a: nat, stream: Stream)
    requires CoreInv(s) && a < |s.attempts|
    ensures CoreInv(Update(s, a, s.attempts[a].(stream := Some(stream))))
  {
    assert AttemptInv(s, a);
    var key := s.attempts[a].key;
    if key in s.waiters { assert WaiterInv(s, key); }
    UpdateKeepsCore(s, a, s.attempts[a].(stream := Some(stream)));
  }

  lemma {:induction false} OtherKeepsCore(s: State, step: OtherStep)
    requires CoreInv(s)
    ensures CoreInv(NextOther(s, step))
  {
    hide CoreInv;
    var s' := NextOther(s, step);
    if s' == s { return; }
    match step
    case Load(key, token, response) => LoadKeepsCore(s, key, token, response);
    case CancelTask(key) => DropWaiterKeepsCore(s, key, s'.inbox);
    case VisitRange(key) =>
      StopKeyKeepsCore(s, key, None);
      OtherFieldsKeepCore(StopKey(s, key, None), s.streams, s'.shutdown, s.log);
    case _ => OtherFieldsKeepCore(s, s.streams, s'.shutdown, s.log);
  }

  /** An RPC takes or gives back the lock of its attempt. */
  lemma {:induction false} HolderKeepsCore(s: State, r: nat, phase: RpcPhase, holder: Option<nat>)
    requires CoreInv(s) && r < |s.rpcs| && s.rpcs[r].attempt < |s.attempts|
    requires var h := s.attempts[s.rpcs[r].attempt].holder;
             if Holds(s.rpcs[r].phase) then phase.Over? && holder.None?
             else h.None? && phase.Locked? && holder == Some(r)
    ensures var a := s.rpcs[r].attempt;
            CoreInv(Update(SetRpc(s, r, phase), a, s.attempts[a].(holder := holder)))
  {
    var a := s.rpcs[r].attempt;
    var s' := Update(SetRpc(s, r, phase), a, s.attempts[a].(holder := holder));
    assert RpcInv(s, r);
    forall b | 0 <= b < |s'.attempts| ensures AttemptInv(s', b) {
      assert AttemptInv(s, b);
    }
    forall q | 0 <= q < |s'.rpcs| ensures RpcInv(s', q) {
      assert RpcInv(s, q);
    }
    forall k | k in s'.registry ensures RegistryInv(s', k) {
      assert RegistryInv(s, k);
    }
    forall k | k in s'.waiters ensures WaiterInv(s', k) {
      assert WaiterInv(s, k);
    }
  }

  /** An RPC that holds the lock moves on under it. */
  lemma {:induction false} HeldKeepsCore(s: State, r: nat, phase: RpcPhase)
    requires CoreInv(s) && r < |s.rpcs| && Holds(s.rpcs[r].phase) && Holds(phase) && s.rpcs[r].attempt < |s.attempts|
    requires Live(s.attempts[s.rpcs[r].attempt]) && TokenFits(s, s.rpcs[r])
    ensures CoreInv(SetRpc(s, r, phase))
  {
    var s' := SetRpc(s, r, phase);
    assert RpcInv(s, r);
    forall b | 0 <= b < |s'.attempts| ensures AttemptInv(s', b) {
      assert AttemptInv(s, b);
    }
    forall q | 0 <= q < |s'.rpcs| ensures RpcInv(s', q) {
      assert RpcInv(s, q);
    }
    forall k | k in s'.registry ensures RegistryInv(s', k) {
      assert RegistryInv(s, k);
    }
    forall k | k in s'.waiters ensures WaiterInv(s', k) {
      assert WaiterInv(s, k);
    }
  }

  lemma {:induction false} LoadKeepsCore(s: State, key: Key, token: Option<nat>, response: string)
    requires CoreInv(s) && key in s.registry
    ensures CoreInv(s.(rpcs := s.rpcs + [Rpc(s.registry[key], token, response, Loaded)]))
  {
    var s' := s.(rpcs := s.rpcs + [Rpc(s.registry[key], token, response, Loaded)]);
    assert RegistryInv(s, key);
    forall b | 0 <= b < |s'.attempts| ensures AttemptInv(s', b) {
      assert AttemptInv(s, b);
    }
    forall q | 0 <= q < |s'.rpcs| ensures RpcInv(s', q) {
      if q < |s.rpcs| { assert RpcInv(s, q); }
    }
    forall k | k in s'.registry ensures RegistryInv(s', k) {
      assert RegistryInv(s, k);
    }
    forall k | k in s'.waiters ensures WaiterInv(s', k) {
      assert WaiterInv(s, k);
    }
  }

  /** An RPC that passed its checks works on an attempt that is still registered and not yet drained. */
  lemma {:induction false} AdmittedIsLive(s: State, r: nat)
    requires CoreInv(s) && r < |s.rpcs|
    requires s.rpcs[r].phase.Admitted? || s.rpcs[r].phase.Delivered? || s.rpcs[r].phase.Settled?
    ensures var a := s.rpcs[r].attempt;
            && a < |s.attempts| && Live(s.attempts[a]) && TokenFits(s, s.rpcs[r])
            && s.attempts[a].key in s.registry && s.registry[s.attempts[a].key] == a
  {
    assert RpcInv(s, r);
    assert AttemptInv(s, s.rpcs[r].attempt);
  }

  lemma {:induction false} NotTerminalIsLive(s: State, a: nat)
    requires CoreInv(s) && a < |s.attempts| && !s.attempts[a].terminal
    ensures Live(s.attempts[a])
  {
    assert AttemptInv(s, a);
  }

  lemma {:induction false} CheckKeepsCore(s: State, r: nat)
    requires CoreInv(s) && r < |s.rpcs| && s.rpcs[r].phase.Locked?
    ensures CoreInv(NextRpc(s, r, Check))
  {
    hide CoreInv, TokenFits;
    RpcInRange(s, r);
    var x := s.attempts[s.rpcs[r].attempt];
    if x.terminal || x.stream.None? || !TokenFits(s, s.rpcs[r]) {
      HolderKeepsCore(s, r, Over(false), None);
    } else {
      NotTerminalIsLive(s, s.rpcs[r].attempt);
      HeldKeepsCore(s, r, Admitted);
    }
  }

  lemma {:induction false} SettleKeepsCore(s: State, r: nat)
    requires CoreInv(s) && r < |s.rpcs| && s.rpcs[r].phase.Delivered?
    ensures CoreInv(NextRpc(s, r, Settle))
  {
    hide CoreInv, TokenFits;
    AdmittedIsLive(s, r);
    HeldKeepsCore(s, r, Settled);
    StopAttemptKeepsCore(SetRpc(s, r, Settled), s.rpcs[r].attempt);
  }

  lemma {:induction false} RpcInRange(s: State, r: nat)
    requires CoreInv(s) && r < |s.rpcs|
    ensures s.rpcs[r].attempt < |s.attempts|
  {
    assert RpcInv(s, r);
  }

  lemma {:induction false} RpcKeepsCore(s: State, r: nat, step: RpcStep)
    requires CoreInv(s)
    ensures CoreInv(NextRpc(s, r, step))
  {
    hide CoreInv, TokenFits, Update, SetRpc;
    if NextRpc(s, r, step) == s { return; }
    match step
    case Lock => HolderKeepsCore(s, r, Locked, Some(r));
    case Check => CheckKeepsCore(s, r);
    case Deliver => DeliverKeepsCore(s, r);
    case Settle => SettleKeepsCore(s, r);
    case Unlock => HolderKeepsCore(s, r, Over(true), None);
  }

  lemma {:induction false} StopAttemptKeepsCore(s: State, a: nat)
    requires CoreInv(s) && a < |s.attempts|
    ensures CoreInv(Update(s, a, s.attempts[a].(terminal := true)))
  {
    assert AttemptInv(s, a);
    var key := s.attempts[a].key;
    if key in s.waiters { assert WaiterInv(s, key); }
    UpdateKeepsCore(s, a, s.attempts[a].(terminal := true));
  }

  lemma {:induction false} DeliverKeepsCore(s: State, r: nat)
    requires CoreInv(s) && r < |s.rpcs| && s.rpcs[r].phase.Admitted?
    ensures CoreInv(NextRpc(s, r, Deliver))
  {
    hide CoreInv, TokenFits;
    RpcInRange(s, r);
    var key := s.attempts[s.rpcs[r].attempt].key;
    if key !in s.waiters {
      HolderKeepsCore(s, r, Over(false), None);
    } else {
      AdmittedIsLive(s, r);
      HeldKeepsCore(s, r, Delivered);
      var s1 := SetRpc(s, r, Delivered);
      var inbox := s.inbox[s.waiters[key] := Some(s.rpcs[r].response)];
      DropWaiterKeepsCore(s1, key, inbox);
      var s2 := s1.(waiters := s.waiters - {key}, inbox := inbox);
      OtherFieldsKeepCore(s2, s.streams, s.shutdown, NextRpc(s, r, Deliver).log);
    }
  }

  lemma {:induction false} NextKeepsCore(s: State, step: Step)
    requires CoreInv(s)
    ensures CoreInv(Next(s, step))
  {
    hide CoreInv;
    match step
    case Execute(e) => ExecuteKeepsCore(s, e);
    case OnStream(stream, h) => StreamKeepsCore(s, stream, h);
    case OnRpc(r, c) => RpcKeepsCore(s, r, c);
    case Other(o) => OtherKeepsCore(s, o);
  }
}
