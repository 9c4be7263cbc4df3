/** What holds in every interleaving of the completion protocol: isolation, ownership and draining. */
module CompletionTheorems {
  import opened Work
  import opened Completion

  /******* Isolation *******/

  lemma {:induction false} DeliverKeepsLog(s: State, r: nat)
    requires CoreInv(s) && LogInv(s)
    ensures LogInv(NextRpc(s, r, Deliver))
  {
    hide CoreInv, LogInv, Leave, SetRpc, TokenFits;
    if r < |s.rpcs| && s.rpcs[r].phase.Admitted? {
      AdmittedIsLive(s, r);
      var rpc := s.rpcs[r];
      var key := s.attempts[rpc.attempt].key;
      if key in s.waiters {
        WaiterIsRegistered(s, key);
        DeliveredKeepsLog(s, rpc, r);
        OthersKeepLog(s.(inbox := s.inbox[rpc.attempt := Some(rpc.response)],
                         log := s.log + [Delivery(r, rpc.attempt, rpc.attempt, rpc.token, rpc.response)]),
                    NextRpc(s, r, Deliver));
      } else {
        OthersKeepLog(s, NextRpc(s, r, Deliver));
      }
    } else {
      OthersKeepLog(s, NextRpc(s, r, Deliver));
    }
  }

  lemma {:induction false} DeliveredKeepsLog(s: State, rpc: Rpc, r: nat)
    requires LogInv(s) && rpc.attempt !in s.inbox && TokenFits(s, rpc)
    ensures LogInv(s.(inbox := s.inbox[rpc.attempt := Some(rpc.response)],
                      log := s.log + [Delivery(r, rpc.attempt, rpc.attempt, rpc.token, rpc.response)]))
  {
    var s' := s.(inbox := s.inbox[rpc.attempt := Some(rpc.response)],
                 log := s.log + [Delivery(r, rpc.attempt, rpc.attempt, rpc.token, rpc.response)]);
    forall i | 0 <= i < |s'.log| ensures Isolated(s', s'.log[i]) {
      if i < |s.log| { assert Isolated(s, s.log[i]); }
    }
    forall i, j | 0 <= i < j < |s'.log| ensures s'.log[i].attempt != s'.log[j].attempt {
      assert Isolated(s, s.log[i]);
    }
    forall a | a in s'.inbox && s'.inbox[a].Some? ensures exists i :: 0 <= i < |s'.log| && s'.log[i].attempt == a {
      if a == rpc.attempt {
        assert s'.log[|s.log|].attempt == a;
      } else {
        var i :| 0 <= i < |s.log| && s.log[i].attempt == a;
        assert s'.log[i].attempt == a;
      }
    }
  }

  lemma {:induction false} CancelKeepsLog(s: State, w: nat)
    requires LogInv(s) && w !in s.inbox
    ensures LogInv(s.(inbox := s.inbox[w := None]))
  {
    var s' := s.(inbox := s.inbox[w := None]);
    forall i | 0 <= i < |s'.log| ensures Isolated(s', s'.log[i]) {
      assert Isolated(s, s.log[i]);
    }
  }

  /** Only deliveries and cancellations touch what the waiters are given. */
  lemma {:induction false} OthersKeepLog(s: State, s': State)
    requires LogInv(s) && s'.inbox == s.inbox && s'.log == s.log && s'.strict == s.strict
    ensures LogInv(s')
  {
    forall i | 0 <= i < |s'.log| ensures Isolated(s', s'.log[i]) {
      assert Isolated(s, s.log[i]);
    }
  }

  lemma {:induction false} RpcFrame(s: State, r: nat, step: RpcStep)
    requires !step.Deliver?
    ensures SameTables(s, NextRpc(s, r, step))
  {
    hide Update, SetRpc, Leave, TokenFits;
  }

  lemma {:induction false} StreamFrame(s: State, stream: Stream, step: StreamStep)
    ensures var s' := NextStream(s, stream, step);
            && s'.log == s.log && s'.inbox == s.inbox && s'.strict == s.strict
            && s'.waiters == s.waiters && s'.registry == s.registry
  {
    hide Update, SetPhase;
  }

  lemma {:induction false} ExecuteFrame(s: State, step: ExecuteStep)
    ensures var s' := NextExecute(s, step); s'.log == s.log && s'.inbox == s.inbox && s'.strict == s.strict
  {
    hide Update, SetPhase;
  }

  lemma {:induction false} NextKeepsLog(s: State, step: Step)
    requires CoreInv(s) && LogInv(s)
    ensures LogInv(Next(s, step)) && Next(s, step).strict == s.strict
  {
    hide CoreInv, LogInv, NextExecute, NextStream, NextRpc;
    match step
    case Execute(e) => ExecuteFrame(s, e); OthersKeepLog(s, NextExecute(s, e));
    case OnStream(stream, h) => StreamFrame(s, stream, h); OthersKeepLog(s, NextStream(s, stream, h));
    case OnRpc(r, c) =>
      if c.Deliver? {
        DeliverKeepsLog(s, r);
        DeliverKeepsStrict(s, r);
      } else {
        RpcFrame(s, r, c);
        OthersKeepLog(s, NextRpc(s, r, c));
      }
    case Other(o) =>
      if o.CancelTask? { CancelTaskKeepsLog(s, o.key); } else { OthersKeepLog(s, NextOther(s, o)); }
  }

  lemma {:induction false} DeliverKeepsStrict(s: State, r: nat)
    ensures NextRpc(s, r, Deliver).strict == s.strict && NextRpc(s, r, Deliver).registry == s.registry
  {
    hide SetRpc, Leave;
  }

  lemma {:induction false} CancelTaskKeepsLog(s: State, key: Key)
    requires CoreInv(s) && LogInv(s)
    ensures LogInv(NextOther(s, CancelTask(key)))
  {
    hide LogInv;
    if key in s.waiters {
      assert WaiterInv(s, key);
      CancelKeepsLog(s, s.waiters[key]);
      OthersKeepLog(s.(inbox := s.inbox[s.waiters[key] := None]), NextOther(s, CancelTask(key)));
    }
  }

  lemma {:induction false} RunKeepsInv(s: State, steps: seq<Step>)
    requires CoreInv(s) && LogInv(s)
    ensures CoreInv(Run(s, steps)) && LogInv(Run(s, steps)) && Run(s, steps).strict == s.strict
    decreases steps
  {
    hide CoreInv, LogInv;
    if steps != [] {
      NextKeepsCore(s, steps[0]);
      NextKeepsLog(s, steps[0]);
      RunKeepsInv(Next(s, steps[0]), steps[1..]);
    }
  }

  /**
   Completion isolation: in every interleaving, every delivery the backend accepted reached the
   waiter of the very attempt the RPC worked on; the RPC presented that attempt's token, or none
   where tokens are not required; and no attempt received two deliveries.
   */
  lemma {:induction false} CompletionIsolated(strict: bool, steps: seq<Step>)
    ensures var log := Run(Init(strict), steps).log;
            && (forall i :: 0 <= i < |log| ==>
                  && log[i].waiter == log[i].attempt
                  && (if log[i].token.None? then !strict else log[i].token.value == log[i].attempt))
            && (forall i, j :: 0 <= i < j < |log| ==> log[i].attempt != log[j].attempt)
  {
    RunKeepsInv(Init(strict), steps);
    var s := Run(Init(strict), steps);
    forall i | 0 <= i < |s.log|
      ensures s.log[i].waiter == s.log[i].attempt &&
              (if s.log[i].token.None? then !strict else s.log[i].token.value == s.log[i].attempt)
    {
      assert Isolated(s, s.log[i]);
    }
  }

  /**
   The response with which an Execute call returns, at whatever point of whatever interleaving, was accepted
   from an RPC that worked on that call's own attempt and, where tokens are required, presented its token.
   */
  lemma {:induction false} ReturnsOwnResponse(strict: bool, steps: seq<Step>, e: ExecuteStep)
    requires ResponseOf(Run(Init(strict), steps), e).Some?
    ensures var s := Run(Init(strict), steps);
            && e.ReturnDelivered?
            && exists i :: 0 <= i < |s.log| && s.log[i].attempt == e.a && Some(s.log[i].response) == ResponseOf(s, e) &&
                           (if s.log[i].token.None? then !strict else s.log[i].token.value == e.a)
  {
    RunKeepsInv(Init(strict), steps);
    var s := Run(Init(strict), steps);
    var i :| 0 <= i < |s.log| && s.log[i].attempt == e.a;
    assert Isolated(s, s.log[i]);
  }

  /******* What an RPC reports *******/

  predicate Logged(s: State, r: nat) {
    exists i :: 0 <= i < |s.log| && s.log[i].rpc == r
  }

  predicate Succeeding(phase: RpcPhase) {
    phase.Delivered? || phase.Settled? || phase == Over(true)
  }

  /** An RPC is on its way to success exactly if it delivered, and it sets the attempt terminal before it succeeds. */
  ghost predicate ReportInv(s: State) {
    && (forall r :: 0 <= r < |s.rpcs| ==> (Succeeding(s.rpcs[r].phase) <==> Logged(s, r)))
    && (forall r :: 0 <= r < |s.rpcs| && (s.rpcs[r].phase.Settled? || s.rpcs[r].phase == Over(true)) ==>
          s.rpcs[r].attempt < |s.attempts| && s.attempts[s.rpcs[r].attempt].terminal)
    && (forall i :: 0 <= i < |s.log| ==> s.log[i].rpc < |s.rpcs|)
  }

  /** Steps that are not an RPC's leave the RPCs alone, and attempts never become pending again. */
  lemma {:induction false} CarriedKeepsReport(s: State, s': State)
    requires ReportInv(s) && s'.rpcs == s.rpcs && s'.log == s.log && |s.attempts| <= |s'.attempts|
    requires forall a :: 0 <= a < |s.attempts| && s.attempts[a].terminal ==> s'.attempts[a].terminal
    ensures ReportInv(s')
  {
    assert forall r :: Logged(s', r) == Logged(s, r);
  }

  lemma {:induction false} OtherKeepsReport(s: State, o: OtherStep)
    requires ReportInv(s)
    ensures ReportInv(NextOther(s, o))
  {
    var s' := NextOther(s, o);
    assert s'.log == s.log;
    assert forall r :: Logged(s', r) == Logged(s, r);
    if |s'.rpcs| > |s.rpcs| {
      assert forall i :: 0 <= i < |s.log| ==> s.log[i].rpc != |s.rpcs|;
    }
  }

  /** One RPC moves to a phase that agrees with whether it has delivered. */
  lemma {:induction false} MovedKeepsReport(s: State, s': State, r: nat)
    requires ReportInv(s) && r < |s.rpcs| == |s'.rpcs| && |s'.attempts| == |s.attempts|
    requires s'.rpcs == s.rpcs[r := s'.rpcs[r]] && s'.rpcs[r].attempt == s.rpcs[r].attempt < |s.attempts|
    requires forall a :: 0 <= a < |s.attempts| && s.attempts[a].terminal ==> s'.attempts[a].terminal
    requires s'.log == s.log || (|s'.log| == |s.log| + 1 && s'.log[..|s.log|] == s.log && s'.log[|s.log|].rpc == r)
    requires Succeeding(s'.rpcs[r].phase) <==> Succeeding(s.rpcs[r].phase) || s'.log != s.log
    requires s'.rpcs[r].phase.Settled? || s'.rpcs[r].phase == Over(true) ==> s'.attempts[s.rpcs[r].attempt].terminal
    ensures ReportInv(s')
  {
    forall q | 0 <= q < |s.rpcs| ensures Logged(s', q) <==> Logged(s, q) || (q == r && s'.log != s.log) {
      if Logged(s, q) {
        var i :| 0 <= i < |s.log| && s.log[i].rpc == q;
        assert s'.log[i] == s'.log[..|s.log|][i];
      }
      if Logged(s', q) {
        var i :| 0 <= i < |s'.log| && s'.log[i].rpc == q;
        if i < |s.log| { assert s'.log[..|s.log|][i] == s.log[i]; }
      }
      if q == r && s'.log != s.log { assert s'.log[|s.log|].rpc == q; }
    }
    forall i | 0 <= i < |s'.log| ensures s'.log[i].rpc < |s'.rpcs| {
      if i < |s.log| { assert s'.log[..|s.log|][i] == s.log[i]; }
    }
  }

  lemma {:induction false} RpcKeepsReport(s: State, r: nat, step: RpcStep)
    requires CoreInv(s) && ReportInv(s)
    ensures ReportInv(NextRpc(s, r, step))
  {
    hide CoreInv, ReportInv, TokenFits, SameTables;
    var s' := NextRpc(s, r, step);
    if s' != s {
      RpcProceeds(s, r, step);
      MovedKeepsReport(s, s', r);
    }
  }

  lemma {:induction false} RpcProceeds(s: State, r: nat, step: RpcStep)
    requires NextRpc(s, r, step) != s && ReportInv(s)
    ensures var s' := NextRpc(s, r, step);
            && r < |s.rpcs| == |s'.rpcs| && |s'.attempts| == |s.attempts|
            && s'.rpcs == s.rpcs[r := s'.rpcs[r]] && s'.rpcs[r].attempt == s.rpcs[r].attempt < |s.attempts|
            && (forall a :: 0 <= a < |s.attempts| && s.attempts[a].terminal ==> s'.attempts[a].terminal)
            && (s'.log == s.log || (|s'.log| == |s.log| + 1 && s'.log[..|s.log|] == s.log && s'.log[|s.log|].rpc == r))
            && (Succeeding(s'.rpcs[r].phase) <==> Succeeding(s.rpcs[r].phase) || s'.log != s.log)
            && (s'.rpcs[r].phase.Settled? || s'.rpcs[r].phase == Over(true) ==> s'.attempts[s.rpcs[r].attempt].terminal)
  {
    hide TokenFits;
  }

  lemma {:induction false} ExecuteKeepsTerminal(s: State, e: ExecuteStep)
    ensures var s' := NextExecute(s, e);
            && s'.rpcs == s.rpcs && s'.log == s.log && |s.attempts| <= |s'.attempts|
            && (forall a :: 0 <= a < |s.attempts| && s.attempts[a].terminal ==> s'.attempts[a].terminal)
  {
    hide Update, SetPhase;
    ExecuteCarries(s, e);
  }

  lemma {:induction false} StreamKeepsTerminal(s: State, stream: Stream, h: StreamStep)
    ensures var s' := NextStream(s, stream, h);
            && s'.rpcs == s.rpcs && s'.log == s.log && |s.attempts| == |s'.attempts|
            && (forall a :: 0 <= a < |s.attempts| && s.attempts[a].terminal ==> s'.attempts[a].terminal)
  {
  }

  lemma {:induction false} RunKeepsReport(s: State, steps: seq<Step>)
    requires CoreInv(s) && ReportInv(s)
    ensures ReportInv(Run(s, steps))
    decreases steps
  {
    hide CoreInv, ReportInv, NextExecute, NextStream, NextRpc, NextOther;
    if steps != [] {
      var s' := Next(s, steps[0]);
      NextKeepsCore(s, steps[0]);
      match steps[0] {
        case Execute(e) => ExecuteKeepsTerminal(s, e); CarriedKeepsReport(s, s');
        case OnStream(stream, h) => StreamKeepsTerminal(s, stream, h); CarriedKeepsReport(s, s');
        case OnRpc(r, c) => RpcKeepsReport(s, r, c);
        case Other(o) => OtherKeepsReport(s, o);
      }
      RunKeepsReport(s', steps[1..]);
    }
  }

  /** A completion RPC reports success exactly if its response was delivered, and then its attempt is terminal. */
  lemma {:induction false} SuccessMeansDelivered(strict: bool, steps: seq<Step>, r: nat)
    requires r < |Run(Init(strict), steps).rpcs| && Run(Init(strict), steps).rpcs[r].phase.Over?
    ensures var s := Run(Init(strict), steps);
            && (s.rpcs[r].phase.ok <==> Logged(s, r))
            && (s.rpcs[r].phase.ok ==> s.rpcs[r].attempt < |s.attempts| && s.attempts[s.rpcs[r].attempt].terminal)
  {
    RunKeepsReport(Init(strict), steps);
  }

  /******* Ownership *******/

  /** A registration ends only with the release of the attempt it belongs to; nobody removes a successor's. */
  lemma {:induction false} OnlyOwnerReleases(s: State, step: Step, key: Key)
    requires CoreInv(s) && key in s.registry
    ensures var s' := Next(s, step);
            (key in s'.registry && s'.registry[key] == s.registry[key]) || step == Execute(Release(s.registry[key]))
  {
    hide NextStream, NextRpc;
    match step
    case Execute(e) => ReleaseOwn(s, e, key);
    case OnStream(stream, h) => StreamFrame(s, stream, h);
    case OnRpc(r, c) => if c.Deliver? { DeliverKeepsStrict(s, r); } else { RpcFrame(s, r, c); }
    case Other(o) =>
  }

  lemma {:induction false} ReleaseOwn(s: State, e: ExecuteStep, key: Key)
    requires CoreInv(s) && key in s.registry
    ensures var s' := NextExecute(s, e);
            (key in s'.registry && s'.registry[key] == s.registry[key]) || e == Release(s.registry[key])
  {
    hide Update, SetPhase, CoreInv;
  }

  /**
   A waiter leaves the table through its own call, through an RPC on its own attempt, or by cancellation of its task.
   */
  lemma {:induction false} OnlyOwnWaiterRemoved(s: State, step: Step, key: Key)
    requires CoreInv(s) && key in s.waiters
    ensures var w, s' := s.waiters[key], Next(s, step);
            || (key in s'.waiters && s'.waiters[key] == w)
            || step == Execute(RemoveWaiter(w))
            || (step.OnRpc? && step.c.Deliver? && step.r < |s.rpcs| && s.rpcs[step.r].attempt == w)
            || step == Other(CancelTask(key))
  {
    hide NextStream, NextRpc, CoreInv;
    match step
    case Execute(e) => WaiterOwn(s, e, key);
    case OnStream(stream, h) => StreamFrame(s, stream, h);
    case OnRpc(r, c) => if c.Deliver? { OnlyOwnDelivery(s, r, key); } else { RpcFrame(s, r, c); }
    case Other(o) =>
  }

  lemma {:induction false} WaiterOwn(s: State, e: ExecuteStep, key: Key)
    requires CoreInv(s) && key in s.waiters
    ensures var s' := NextExecute(s, e);
            (key in s'.waiters && s'.waiters[key] == s.waiters[key]) || e == RemoveWaiter(s.waiters[key])
  {
    hide Update, SetPhase, CoreInv;
    if e.RegisterWaiter? && At(s, e.a, Registered) { OwnWaiter(s, e.a); }
  }

  lemma {:induction false} OnlyOwnDelivery(s: State, r: nat, key: Key)
    requires CoreInv(s) && key in s.waiters
    ensures var s' := NextRpc(s, r, Deliver);
            (key in s'.waiters && s'.waiters[key] == s.waiters[key]) ||
            (r < |s.rpcs| && s.rpcs[r].attempt == s.waiters[key])
  {
    hide SetRpc, Leave, CoreInv;
    if r < |s.rpcs| && s.rpcs[r].phase.Admitted? {
      AdmittedIsLive(s, r);
      WaiterIsRegistered(s, key);
    }
  }

  /******* Draining *******/

  /** An attempt that is not terminal still lies ahead of every drain that has to stop it. */
  ghost predicate Ahead(x: Attempt, streams: map<Stream, Handler>, shutdown: Shutdown) {
    !x.terminal ==>
      && !shutdown.Returned? && (shutdown.Ranging? ==> x.key in shutdown.todo)
      && (x.stream.Some? && x.stream.value in streams ==>
            !streams[x.stream.value].Closed? &&
            (streams[x.stream.value].Closing? ==> x.key in streams[x.stream.value].todo))
  }

  ghost predicate DrainInv(s: State) {
    forall a :: 0 <= a < |s.attempts| ==> Ahead(s.attempts[a], s.streams, s.shutdown)
  }

  /** Attempts that only moved on, or became terminal, and the same drains. */
  ghost predicate Carried(s: State, s': State) {
    && s'.streams == s.streams && s'.shutdown == s.shutdown && |s.attempts| <= |s'.attempts|
    && (forall a :: 0 <= a < |s.attempts| ==>
          && s'.attempts[a].key == s.attempts[a].key && s'.attempts[a].stream == s.attempts[a].stream
          && (s.attempts[a].terminal ==> s'.attempts[a].terminal))
    && (|s.attempts| < |s'.attempts| ==>
          s.shutdown.Running? && |s'.attempts| == |s.attempts| + 1 && s'.attempts[|s.attempts|].stream.None?)
  }

  lemma {:induction false} CarriedKeepsDrain(s: State, s': State)
    requires DrainInv(s) && Carried(s, s')
    ensures DrainInv(s')
  {
    forall a | 0 <= a < |s'.attempts| ensures Ahead(s'.attempts[a], s'.streams, s'.shutdown) {
      if a < |s.attempts| { assert Ahead(s.attempts[a], s.streams, s.shutdown); }
    }
  }

  lemma {:induction false} UpdateCarries(s: State, s': State, a: nat, x: Attempt)
    requires a < |s.attempts| && x.key == s.attempts[a].key && x.stream == s.attempts[a].stream
    requires s.attempts[a].terminal ==> x.terminal
    requires s'.attempts == s.attempts[a := x] && s'.streams == s.streams && s'.shutdown == s.shutdown
    ensures Carried(s, s')
  {
  }

  lemma {:induction false} SameCarries(s: State, s': State)
    requires s'.attempts == s.attempts && s'.streams == s.streams && s'.shutdown == s.shutdown
    ensures Carried(s, s')
  {
  }

  lemma {:induction false} ExecuteCarries(s: State, step: ExecuteStep)
    ensures Carried(s, NextExecute(s, step))
  {
    hide Carried;
    var s' := NextExecute(s, step);
    if s' == s {
      SameCarries(s, s');
    } else if step.Register? {
      RegisterCarries(s, step.key);
    } else {
      UpdateCarries(s, s', step.a, s'.attempts[step.a]);
    }
  }

  lemma {:induction false} RegisterCarries(s: State, key: Key)
    ensures Carried(s, NextExecute(s, Register(key)))
  {
  }

  /** What an RPC does to its attempt. */
  lemma {:induction false} RpcAttempt(s: State, r: nat, step: RpcStep) returns (x: Attempt)
    requires r < |s.rpcs| && s.rpcs[r].attempt < |s.attempts|
    ensures var a := s.rpcs[r].attempt;
            && x.key == s.attempts[a].key && x.stream == s.attempts[a].stream && (s.attempts[a].terminal ==> x.terminal)
            && NextRpc(s, r, step).attempts == s.attempts[a := x]
  {
    hide TokenFits, SameTables, Update, SetRpc, Leave;
    var a := s.rpcs[r].attempt;
    x := NextRpc(s, r, step).attempts[a];
    assert s.attempts[a := s.attempts[a]] == s.attempts;
  }

  lemma {:induction false} RpcCarries(s: State, r: nat, step: RpcStep)
    ensures Carried(s, NextRpc(s, r, step))
  {
    hide Carried, TokenFits, Update, SetRpc, Leave;
    if r < |s.rpcs| && s.rpcs[r].attempt < |s.attempts| {
      var x := RpcAttempt(s, r, step);
      UpdateCarries(s, NextRpc(s, r, step), s.rpcs[r].attempt, x);
    } else {
      SameCarries(s, s);
    }
  }

  lemma {:induction false} NonTerminalRegistered(s: State, a: nat)
    requires CoreInv(s) && a < |s.attempts| && !s.attempts[a].terminal
    ensures s.attempts[a].key in s.registry && s.registry[s.attempts[a].key] == a
  {
    assert AttemptInv(s, a);
  }

  /** A handler or Shutdown begins to visit every registered key. */
  lemma {:induction false} BeginKeepsDrain(s: State, s': State)
    requires CoreInv(s) && DrainInv(s) && s'.attempts == s.attempts
    requires (s'.shutdown == Ranging(s.registry.Keys) && s'.streams == s.streams) ||
             (s'.shutdown == s.shutdown &&
              exists stream :: stream in s.streams && s'.streams == s.streams[stream := Closing(s.registry.Keys)])
    ensures DrainInv(s')
  {
    hide CoreInv;
    forall a | 0 <= a < |s'.attempts| ensures Ahead(s'.attempts[a], s'.streams, s'.shutdown) {
      assert Ahead(s.attempts[a], s.streams, s.shutdown);
      if !s.attempts[a].terminal { NonTerminalRegistered(s, a); }
    }
  }

  /** The attempt registered under a visited key is stopped, so the key needs no further visit. */
  lemma {:induction false} VisitKeepsDrain(s: State, key: Key, stream: Option<Stream>, s': State)
    requires CoreInv(s) && DrainInv(s) && s'.attempts == StopKey(s, key, stream).attempts
    requires if stream.None?
             then s.shutdown.Ranging? && s'.shutdown == Ranging(s.shutdown.todo - {key}) && s'.streams == s.streams
             else && stream.value in s.streams && s.streams[stream.value].Closing? && s'.shutdown == s.shutdown
                  && s'.streams == s.streams[stream.value := Closing(s.streams[stream.value].todo - {key})]
    ensures DrainInv(s')
  {
    hide CoreInv;
    forall a | 0 <= a < |s'.attempts| ensures Ahead(s'.attempts[a], s'.streams, s'.shutdown) {
      assert Ahead(s.attempts[a], s.streams, s.shutdown);
      if !s.attempts[a].terminal { NonTerminalRegistered(s, a); }
    }
  }

  /** A handler moves between phases in which it has not begun to close, or ends an exhausted visit. */
  lemma {:induction false} MoveKeepsDrain(s: State, stream: Stream, s': State)
    requires DrainInv(s) && stream in s'.streams && s'.streams == s.streams[stream := s'.streams[stream]] &&
      s'.shutdown == s.shutdown
    requires |s'.attempts| == |s.attempts|
    requires forall a :: 0 <= a < |s.attempts| ==>
      && s'.attempts[a].key == s.attempts[a].key && s'.attempts[a].terminal == s.attempts[a].terminal
      && (s'.attempts[a].stream == s.attempts[a].stream || s'.attempts[a].stream == Some(stream))
    requires if stream in s.streams && s.streams[stream] == Closing({})
             then s'.streams[stream].Closed? && s'.attempts == s.attempts
             else !s'.streams[stream].Closing? && !s'.streams[stream].Closed?
    ensures DrainInv(s')
  {
    forall a | 0 <= a < |s'.attempts| ensures Ahead(s'.attempts[a], s'.streams, s'.shutdown) {
      assert Ahead(s.attempts[a], s.streams, s.shutdown);
    }
  }

  lemma {:induction false} StreamMoves(s: State, stream: Stream, step: StreamStep)
    requires NextStream(s, stream, step) != s && !step.BeginClose? && !step.VisitClose? && DrainInv(s)
    ensures DrainInv(NextStream(s, stream, step))
  {
    hide DrainInv;
    MoveKeepsDrain(s, stream, NextStream(s, stream, step));
  }

  lemma {:induction false} StreamKeepsDrain(s: State, stream: Stream, step: StreamStep)
    requires CoreInv(s) && DrainInv(s)
    ensures DrainInv(NextStream(s, stream, step))
  {
    hide CoreInv, DrainInv, StopKey, Update, SetPhase;
    var s' := NextStream(s, stream, step);
    if s' == s { return; }
    match step
    case BeginClose => BeginKeepsDrain(s, s');
    case VisitClose(key) => VisitKeepsDrain(s, key, Some(stream), s');
    case _ => StreamMoves(s, stream, step);
  }

  lemma {:induction false} OtherKeepsDrain(s: State, step: OtherStep)
    requires CoreInv(s) && DrainInv(s)
    ensures DrainInv(NextOther(s, step))
  {
    hide CoreInv, DrainInv, StopKey;
    var s' := NextOther(s, step);
    if s' == s { return; }
    match step
    case BeginRange => BeginKeepsDrain(s, s');
    case VisitRange(key) => VisitKeepsDrain(s, key, None, s');
    case Flag => FlagKeepsDrain(s, s');
    case EndRange => FlagKeepsDrain(s, s');
    case _ => SameCarries(s, s'); CarriedKeepsDrain(s, s');
  }

  lemma {:induction false} FlagKeepsDrain(s: State, s': State)
    requires DrainInv(s) && s'.attempts == s.attempts && s'.streams == s.streams
    requires if s.shutdown == Ranging({}) then s'.shutdown.Returned? else s'.shutdown.Flagged?
    ensures DrainInv(s')
  {
    forall a | 0 <= a < |s'.attempts| ensures Ahead(s'.attempts[a], s'.streams, s'.shutdown) {
      assert Ahead(s.attempts[a], s.streams, s.shutdown);
    }
  }

  lemma {:induction false} RunKeepsDrain(s: State, steps: seq<Step>)
    requires CoreInv(s) && DrainInv(s)
    ensures DrainInv(Run(s, steps))
    decreases steps
  {
    hide CoreInv, DrainInv, Carried, NextExecute, NextStream, NextRpc, NextOther;
    if steps != [] {
      var s' := Next(s, steps[0]);
      NextKeepsCore(s, steps[0]);
      match steps[0] {
        case Execute(e) => ExecuteCarries(s, e); CarriedKeepsDrain(s, s');
        case OnStream(stream, h) => StreamKeepsDrain(s, stream, h);
        case OnRpc(r, c) => RpcCarries(s, r, c); CarriedKeepsDrain(s, s');
        case Other(o) => OtherKeepsDrain(s, o);
      }
      RunKeepsDrain(s', steps[1..]);
    }
  }

  /** The handler of this stream has returned. */
  predicate ClosedFor(s: State, stream: Option<Stream>) {
    stream.Some? && stream.value in s.streams && s.streams[stream.value].Closed?
  }

  /**
   Drain completeness: once Shutdown has returned, every attempt ever registered is terminal; once
   a stream's handler has returned, every attempt it claimed is terminal.
   */
  lemma {:induction false} DrainsCompletely(strict: bool, steps: seq<Step>)
    ensures var s := Run(Init(strict), steps);
            && (s.shutdown.Returned? ==> forall a :: 0 <= a < |s.attempts| ==> s.attempts[a].terminal)
            && (forall a :: 0 <= a < |s.attempts| && ClosedFor(s, s.attempts[a].stream) ==> s.attempts[a].terminal)
  {
    RunKeepsDrain(Init(strict), steps);
    var s := Run(Init(strict), steps);
    forall a | 0 <= a < |s.attempts| ensures Ahead(s.attempts[a], s.streams, s.shutdown) {
    }
  }

  /** After Shutdown was flagged nothing is registered any more. */
  lemma {:induction false} NothingRegistersLater(s: State, steps: seq<Step>)
    requires !s.shutdown.Running?
    ensures |Run(s, steps).attempts| == |s.attempts| && !Run(s, steps).shutdown.Running?
    decreases steps
  {
    if steps != [] {
      StaysDown(s, steps[0]);
      NothingRegistersLater(Next(s, steps[0]), steps[1..]);
    }
  }

  lemma {:induction false} StaysDown(s: State, step: Step)
    requires !s.shutdown.Running?
    ensures |Next(s, step).attempts| == |s.attempts| && !Next(s, step).shutdown.Running?
  {
    hide Carried, NextExecute, NextRpc;
    match step
    case Execute(e) => ExecuteCarries(s, e); CarriedDown(s, NextExecute(s, e));
    case OnStream(stream, h) =>
    case OnRpc(r, c) => RpcCarries(s, r, c); CarriedDown(s, NextRpc(s, r, c));
    case Other(o) =>
  }

  lemma {:induction false} CarriedDown(s: State, s': State)
    requires Carried(s, s') && !s.shutdown.Running?
    ensures |s'.attempts| == |s.attempts| && !s'.shutdown.Running?
  {
  }
}
