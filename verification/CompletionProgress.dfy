/**
 What the completion protocol accepts and what it refuses (backend/executor_transport.go:52-75,
 backend/executor.go:136-293 and 520-543): nothing before an attempt is dispatched, everything that is
 due afterwards, and a refusal only for one of four reasons.
 */
module CompletionProgress {
  import opened Work
  import opened Completion
  import opened CompletionTheorems

  /******* Nothing is accepted before dispatch *******/

  predicate Claimed(s: State, a: nat) {
    a < |s.attempts| && s.attempts[a].stream.Some?
  }

  /** An RPC that has passed its check works on a claimed attempt, and so did all that were accepted. */
  ghost predicate DispatchInv(s: State) {
    && (forall r :: 0 <= r < |s.rpcs| && s.rpcs[r].phase.Admitted? ==> Claimed(s, s.rpcs[r].attempt))
    && (forall i :: 0 <= i < |s.log| ==> Claimed(s, s.log[i].attempt))
  }

  /** What neither a call, nor a handler, nor an RPC does. */
  lemma {:induction false} OtherMoves(s: State, o: OtherStep)
    ensures var s' := NextOther(s, o);
            && (s'.rpcs == s.rpcs ||
                (|s'.rpcs| == |s.rpcs| + 1 && s'.rpcs[..|s.rpcs|] == s.rpcs && s'.rpcs[|s.rpcs|].phase.Loaded?))
            && |s'.attempts| == |s.attempts|
            && (forall a :: 0 <= a < |s.attempts| ==> s'.attempts[a].stream == s.attempts[a].stream)
  {
    hide SameTables;
  }

  lemma {:induction false} HandlerKeepsClaim(s: State, stream: Stream, h: StreamStep, a: nat)
    requires Claimed(s, a)
    ensures Claimed(NextStream(s, stream, h), a)
  {
    hide SameTables;
  }

  /** No step takes a claim back. */
  lemma {:induction false} ClaimStays(s: State, step: Step, a: nat)
    requires Claimed(s, a)
    ensures Claimed(Next(s, step), a)
  {
    hide Carried, NextExecute, NextStream, NextRpc, NextOther;
    match step
    case Execute(e) => ExecuteCarries(s, e); CarriedClaims(s, NextExecute(s, e), a);
    case OnStream(stream, h) => HandlerKeepsClaim(s, stream, h, a);
    case OnRpc(r, c) => RpcCarries(s, r, c); CarriedClaims(s, NextRpc(s, r, c), a);
    case Other(o) => OtherMoves(s, o);
  }

  lemma CarriedClaims(s: State, s': State, a: nat)
    requires Carried(s, s') && Claimed(s, a)
    ensures Claimed(s', a)
  {
  }

  /** An RPC is admitted by its own check only, on an attempt that is claimed at that moment. */
  lemma {:induction false} AdmittedWhenClaimed(s: State, step: Step, r: nat)
    requires r < |Next(s, step).rpcs| && Next(s, step).rpcs[r].phase.Admitted?
    ensures r < |s.rpcs| && Next(s, step).rpcs[r].attempt == s.rpcs[r].attempt
    ensures s.rpcs[r].phase.Admitted? || Claimed(s, s.rpcs[r].attempt)
  {
    hide NextExecute, NextStream, NextRpc, NextOther, Claimed;
    match step
    case Execute(e) => ExecuteKeepsTerminal(s, e);
    case OnStream(stream, h) => StreamKeepsTerminal(s, stream, h);
    case OnRpc(q, c) => CheckAdmits(s, q, c, r);
    case Other(o) => OtherMoves(s, o); assert s.rpcs[..|s.rpcs|] == s.rpcs;
  }

  lemma {:induction false} LeaveMoves(s: State, r: nat, ok: bool)
    requires r < |s.rpcs| && s.rpcs[r].attempt < |s.attempts|
    ensures Leave(s, r, ok).rpcs == s.rpcs[r := s.rpcs[r].(phase := Over(ok))]
  {
  }

  /** Every RPC keeps its attempt, token and response; a step moves only its own RPC. */
  lemma {:induction false} RpcMoves(s: State, q: nat, c: RpcStep)
    ensures var s' := NextRpc(s, q, c);
            s' == s || (q < |s.rpcs| && |s'.rpcs| == |s.rpcs| &&
                        s'.rpcs == s.rpcs[q := s.rpcs[q].(phase := s'.rpcs[q].phase)])
  {
    hide TokenFits, SameTables, Update, Leave;
    if q < |s.rpcs| && s.rpcs[q].attempt < |s.attempts| {
      LeaveMoves(s, q, true);
      LeaveMoves(s, q, false);
    }
  }

  lemma {:induction false} CheckAdmits(s: State, q: nat, c: RpcStep, r: nat)
    requires r < |NextRpc(s, q, c).rpcs| && NextRpc(s, q, c).rpcs[r].phase.Admitted?
    ensures r < |s.rpcs| && NextRpc(s, q, c).rpcs[r].attempt == s.rpcs[r].attempt
    ensures s.rpcs[r].phase.Admitted? || Claimed(s, s.rpcs[r].attempt)
  {
    RpcMoves(s, q, c);
    if r == q { OwnCheckAdmits(s, q, c); }
  }

  lemma {:induction false} OwnCheckAdmits(s: State, r: nat, c: RpcStep)
    requires r < |s.rpcs| == |NextRpc(s, r, c).rpcs| && NextRpc(s, r, c).rpcs[r].phase.Admitted?
    ensures s.rpcs[r].phase.Admitted? || Claimed(s, s.rpcs[r].attempt)
  {
    hide TokenFits, SameTables;
  }

  /** The log grows by what an admitted RPC delivers. */
  lemma {:induction false} LogGrows(s: State, step: Step)
    ensures var log := Next(s, step).log;
            log == s.log ||
            (step.OnRpc? && step.c.Deliver? && step.r < |s.rpcs| && s.rpcs[step.r].phase.Admitted? &&
             |log| == |s.log| + 1 && log[..|s.log|] == s.log && log[|s.log|].attempt == s.rpcs[step.r].attempt)
  {
    hide NextExecute, NextStream;
    match step
    case Execute(e) => ExecuteFrame(s, e);
    case OnStream(stream, h) => StreamFrame(s, stream, h);
    case OnRpc(_, _) =>
    case Other(_) =>
  }

  lemma {:induction false} NextKeepsDispatch(s: State, step: Step)
    requires DispatchInv(s)
    ensures DispatchInv(Next(s, step))
  {
    hide Next, Claimed;
    var s' := Next(s, step);
    forall r | 0 <= r < |s'.rpcs| && s'.rpcs[r].phase.Admitted? ensures Claimed(s', s'.rpcs[r].attempt) {
      AdmittedWhenClaimed(s, step, r);
      ClaimStays(s, step, s.rpcs[r].attempt);
    }
    LogGrows(s, step);
    forall i | 0 <= i < |s'.log| ensures Claimed(s', s'.log[i].attempt) {
      if i < |s.log| {
        assert s'.log[i] == s'.log[..|s.log|][i];
        ClaimStays(s, step, s.log[i].attempt);
      } else {
        ClaimStays(s, step, s.rpcs[step.r].attempt);
      }
    }
  }

  lemma {:induction false} RunKeepsDispatch(s: State, steps: seq<Step>)
    requires DispatchInv(s)
    ensures DispatchInv(Run(s, steps))
    decreases steps
  {
    hide DispatchInv, Next;
    if steps != [] {
      NextKeepsDispatch(s, steps[0]);
      RunKeepsDispatch(Next(s, steps[0]), steps[1..]);
    }
  }

  /**
   The step is the claim of this stream's handler on the very attempt whose work item it took, and the attempt
   is still pending.
   */
  predicate Claims(s: State, step: Step, a: nat, stream: Stream) {
    && step == OnStream(stream, Claim) && stream in s.streams && s.streams[stream] == Claiming(a, a)
    && a < |s.attempts| && !s.attempts[a].terminal
  }

  /** A claim appears only when the handler of that stream claims. */
  lemma {:induction false} ClaimAppears(s: State, step: Step, a: nat)
    requires Claimed(Next(s, step), a)
    ensures var stream := Next(s, step).attempts[a].stream;
            (a < |s.attempts| && s.attempts[a].stream == stream) || Claims(s, step, a, stream.value)
  {
    hide Carried, NextExecute, NextRpc, NextStream, NextOther;
    match step
    case Execute(e) => ExecuteCarries(s, e); CarriedStream(s, NextExecute(s, e), a);
    case OnStream(stream, h) => HandlerClaims(s, stream, h, a);
    case OnRpc(r, c) => RpcCarries(s, r, c); CarriedStream(s, NextRpc(s, r, c), a);
    case Other(o) => OtherMoves(s, o);
  }

  lemma {:induction false} HandlerClaims(s: State, stream: Stream, h: StreamStep, a: nat)
    requires Claimed(NextStream(s, stream, h), a)
    ensures a < |s.attempts|
    ensures s.attempts[a].stream == NextStream(s, stream, h).attempts[a].stream ||
            (NextStream(s, stream, h).attempts[a].stream == Some(stream) && Claims(s, OnStream(stream, h), a, stream))
  {
    hide SameTables;
  }

  lemma CarriedStream(s: State, s': State, a: nat)
    requires Carried(s, s') && Claimed(s', a)
    ensures a < |s.attempts| && s.attempts[a].stream == s'.attempts[a].stream
  {
  }

  lemma {:induction false} RunSnoc(s: State, steps: seq<Step>, last: Step)
    ensures Run(s, steps + [last]) == Next(Run(s, steps), last)
    decreases steps
  {
    hide Next;
    if steps == [] {
      assert [last][1..] == [];
    } else {
      assert (steps + [last])[1..] == steps[1..] + [last];
      RunSnoc(Next(s, steps[0]), steps[1..], last);
    }
  }

  /** The handler has taken the work item of the attempt whose token it holds. */
  ghost predicate Taken(s: State, steps: seq<Step>) {
    forall x :: x in s.streams ==>
      && (s.streams[x].Holding? ==> OnStream(x, Take(s.streams[x].token)) in steps)
      && (s.streams[x].Claiming? ==> OnStream(x, Take(s.streams[x].token)) in steps)
  }

  lemma {:induction false} NextTaken(s: State, steps: seq<Step>, last: Step)
    requires Taken(s, steps)
    ensures Taken(Next(s, last), steps + [last])
  {
    hide NextExecute, NextRpc, NextStream, NextOther, Carried;
    match last
    case Execute(e) => ExecuteStreams(s, e);
    case OnStream(x, h) => HandlerTakes(s, x, h);
    case OnRpc(r, c) => RpcCarries(s, r, c); CarriedStreams(s, NextRpc(s, r, c));
    case Other(o) => OtherStreams(s, o);
  }

  lemma OtherStreams(s: State, o: OtherStep)
    ensures NextOther(s, o).streams == s.streams
  {
  }

  /** A handler gets hold of a token by taking its work item, and keeps it to claim. */
  lemma {:induction false} HandlerTakes(s: State, x: Stream, h: StreamStep)
    ensures var streams := NextStream(s, x, h).streams;
            && (forall y :: y != x && y in streams ==> y in s.streams && streams[y] == s.streams[y])
            && (x in streams && streams[x].Holding? ==>
                  h == Take(streams[x].token) || (x in s.streams && s.streams[x] == streams[x]))
            && (x in streams && streams[x].Claiming? ==>
                  x in s.streams && (s.streams[x].Holding? || s.streams[x].Claiming?) &&
                  s.streams[x].token == streams[x].token)
  {
    hide SameTables;
  }

  lemma {:induction false} ExecuteStreams(s: State, e: ExecuteStep)
    ensures NextExecute(s, e).streams == s.streams
  {
    hide Carried;
    ExecuteCarries(s, e);
    CarriedStreams(s, NextExecute(s, e));
  }

  lemma CarriedStreams(s: State, s': State)
    requires Carried(s, s')
    ensures s'.streams == s.streams
  {
  }

  /** A claim in the run of these steps: at which step, by which handler, after it took that attempt's work item. */
  ghost predicate ClaimedIn(steps: seq<Step>, strict: bool, a: nat, stream: Stream) {
    exists k :: 0 <= k < |steps| && Claims(Run(Init(strict), steps[..k]), steps[k], a, stream) &&
                OnStream(stream, Take(a)) in steps[..k]
  }

  lemma {:induction false} LaterIn(steps: seq<Step>, last: Step, strict: bool, a: nat, stream: Stream)
    requires ClaimedIn(steps, strict, a, stream)
    ensures ClaimedIn(steps + [last], strict, a, stream)
  {
    hide Run, Claims;
    var k :| 0 <= k < |steps| && Claims(Run(Init(strict), steps[..k]), steps[k], a, stream) &&
             OnStream(stream, Take(a)) in steps[..k];
    assert (steps + [last])[..k] == steps[..k] && (steps + [last])[k] == steps[k];
  }

  lemma {:induction false} ClaimedByHandler(strict: bool, steps: seq<Step>)
    ensures Taken(Run(Init(strict), steps), steps)
    ensures forall a: nat :: Claimed(Run(Init(strict), steps), a) ==>
      ClaimedIn(steps, strict, a, Run(Init(strict), steps).attempts[a].stream.value)
    decreases |steps|
  {
    hide Next, ClaimedIn, Claims;
    if steps != [] {
      var n := |steps| - 1;
      var front, last := steps[..n], steps[n];
      var s := Run(Init(strict), front);
      assert steps == front + [last];
      RunSnoc(Init(strict), front, last);
      ClaimedByHandler(strict, front);
      hide Run;
      NextTaken(s, front, last);
      forall a: nat | Claimed(Next(s, last), a)
        ensures ClaimedIn(steps, strict, a, Next(s, last).attempts[a].stream.value)
      {
        ClaimAppears(s, last, a);
        var stream := Next(s, last).attempts[a].stream.value;
        if Claims(s, last, a, stream) {
          ClaimsNow(front, last, strict, a, stream);
        } else {
          LaterIn(front, last, strict, a, stream);
        }
      }
    }
  }

  lemma {:induction false} ClaimsNow(front: seq<Step>, last: Step, strict: bool, a: nat, stream: Stream)
    requires Taken(Run(Init(strict), front), front) && Claims(Run(Init(strict), front), last, a, stream)
    ensures ClaimedIn(front + [last], strict, a, stream)
  {
    hide Run;
    var steps := front + [last];
    assert steps[..|front|] == front && steps[|front|] == last;
  }

  /**
   Nothing is accepted on an attempt before the handler of a stream has taken its work item and claimed it, and
   when it was claimed it was still pending.
   */
  lemma {:induction false} NothingBeforeDispatch(strict: bool, steps: seq<Step>, i: nat)
    requires i < |Run(Init(strict), steps).log|
    ensures var s := Run(Init(strict), steps);
            var a := s.log[i].attempt;
            a < |s.attempts| && s.attempts[a].stream.Some? && ClaimedIn(steps, strict, a, s.attempts[a].stream.value)
  {
    hide Run, Next, ClaimedIn;
    RunKeepsDispatch(Init(strict), steps);
    ClaimedByHandler(strict, steps);
  }

  /******* What is due is accepted *******/

  /** The steps of an RPC that nobody interferes with. */
  function Completing(r: nat, key: Key, token: Option<nat>, response: string): seq<Step> {
    [Other(Load(key, token, response)), OnRpc(r, Lock), OnRpc(r, Check), OnRpc(r, Deliver), OnRpc(r, Settle),
     OnRpc(r, Unlock)]
  }

  /** A dispatched attempt that waits for its completion. */
  predicate Due(s: State, a: nat) {
    && a < |s.attempts| && s.attempts[a].stream.Some? && !s.attempts[a].terminal && s.attempts[a].holder.None?
    && s.attempts[a].key in s.waiters && s.waiters[s.attempts[a].key] == a
  }

  /** What an accepted RPC leaves behind. */
  function Accepted(s: State, a: nat, token: Option<nat>, response: string): State
    requires Due(s, a)
  {
    var x := s.attempts[a];
    s.(rpcs := s.rpcs + [Rpc(a, token, response, Over(true))],
       attempts := s.attempts[a := x.(terminal := true)],
       waiters := s.waiters - {x.key},
       inbox := s.inbox[a := Some(response)],
       log := s.log + [Delivery(|s.rpcs|, a, a, token, response)])
  }

  lemma {:induction false} RunAppend(s: State, steps: seq<Step>, more: seq<Step>)
    ensures Run(s, steps + more) == Run(Run(s, steps), more)
    decreases steps
  {
    hide Next;
    if steps == [] {
      assert steps + more == more;
    } else {
      assert (steps + more)[1..] == steps[1..] + more;
      RunAppend(Next(s, steps[0]), steps[1..], more);
    }
  }

  lemma {:induction false} TwoSteps(s: State, a: Step, b: Step)
    ensures Run(s, [a, b]) == Next(Next(s, a), b)
  {
    hide Next;
    assert [a, b] == [a] + [b] && [a][1..] == [];
    RunSnoc(s, [a], b);
  }

  lemma {:induction false} ThreeSteps(s: State, a: Step, b: Step, c: Step)
    ensures Run(s, [a, b, c]) == Next(Next(Next(s, a), b), c)
  {
    hide Next, Run;
    assert [a, b, c] == [a, b] + [c];
    RunSnoc(s, [a, b], c);
    TwoSteps(s, a, b);
  }

  lemma {:induction false} SixSteps(s: State, a: Step, b: Step, c: Step, d: Step, e: Step, f: Step)
    ensures Run(s, [a, b, c, d, e, f]) == Next(Next(Next(Next(Next(Next(s, a), b), c), d), e), f)
  {
    hide Next, Run;
    assert [a, b, c, d, e, f] == [a, b, c] + [d, e, f];
    RunAppend(s, [a, b, c], [d, e, f]);
    ThreeSteps(s, a, b, c);
    ThreeSteps(Run(s, [a, b, c]), d, e, f);
  }

  lemma {:induction false} ReachableInv(strict: bool, steps: seq<Step>)
    ensures CoreInv(Run(Init(strict), steps)) && Run(Init(strict), steps).strict == strict
  {
    RunKeepsInv(Init(strict), steps);
  }

  lemma {:induction false} DueIsRegistered(s: State, a: nat)
    requires CoreInv(s) && Due(s, a)
    ensures s.attempts[a].key in s.registry && s.registry[s.attempts[a].key] == a
  {
    WaiterIsRegistered(s, s.attempts[a].key);
  }

  /** The state while the RPC of an attempt holds its lock. */
  function UnderLock(s: State, a: nat, rpc: Rpc): State
    requires a < |s.attempts|
  {
    s.(rpcs := s.rpcs + [rpc], attempts := s.attempts[a := s.attempts[a].(holder := Some(|s.rpcs|))])
  }

  lemma {:induction false} Loads(s: State, key: Key, token: Option<nat>, response: string)
    requires key in s.registry
    ensures Next(s, Other(Load(key, token, response))) ==
            s.(rpcs := s.rpcs + [Rpc(s.registry[key], token, response, Loaded)])
  {
  }

  lemma {:induction false} Locks(s: State, a: nat, rpc: Rpc)
    requires a < |s.attempts| && rpc.attempt == a && rpc.phase.Loaded? && s.attempts[a].holder.None?
    ensures Next(s.(rpcs := s.rpcs + [rpc]), OnRpc(|s.rpcs|, Lock)) == UnderLock(s, a, rpc.(phase := Locked))
  {
    assert (s.rpcs + [rpc])[|s.rpcs| := rpc.(phase := Locked)] == s.rpcs + [rpc.(phase := Locked)];
  }

  lemma {:induction false} Checks(s: State, a: nat, rpc: Rpc)
    requires Due(s, a) && rpc.attempt == a && rpc.phase.Locked?
    requires if rpc.token.None? then !s.strict else rpc.token.value == a
    ensures Next(UnderLock(s, a, rpc), OnRpc(|s.rpcs|, Check)) == UnderLock(s, a, rpc.(phase := Admitted))
  {
    assert (s.rpcs + [rpc])[|s.rpcs| := rpc.(phase := Admitted)] == s.rpcs + [rpc.(phase := Admitted)];
  }

  /** The delivery is handed to the waiter. */
  function Handed(s: State, a: nat, rpc: Rpc): State
    requires Due(s, a)
  {
    s.(waiters := s.waiters - {s.attempts[a].key}, inbox := s.inbox[a := Some(rpc.response)],
       log := s.log + [Delivery(|s.rpcs|, a, a, rpc.token, rpc.response)])
  }

  lemma {:induction false} Delivers(s: State, a: nat, rpc: Rpc)
    requires Due(s, a) && rpc.attempt == a && rpc.phase.Admitted?
    ensures Next(UnderLock(s, a, rpc), OnRpc(|s.rpcs|, Deliver)) ==
            UnderLock(Handed(s, a, rpc), a, rpc.(phase := Delivered))
  {
    assert (s.rpcs + [rpc])[|s.rpcs| := rpc.(phase := Delivered)] == s.rpcs + [rpc.(phase := Delivered)];
  }

  lemma {:induction false} Settles(s: State, a: nat, rpc: Rpc)
    requires a < |s.attempts| && rpc.attempt == a && rpc.phase.Delivered?
    ensures Next(UnderLock(s, a, rpc), OnRpc(|s.rpcs|, Settle)) ==
            UnderLock(s.(attempts := s.attempts[a := s.attempts[a].(terminal := true)]), a, rpc.(phase := Settled))
  {
    assert (s.rpcs + [rpc])[|s.rpcs| := rpc.(phase := Settled)] == s.rpcs + [rpc.(phase := Settled)];
  }

  lemma {:induction false} Unlocks(s: State, a: nat, rpc: Rpc)
    requires a < |s.attempts| && s.attempts[a].holder.None? && rpc.attempt == a && rpc.phase.Settled?
    ensures Next(UnderLock(s, a, rpc), OnRpc(|s.rpcs|, Unlock)) == s.(rpcs := s.rpcs + [rpc.(phase := Over(true))])
  {
    assert (s.rpcs + [rpc])[|s.rpcs| := rpc.(phase := Over(true))] == s.rpcs + [rpc.(phase := Over(true))];
  }

  lemma {:induction false} DueIsAccepted(s: State, a: nat, token: Option<nat>, response: string)
    requires CoreInv(s) && Due(s, a) && (if token.None? then !s.strict else token.value == a)
    ensures Run(s, Completing(|s.rpcs|, s.attempts[a].key, token, response)) == Accepted(s, a, token, response)
  {
    hide CoreInv, Next, UnderLock;
    var r, rpc := |s.rpcs|, Rpc(a, token, response, Loaded);
    DueIsRegistered(s, a);
    Loads(s, s.attempts[a].key, token, response);
    Locks(s, a, rpc);
    Checks(s, a, rpc.(phase := Locked));
    Delivers(s, a, rpc.(phase := Admitted));
    var s' := Handed(s, a, rpc);
    Settles(s', a, rpc.(phase := Delivered));
    Unlocks(s'.(attempts := s.attempts[a := s.attempts[a].(terminal := true)]), a, rpc.(phase := Settled));
    SixSteps(s, Other(Load(s.attempts[a].key, token, response)), OnRpc(r, Lock), OnRpc(r, Check), OnRpc(r, Deliver),
             OnRpc(r, Settle), OnRpc(r, Unlock));
  }

  /**
   In every reachable state a dispatched attempt that waits accepts a completion under its token, or under
   none where tokens are not required: the RPC succeeds, and the Execute call returns exactly its response.
   */
  lemma {:induction false} CompletionAccepted(strict: bool, steps: seq<Step>, a: nat, token: Option<nat>,
                                              response: string)
    requires var s := Run(Init(strict), steps);
             && a < |s.attempts| && s.attempts[a].stream.Some? && !s.attempts[a].terminal && s.attempts[a].holder.None?
             && s.attempts[a].key in s.waiters && s.waiters[s.attempts[a].key] == a
    requires if token.None? then !strict else token.value == a
    ensures var s := Run(Init(strict), steps);
            var s' := Run(Init(strict), steps + Completing(|s.rpcs|, s.attempts[a].key, token, response));
            && |s'.rpcs| == |s.rpcs| + 1 && s'.rpcs[|s.rpcs|] == Rpc(a, token, response, Over(true))
            && s'.attempts == s.attempts[a := s.attempts[a].(terminal := true)]
            && s'.log == s.log + [Delivery(|s.rpcs|, a, a, token, response)]
            && (s.attempts[a].phase.Waiting? ==> ResponseOf(s', ReturnDelivered(a)) == Some(response))
  {
    hide Next, Run, CoreInv;
    ReachableInv(strict, steps);
    var s := Run(Init(strict), steps);
    DueIsAccepted(s, a, token, response);
    RunAppend(Init(strict), steps, Completing(|s.rpcs|, s.attempts[a].key, token, response));
  }

  /******* A whole attempt *******/

  /** An Execute call registers and offers its work item, and a stream's handler takes and claims it. */
  function Dispatching(a: nat, key: Key, stream: Stream): seq<Step> {
    [Execute(Register(key)), Execute(RegisterWaiter(a)), OnStream(stream, Take(a)), OnStream(stream, LoadForClaim),
     OnStream(stream, Claim)]
  }

  /** An Execute call that was answered returns and cleans up. */
  function Returning(a: nat): seq<Step> {
    [Execute(ReturnDelivered(a)), Execute(RemoveWaiter(a)), Execute(Stop(a)), Execute(PassLock(a)), Execute(Release(a))]
  }

  lemma {:induction false} FiveSteps(s: State, a: Step, b: Step, c: Step, d: Step, e: Step)
    ensures Run(s, [a, b, c, d, e]) == Next(Next(Next(Next(Next(s, a), b), c), d), e)
  {
    hide Next, Run;
    assert [a, b, c, d, e] == [a, b, c] + [d, e];
    RunAppend(s, [a, b, c], [d, e]);
    ThreeSteps(s, a, b, c);
    TwoSteps(Run(s, [a, b, c]), d, e);
  }

  lemma {:induction false} Registers(s: State, key: Key)
    requires s.shutdown.Running? && key !in s.registry
    ensures Next(s, Execute(Register(key))) ==
            s.(attempts := s.attempts + [Attempt(key, None, false, None, Registered)],
               registry := s.registry[key := |s.attempts|])
  {
  }

  lemma {:induction false} RegistersWaiter(s: State, x: Attempt)
    requires x.phase.Registered? && x.key !in s.waiters
    ensures Next(s.(attempts := s.attempts + [x]), Execute(RegisterWaiter(|s.attempts|))) ==
            s.(attempts := s.attempts + [x.(phase := Offered)], waiters := s.waiters[x.key := |s.attempts|])
  {
    assert (s.attempts + [x])[|s.attempts| := x.(phase := Offered)] == s.attempts + [x.(phase := Offered)];
  }

  lemma {:induction false} Takes(s: State, x: Attempt, stream: Stream)
    requires x.phase.Offered? && stream in s.streams && s.streams[stream].Open?
    ensures Next(s.(attempts := s.attempts + [x]), OnStream(stream, Take(|s.attempts|))) ==
            s.(attempts := s.attempts + [x.(phase := Waiting)],
               streams := s.streams[stream := Holding(x.key, |s.attempts|)])
  {
    assert (s.attempts + [x])[|s.attempts| := x.(phase := Waiting)] == s.attempts + [x.(phase := Waiting)];
  }

  /** The handler looks the attempt up and claims it. */
  lemma {:induction false} LoadsAndClaims(s: State, x: Attempt, stream: Stream)
    requires stream in s.streams && s.streams[stream] == Holding(x.key, |s.attempts|)
    requires x.key in s.registry && s.registry[x.key] == |s.attempts| && x.holder.None? && !x.terminal
    ensures Next(Next(s.(attempts := s.attempts + [x]), OnStream(stream, LoadForClaim)), OnStream(stream, Claim)) ==
            s.(attempts := s.attempts + [x.(stream := Some(stream))], streams := s.streams[stream := Open])
  {
    var s1 := s.(attempts := s.attempts + [x], streams := s.streams[stream := Claiming(|s.attempts|, |s.attempts|)]);
    assert Next(s.(attempts := s.attempts + [x]), OnStream(stream, LoadForClaim)) == s1;
    assert (s.attempts + [x])[|s.attempts| := x.(stream := Some(stream))] == s.attempts + [x.(stream := Some(stream))];
    assert s1.streams[stream := Open] == s.streams[stream := Open];
  }

  /** A free key can be dispatched through any idle stream. */
  lemma {:induction false} FreeKeyIsDispatched(s: State, key: Key, stream: Stream)
    requires CoreInv(s) && s.shutdown.Running? && key !in s.registry && stream in s.streams && s.streams[stream].Open?
    ensures Run(s, Dispatching(|s.attempts|, key, stream)) ==
            s.(attempts := s.attempts + [Attempt(key, Some(stream), false, None, Waiting)],
               registry := s.registry[key := |s.attempts|], waiters := s.waiters[key := |s.attempts|])
  {
    hide CoreInv, Next;
    var a, x := |s.attempts|, Attempt(key, None, false, None, Registered);
    NoWaiter(s, key);
    Registers(s, key);
    var s1 := s.(registry := s.registry[key := a]);
    RegistersWaiter(s1, x);
    var s2 := s1.(waiters := s.waiters[key := a]);
    Takes(s2, x.(phase := Offered), stream);
    var s3 := s2.(streams := s.streams[stream := Holding(key, a)]);
    LoadsAndClaims(s3, x.(phase := Waiting), stream);
    assert s3.streams[stream := Open] == s.streams;
    FiveSteps(s, Execute(Register(key)), Execute(RegisterWaiter(a)), OnStream(stream, Take(a)),
              OnStream(stream, LoadForClaim), OnStream(stream, Claim));
  }

  lemma {:induction false} Returns(s: State, a: nat)
    requires At(s, a, Waiting) && a in s.inbox && s.attempts[a].key !in s.waiters
    ensures Next(Next(s, Execute(ReturnDelivered(a))), Execute(RemoveWaiter(a))) ==
            s.(attempts := s.attempts[a := s.attempts[a].(phase := Left)])
  {
    var s1 := s.(attempts := s.attempts[a := s.attempts[a].(phase := Leaving)]);
    assert Next(s, Execute(ReturnDelivered(a))) == s1;
    assert s1.attempts[a := s1.attempts[a].(phase := Left)] == s.attempts[a := s.attempts[a].(phase := Left)];
  }

  lemma {:induction false} Stops(s: State, a: nat)
    requires At(s, a, Left) && s.attempts[a].holder.None?
    ensures Next(Next(s, Execute(Stop(a))), Execute(PassLock(a))) ==
            s.(attempts := s.attempts[a := s.attempts[a].(terminal := true, phase := Drained)])
  {
    var s1 := s.(attempts := s.attempts[a := s.attempts[a].(terminal := true, phase := Stopped)]);
    assert Next(s, Execute(Stop(a))) == s1;
    assert s1.attempts[a := s1.attempts[a].(phase := Drained)] ==
           s.attempts[a := s.attempts[a].(terminal := true, phase := Drained)];
  }

  lemma {:induction false} Releases(s: State, a: nat)
    requires At(s, a, Drained) && s.attempts[a].key in s.registry && s.registry[s.attempts[a].key] == a
    ensures Next(s, Execute(Release(a))) ==
            s.(attempts := s.attempts[a := s.attempts[a].(phase := Gone)], registry := s.registry - {s.attempts[a].key})
  {
  }

  /** An answered call returns, and its key is free again. */
  lemma {:induction false} AnsweredReturns(s: State, a: nat)
    requires At(s, a, Waiting) && a in s.inbox && s.attempts[a].holder.None?
    requires var key := s.attempts[a].key; key !in s.waiters && key in s.registry && s.registry[key] == a
    ensures Run(s, Returning(a)) == s.(attempts := s.attempts[a := s.attempts[a].(terminal := true, phase := Gone)],
                                       registry := s.registry - {s.attempts[a].key})
  {
    hide Next;
    Returns(s, a);
    var s2 := s.(attempts := s.attempts[a := s.attempts[a].(phase := Left)]);
    Stops(s2, a);
    var s4 := s2.(attempts := s2.attempts[a := s2.attempts[a].(terminal := true, phase := Drained)]);
    Releases(s4, a);
    assert s4.attempts[a := s4.attempts[a].(phase := Gone)] ==
           s.attempts[a := s.attempts[a].(terminal := true, phase := Gone)];
    FiveSteps(s, Execute(ReturnDelivered(a)), Execute(RemoveWaiter(a)), Execute(Stop(a)), Execute(PassLock(a)),
              Execute(Release(a)));
  }

  /**
   In every reachable state before Shutdown a free key can be served through any idle stream: the Execute call
   that registers it is dispatched and returns the response of the RPC, and registry, waiters and streams are
   then as before, so that the key can be served again.
   */
  lemma {:induction false} AttemptServed(strict: bool, steps: seq<Step>, key: Key, stream: Stream, response: string)
    requires var s := Run(Init(strict), steps);
             s.shutdown.Running? && key !in s.registry && stream in s.streams && s.streams[stream].Open?
    ensures var s := Run(Init(strict), steps);
            var a, r := |s.attempts|, |s.rpcs|;
            var served := Dispatching(a, key, stream) + Completing(r, key, Some(a), response);
            var s', s'' := Run(s, served), Run(s, served + Returning(a));
            && ResponseOf(s', ReturnDelivered(a)) == Some(response)
            && s'.rpcs == s.rpcs + [Rpc(a, Some(a), response, Over(true))]
            && s''.attempts == s.attempts + [Attempt(key, Some(stream), true, None, Gone)]
            && s''.registry == s.registry && s''.waiters == s.waiters && s''.streams == s.streams
  {
    hide Next, Run, CoreInv, Dispatching, Completing, Returning;
    ReachableInv(strict, steps);
    var s := Run(Init(strict), steps);
    var a, r := |s.attempts|, |s.rpcs|;
    FreeKeyIsDispatched(s, key, stream);
    RunKeepsCore(s, Dispatching(a, key, stream));
    var s1 := Run(s, Dispatching(a, key, stream));
    DueIsAccepted(s1, a, Some(a), response);
    RunAppend(s, Dispatching(a, key, stream), Completing(r, key, Some(a), response));
    var s2 := Accepted(s1, a, Some(a), response);
    NoWaiter(s, key);
    AnsweredReturns(s2, a);
    RunAppend(s, Dispatching(a, key, stream) + Completing(r, key, Some(a), response), Returning(a));
  }

  lemma {:induction false} NoWaiter(s: State, key: Key)
    requires CoreInv(s) && key !in s.registry
    ensures key !in s.waiters
  {
    if key in s.waiters { WaiterIsRegistered(s, key); }
  }

  lemma {:induction false} RunKeepsCore(s: State, steps: seq<Step>)
    requires CoreInv(s)
    ensures CoreInv(Run(s, steps))
    decreases steps
  {
    hide CoreInv, Next;
    if steps != [] {
      NextKeepsCore(s, steps[0]);
      RunKeepsCore(Next(s, steps[0]), steps[1..]);
    }
  }

  /******* Draining waits for nobody *******/

  predicate ShutdownStep(step: Step) {
    step.Other? && (step.o.Flag? || step.o.BeginRange? || step.o.VisitRange? || step.o.EndRange?)
  }

  lemma {:induction false} RangeEnds(s: State) returns (steps: seq<Step>)
    requires s.shutdown.Ranging?
    ensures (forall x :: x in steps ==> ShutdownStep(x)) && Run(s, steps).shutdown.Returned?
    decreases s.shutdown.todo
  {
    hide StopKey;
    var first := Other(EndRange);
    if s.shutdown.todo == {} {
      steps := [first];
      assert [first][1..] == [];
    } else {
      var key := Member(s.shutdown.todo);
      first := Other(VisitRange(key));
      var rest := RangeEnds(Next(s, first));
      steps := [first] + rest;
      assert steps[1..] == rest;
    }
  }

  /** Whatever calls, handlers and RPCs are under way, Shutdown returns by its own steps alone. */
  lemma {:induction false} ShutdownResponsive(s: State) returns (steps: seq<Step>)
    requires s.shutdown.Running?
    ensures (forall x :: x in steps ==> ShutdownStep(x)) && Run(s, steps).shutdown.Returned?
  {
    var rest := RangeEnds(Next(Next(s, Other(Flag)), Other(BeginRange)));
    steps := [Other(Flag), Other(BeginRange)] + rest;
    RunAppend(s, [Other(Flag), Other(BeginRange)], rest);
    TwoSteps(s, Other(Flag), Other(BeginRange));
  }

  predicate CloseStep(step: Step, stream: Stream) {
    step.OnStream? && step.stream == stream && (step.h.BeginClose? || step.h.VisitClose? || step.h.EndClose?)
  }

  lemma {:induction false} VisitsEnd(s: State, stream: Stream) returns (steps: seq<Step>)
    requires stream in s.streams && s.streams[stream].Closing?
    ensures (forall x :: x in steps ==> CloseStep(x, stream)) && ClosedFor(Run(s, steps), Some(stream))
    decreases s.streams[stream].todo
  {
    hide StopKey;
    var first := OnStream(stream, EndClose);
    if s.streams[stream].todo == {} {
      steps := [first];
      assert [first][1..] == [];
    } else {
      var key := Member(s.streams[stream].todo);
      first := OnStream(stream, VisitClose(key));
      var rest := VisitsEnd(Next(s, first), stream);
      steps := [first] + rest;
      assert steps[1..] == rest;
    }
  }

  /** Whatever else is under way, an idle stream's handler closes by its own steps alone. */
  lemma {:induction false} CloseResponsive(s: State, stream: Stream) returns (steps: seq<Step>)
    requires stream in s.streams && s.streams[stream].Open?
    ensures (forall x :: x in steps ==> CloseStep(x, stream)) && ClosedFor(Run(s, steps), Some(stream))
  {
    var first := OnStream(stream, BeginClose);
    var rest := VisitsEnd(Next(s, first), stream);
    steps := [first] + rest;
    assert steps[1..] == rest;
  }

  /******* Why an RPC is refused *******/

  predicate Refused(s: State, r: nat) {
    r < |s.rpcs| && s.rpcs[r].phase == Over(false)
  }

  /**
   The step checks an attempt that is terminal, was not dispatched or has another token, or finds nobody
   waiting for the delivery.
   */
  predicate Refuses(s: State, step: Step, r: nat) {
    && r < |s.rpcs| && s.rpcs[r].attempt < |s.attempts|
    && var rpc, x := s.rpcs[r], s.attempts[s.rpcs[r].attempt];
       || (step == OnRpc(r, Check) && rpc.phase.Locked? &&
           (x.terminal || x.stream.None? || (rpc.token.None? && s.strict) ||
            (rpc.token.Some? && rpc.token.value != rpc.attempt)))
       || (step == OnRpc(r, Deliver) && rpc.phase.Admitted? && x.key !in s.waiters)
  }

  lemma {:induction false} OwnStepRefuses(s: State, r: nat, c: RpcStep)
    requires r < |s.rpcs| == |NextRpc(s, r, c).rpcs|
    ensures NextRpc(s, r, c).rpcs[r].phase == Over(false) <==>
            s.rpcs[r].phase == Over(false) || Refuses(s, OnRpc(r, c), r)
  {
    hide SameTables;
  }

  lemma {:induction false} NextRefuses(s: State, step: Step, r: nat)
    ensures Refused(Next(s, step), r) <==> Refused(s, r) || Refuses(s, step, r)
  {
    hide NextExecute, NextStream, NextRpc, NextOther;
    match step
    case Execute(e) => ExecuteKeepsTerminal(s, e);
    case OnStream(stream, h) => StreamKeepsTerminal(s, stream, h);
    case OnRpc(q, c) =>
      RpcMoves(s, q, c);
      if r == q && r < |s.rpcs| { OwnStepRefuses(s, r, c); }
    case Other(o) => OtherMoves(s, o); assert s.rpcs[..|s.rpcs|] == s.rpcs;
  }

  lemma {:induction false} RunRefuses(s: State, steps: seq<Step>, r: nat)
    ensures Refused(Run(s, steps), r) <==>
            Refused(s, r) || exists k :: 0 <= k < |steps| && Refuses(Run(s, steps[..k]), steps[k], r)
    decreases |steps|
  {
    hide Next, Refuses, Refused;
    if steps != [] {
      var n := |steps| - 1;
      var front := steps[..n];
      assert steps == front + [steps[n]];
      RunSnoc(s, front, steps[n]);
      NextRefuses(Run(s, front), steps[n], r);
      RunRefuses(s, front, r);
      assert forall k :: 0 <= k < n ==> front[..k] == steps[..k] && front[k] == steps[k];
    }
  }

  /** In every interleaving an RPC is refused if and only if one of its steps met one of these reasons. */
  lemma {:induction false} RefusedForReason(strict: bool, steps: seq<Step>, r: nat)
    ensures Refused(Run(Init(strict), steps), r) <==>
            exists k :: 0 <= k < |steps| && Refuses(Run(Init(strict), steps[..k]), steps[k], r)
  {
    RunRefuses(Init(strict), steps, r);
  }
}
