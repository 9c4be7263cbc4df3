/**
 Recursive purge (backend/backend.go:198-260 and 312-342).

 The store holds the local instances. Purging an instance of another application is one request to
 that application: what it answers is a parameter, and remotePurged counts what was purged there.
 */
module Purge {
  import opened Work
  import opened RuntimeStates
  import Processor

  datatype Error = Ok | NotFound | NotCompleted | OtherError

  /** A stored instance; events are its committed history, without which it does not exist. */
  type Instance = i: Record | i.events != [] witness Record([WorkflowStarted], false)

  datatype Record = Record(events: seq<Event>, completed: bool)

  datatype Reply = Reply(count: nat, error: Error)

  predicate IsRemote(router: Router) {
    router.targetAppID != ""
  }

  /** The children of an instance that live in this store. */
  function LocalChildren(i: Instance): set<string> {
    set c | c in Processor.Children(i.events) && !IsRemote(Processor.Children(i.events)[c])
  }

  /** Local instances only start local instances of lower rank, so the walk is finite. */
  ghost predicate Acyclic(instances: map<string, Instance>, rank: string -> nat) {
    forall p, c :: p in instances && c in LocalChildren(instances[p]) ==> rank(c) < rank(p)
  }

  /** What is left is what was there, minus some instances. */
  ghost predicate Left(now: map<string, Instance>, before: map<string, Instance>) {
    now.Keys <= before.Keys && forall k :: k in now ==> now[k] == before[k]
  }

  /** An instance is gone only if its local children are gone. */
  ghost predicate ChildrenFirst(now: map<string, Instance>, before: map<string, Instance>) {
    forall p, c :: p in before && p !in now && c in LocalChildren(before[p]) ==> c !in now
  }

  lemma LeftTransitive(a: map<string, Instance>, b: map<string, Instance>, c: map<string, Instance>)
    requires Left(a, b) && Left(b, c) && ChildrenFirst(a, b) && ChildrenFirst(b, c)
    ensures Left(a, c) && ChildrenFirst(a, c)
  {
    forall p, k | p in c && p !in a && k in LocalChildren(c[p]) ensures k !in a {
      if p in b { assert b[p] == c[p]; } else { assert k !in b; }
    }
  }

  lemma LeftAcyclic(a: map<string, Instance>, b: map<string, Instance>, rank: string -> nat)
    requires Left(a, b) && Acyclic(b, rank)
    ensures Acyclic(a, rank)
  {
  }

  lemma NothingLeftYet(a: map<string, Instance>)
    ensures Left(a, a) && ChildrenFirst(a, a)
  {
  }

  lemma LeftKeys(a: map<string, Instance>, b: map<string, Instance>)
    requires Left(a, b)
    ensures a.Keys <= b.Keys
  {
  }

  lemma ChildRanks(instances: map<string, Instance>, rank: string -> nat, p: string, c: string)
    requires Acyclic(instances, rank) && p in instances && c in LocalChildren(instances[p])
    ensures rank(c) < rank(p)
  {
  }

  /** A walk from parent to local child. */
  ghost predicate Path(instances: map<string, Instance>, path: seq<string>) {
    path != [] &&
    forall i :: 0 <= i < |path| - 1 ==> path[i] in instances && path[i + 1] in LocalChildren(instances[path[i]])
  }

  ghost predicate Reaches(instances: map<string, Instance>, root: string, x: string) {
    exists path :: Path(instances, path) && path[0] == root && path[|path| - 1] == x
  }

  /** Only the root and its local descendants are gone. */
  ghost predicate OnlyBelow(now: map<string, Instance>, before: map<string, Instance>, root: string) {
    forall x :: x in before && x !in now ==> Reaches(before, root, x)
  }

  lemma {:induction false} ReachesSelf(instances: map<string, Instance>, root: string)
    ensures Reaches(instances, root, root)
  {
    assert Path(instances, [root]);
  }

  /** What a child reaches in a smaller store, its parent reaches in a larger one. */
  lemma {:induction false} ReachesThrough(now: map<string, Instance>, before: map<string, Instance>, root: string,
                                          child: string, x: string)
    requires Left(now, before) && root in before && child in LocalChildren(before[root]) && Reaches(now, child, x)
    ensures Reaches(before, root, x)
  {
    var path :| Path(now, path) && path[0] == child && path[|path| - 1] == x;
    var longer := [root] + path;
    forall i | 0 <= i < |longer| - 1 ensures longer[i] in before && longer[i + 1] in LocalChildren(before[longer[i]]) {
      if i > 0 { assert longer[i] == path[i - 1] && longer[i + 1] == path[i]; }
    }
    assert Path(before, longer) && longer[|longer| - 1] == x;
  }

  lemma {:induction false} BelowThroughChild(a: map<string, Instance>, b: map<string, Instance>, c: map<string,
                                             Instance>,
                                             root: string, child: string)
    requires Left(b, c) && OnlyBelow(b, c, root) && OnlyBelow(a, b, child)
    requires root in c && child in LocalChildren(c[root])
    ensures OnlyBelow(a, c, root)
  {
    hide Reaches;
    forall x | x in c && x !in a ensures Reaches(c, root, x) {
      if x in b { ReachesThrough(b, c, root, child, x); }
    }
  }

  lemma {:induction false} BelowAndRoot(a: map<string, Instance>, b: map<string, Instance>, c: map<string, Instance>,
                                        root: string)
    requires OnlyBelow(b, c, root) && (a == b || a == b - {root})
    ensures OnlyBelow(a, c, root)
  {
    hide Reaches;
    ReachesSelf(c, root);
  }

  /** Every local descendant of a purged instance is purged with it. */
  lemma {:induction false} DescendantsGone(now: map<string, Instance>, before: map<string, Instance>, path: seq<string>)
    requires ChildrenFirst(now, before) && Path(before, path) && path[0] in before && path[0] !in now
    ensures path[|path| - 1] !in now
    decreases |path|
  {
    if |path| > 1 {
      var front := path[..|path| - 1];
      DescendantsGone(now, before, front);
      assert path[|path| - 1] in LocalChildren(before[path[|path| - 2]]);
    }
  }

  /** Everything gone ranks below the root. */
  ghost predicate GoneBelow(now: map<string, Instance>, before: map<string, Instance>, rank: string -> nat,
                            root: string) {
    forall x :: x in before && x !in now ==> rank(x) < rank(root)
  }

  /** Everything gone ranks no higher than the root. */
  ghost predicate GoneUpTo(now: map<string, Instance>, before: map<string, Instance>, rank: string -> nat,
                           root: string) {
    forall x :: x in before && x !in now ==> rank(x) <= rank(root)
  }

  /** Every local descendant of a purged instance is purged with it. */
  lemma {:induction false} ReachedGone(now: map<string, Instance>, before: map<string, Instance>, root: string)
    requires ChildrenFirst(now, before) && root in before && root !in now
    ensures forall x :: Reaches(before, root, x) ==> x !in now
  {
    forall x | Reaches(before, root, x) ensures x !in now {
      var path :| Path(before, path) && path[0] == root && path[|path| - 1] == x;
      DescendantsGone(now, before, path);
    }
  }

  /** Purging the root itself, after its children or on its own. */
  lemma {:induction false} RootGone(now: map<string, Instance>, mid: map<string, Instance>,
                                    before: map<string, Instance>, root: string, rank: string -> nat)
    requires Left(mid, before) && (now == mid || now == mid - {root}) && GoneBelow(mid, before, rank, root)
    ensures Left(now, before) && GoneUpTo(now, before, rank, root)
    ensures ChildrenFirst(mid, before) &&
            (root in before ==> forall c :: c in LocalChildren(before[root]) ==> c !in mid) ==>
      ChildrenFirst(now, before)
  {
    hide Reaches;
  }

  lemma NothingGone(a: map<string, Instance>, rank: string -> nat, root: string)
    ensures Left(a, a) && ChildrenFirst(a, a) && GoneBelow(a, a, rank, root)
    ensures OnlyBelow(a, a, root) && GoneUpTo(a, a, rank, root)
  {
  }

  lemma GoneMore(now: map<string, Instance>, before: map<string, Instance>, rank: string -> nat, root: string)
    requires GoneBelow(now, before, rank, root)
    ensures GoneUpTo(now, before, rank, root)
  {
  }

  lemma StillThere(now: map<string, Instance>, before: map<string, Instance>, rank: string -> nat, root: string)
    requires Left(now, before) && GoneBelow(now, before, rank, root) && root in before
    ensures root in now && now[root] == before[root]
  {
  }

  class Store {
    var instances: map<string, Instance>
    var requests: nat
    ghost var remotePurged: nat

    /** How this store's own operations fail, by the number of the request. */
    const fetchFails: (nat, string) -> bool
    const purgeFails: (nat, string) -> bool
    const remote: (nat, string) -> Reply

    constructor (instances: map<string, Instance>, fetchFails: (nat, string) -> bool,
                 purgeFails: (nat, string) -> bool, remote: (nat, string) -> Reply)
      ensures this.instances == instances && remotePurged == 0
    {
      this.instances, this.fetchFails, this.purgeFails, this.remote := instances, fetchFails, purgeFails, remote;
      requests, remotePurged := 0, 0;
    }

    /**
     Nothing stands in the way of purging the root with all below it: no operation on a local descendant fails, its
     remote children are purged or gone, and it may be purged.
     */
    ghost predicate Unhindered(instances: map<string, Instance>, root: string, force: bool) {
      forall x :: Reaches(instances, root, x) ==>
        && (forall n :: !fetchFails(n, x) && !purgeFails(n, x))
        && (x in instances ==>
              && (force || instances[x].completed)
              && (forall n, c :: c in Processor.Children(instances[x].events) ==>
                    remote(n, c).error == Ok || remote(n, c).error == NotFound))
    }

    lemma {:induction false} UnhinderedAt(instances: map<string, Instance>, root: string, force: bool)
      requires Unhindered(instances, root, force)
      ensures forall n :: !fetchFails(n, root) && !purgeFails(n, root)
      ensures root in instances ==>
        && (force || instances[root].completed)
        && (forall n, c :: c in Processor.Children(instances[root].events) ==>
              remote(n, c).error == Ok || remote(n, c).error == NotFound)
    {
      ReachesSelf(instances, root);
    }

    lemma {:induction false} RootUnhindered(instances: map<string, Instance>, root: string, force: bool)
      requires Unhindered(instances, root, force)
      ensures forall n :: !fetchFails(n, root) && !purgeFails(n, root)
      ensures root in instances ==> force || instances[root].completed
    {
      ReachesSelf(instances, root);
    }

    lemma {:induction false} UnhinderedBelow(now: map<string, Instance>, before: map<string, Instance>, root: string,
                                             child: string, force: bool)
      requires Unhindered(before, root, force) && Left(now, before)
      requires root in before && child in LocalChildren(before[root])
      ensures Unhindered(now, child, force)
    {
      hide Reaches;
      forall x | Reaches(now, child, x) ensures Reaches(before, root, x) {
        ReachesThrough(now, before, root, child, x);
      }
    }

    /** Removes exactly one instance, or changes nothing. */
    method PurgeOne(iid: string, force: bool) returns (count: nat, error: Error)
      modifies this`instances, this`requests
      ensures error == Ok ==> iid in old(instances) && count == 1 && instances == old(instances) - {iid}
      ensures error != Ok ==> count == 0 && instances == old(instances)
      ensures count == |old(instances)| - |instances|
      ensures error == NotFound ==> iid !in instances
      ensures iid in old(instances) && (force || old(instances)[iid].completed) && (forall n :: !purgeFails(n, iid)) ==>
        error == Ok
      ensures iid !in old(instances) && (forall n :: !purgeFails(n, iid)) ==> error == NotFound
      ensures !force && iid in old(instances) && !old(instances)[iid].completed ==> error != Ok
    {
      requests := requests + 1;
      count := 0;
      if purgeFails(requests, iid) { return 0, OtherError; }
      if iid !in instances { return 0, NotFound; }
      if !force && !instances[iid].completed { return 0, NotCompleted; }
      instances := instances - {iid};
      return 1, Ok;
    }

    /** Asks another application to purge a whole subtree. */
    method PurgeRemote(iid: string) returns (count: nat, error: Error)
      modifies this`requests, this`remotePurged
      ensures remotePurged == old(remotePurged) + count
      ensures (forall n :: remote(n, iid).error == Ok || remote(n, iid).error == NotFound) ==>
        error == Ok || error == NotFound
    {
      requests := requests + 1;
      var reply := remote(requests, iid);
      remotePurged := remotePurged + reply.count;
      return reply.count, reply.error;
    }

    /** Purges the children of an instance in any order; a child that is already gone does not matter. */
    method PurgeChildren(iid: string, force: bool, ghost rank: string -> nat) returns (count: nat, error: Error)
      requires Acyclic(instances, rank) && iid in instances
      modifies this
      ensures count == |old(instances)| - |instances| + remotePurged - old(remotePurged)
      ensures Left(instances, old(instances)) && ChildrenFirst(instances, old(instances)) && error != NotFound
      ensures error == Ok ==> forall c :: c in LocalChildren(old(instances)[iid]) ==> c !in instances
      ensures OnlyBelow(instances, old(instances), iid) && GoneBelow(instances, old(instances), rank, iid)
      ensures Unhindered(old(instances), iid, force) ==> error == Ok
      decreases rank(iid), 0
    {
      hide Acyclic, Left, ChildrenFirst, Reaches, Unhindered;
      ghost var before := instances;
      var children := Processor.GetChildWorkflowInstances(instances[iid].events, []);
      assert instances[iid].events + [] == instances[iid].events;
      NothingLeftYet(before);
      count, error := 0, Ok;
      var rest := children.Keys;
      while rest != {}
        invariant rest <= children.Keys && children == Processor.Children(before[iid].events) && error == Ok
        invariant count == |before| - |instances| + remotePurged - old(remotePurged)
        invariant Left(instances, before) && ChildrenFirst(instances, before) && OnlyBelow(instances, before, iid)
        invariant GoneBelow(instances, before, rank, iid)
        invariant forall c :: c in LocalChildren(before[iid]) && c !in rest ==> c !in instances
        decreases rest
      {
        var child := Pick(rest);
        rest := rest - {child};
        var n;
        ghost var mid := instances;
        if Unhindered(before, iid, force) { UnhinderedAt(before, iid, force); }
        if IsRemote(children[child]) {
          n, error := PurgeRemote(child);
        } else {
          LeftAcyclic(mid, before, rank);
          ChildRanks(before, rank, iid, child);
          if Unhindered(before, iid, force) { UnhinderedBelow(mid, before, iid, child, force); }
          n, error := PurgeWorkflowState(child, Router(""), true, force, rank);
          LeftTransitive(instances, mid, before);
          BelowThroughChild(instances, mid, before, iid, child);
          LeftKeys(instances, mid);
        }
        count := count + n;
        if error != Ok && error != NotFound { return; }
        error := Ok;
      }
    }

    /** Purges all that is below an instance which exists and may be purged. */
    method PurgeBelow(iid: string, force: bool, ghost rank: string -> nat) returns (count: nat, error: Error)
      requires Acyclic(instances, rank)
      modifies this
      ensures count == |old(instances)| - |instances| + remotePurged - old(remotePurged)
      ensures Left(instances, old(instances)) && ChildrenFirst(instances, old(instances))
      ensures OnlyBelow(instances, old(instances), iid) && GoneBelow(instances, old(instances), rank, iid)
      ensures error == NotFound ==> iid !in instances
      ensures error == Ok ==>
        && iid in old(instances) && iid in instances && instances[iid] == old(instances)[iid]
        && (force || instances[iid].completed)
        && (forall c :: c in LocalChildren(old(instances)[iid]) ==> c !in instances)
      ensures Unhindered(old(instances), iid, force) ==> error == if iid in old(instances) then Ok else NotFound
      ensures !force && iid in old(instances) && !old(instances)[iid].completed ==> instances == old(instances)
      decreases rank(iid), 1
    {
      hide Acyclic, Reaches, Unhindered, Left, ChildrenFirst, OnlyBelow, GoneBelow;
      NothingGone(instances, rank, iid);
      if Unhindered(instances, iid, force) { RootUnhindered(instances, iid, force); }
      requests := requests + 1;
      if fetchFails(requests, iid) { return 0, OtherError; }
      if iid !in instances { return 0, NotFound; }
      if !force && !instances[iid].completed { return 0, NotCompleted; }
      count, error := PurgeChildren(iid, force, rank);
      StillThere(instances, old(instances), rank, iid);
    }

    /** Purges an instance and, if recursive, its children first. The count is what was purged, however it ends. */
    method PurgeWorkflowState(iid: string, router: Router, recursive: bool, force: bool, ghost rank: string -> nat)
      returns (count: nat, error: Error)
      requires Acyclic(instances, rank)
      modifies this
      ensures count == |old(instances)| - |instances| + remotePurged - old(remotePurged)
      ensures Left(instances, old(instances)) && (recursive ==> ChildrenFirst(instances, old(instances)))
      ensures OnlyBelow(instances, old(instances), iid) && GoneUpTo(instances, old(instances), rank, iid)
      ensures IsRemote(router) ==> instances == old(instances)
      ensures !recursive ==> old(instances).Keys - {iid} <= instances.Keys
      ensures !IsRemote(router) && (error == Ok || error == NotFound) ==> iid !in instances
      ensures !IsRemote(router) && Unhindered(old(instances), iid, force) ==>
        if iid !in old(instances) then error == NotFound
        else error == Ok && (recursive ==> forall x :: Reaches(old(instances), iid, x) ==> x !in instances)
      ensures !IsRemote(router) && !force && iid in old(instances) && !old(instances)[iid].completed ==>
        error != Ok && instances == old(instances)
      decreases rank(iid), 2
    {
      hide Acyclic, Reaches, Unhindered, Left, ChildrenFirst, OnlyBelow, GoneBelow, GoneUpTo, LocalChildren, IsRemote;
      ghost var before := instances;
      NothingGone(before, rank, iid);
      if Unhindered(before, iid, force) { RootUnhindered(before, iid, force); }
      if IsRemote(router) {
        count, error := PurgeRemote(iid);
        return;
      }
      count := 0;
      if recursive {
        count, error := PurgeBelow(iid, force, rank);
        if error != Ok {
          GoneMore(instances, before, rank, iid);
          return;
        }
      }
      var one;
      ghost var mid := instances;
      one, error := PurgeOne(iid, force);
      RootGone(instances, mid, before, iid, rank);
      BelowAndRoot(instances, mid, before, iid);
      count := count + one;
      if recursive && error == Ok { ReachedGone(instances, before, iid); }
    }
  }
}
