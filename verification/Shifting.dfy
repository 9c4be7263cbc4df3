/** Moving later numbers down one by one, as the engine does when it drops an optional timer. */
module Shifting {
  import opened Work
  import N = Numbering

  function Above(k: int): int {
    k + 1
  }

  /** The numbers in done have been moved down by one. */
  function Moved<T>(m: map<int, T>, done: set<int>): map<int, T>
    requires done <= m.Keys
  {
    map k | k in (m.Keys - done) + (set d | d in done :: d - 1) :: if Above(k) in done then m[Above(k)] else m[k]
  }

  lemma MovedStart<T>(m: map<int, T>)
    ensures Moved(m, {}) == m
  {
  }

  lemma MovedStep<T>(m: map<int, T>, done: set<int>, id: int)
    requires done <= m.Keys && id in m && forall d :: d in done ==> d < id
    ensures id in Moved(m, done) && Moved(m, done)[id] == m[id]
    ensures (Moved(m, done) - {id})[id - 1 := m[id]] == Moved(m, done + {id})
  {
    var a, b := (Moved(m, done) - {id})[id - 1 := m[id]], Moved(m, done + {id});
    assert id - 1 in (set d | d in done + {id} :: d - 1);
    forall k ensures k in a <==> k in b {
      if k in (set d | d in done + {id} :: d - 1) && k != id - 1 {
        var d :| d in done + {id} && k == d - 1;
        assert d in done;
      }
    }
  }

  lemma MovedEnd<T>(full: map<int, T>, at: int)
    ensures var m := full - {at};
            Moved(m, Later(m, at)) == N.ShiftMap(full, at)
  {
    var m := full - {at};
    var done := Later(m, at);
    forall k ensures k in Moved(m, done) <==> k in N.ShiftMap(full, at) {
      MovedEndAt(full, at, k);
    }
    forall k | k in Moved(m, done) ensures Moved(m, done)[k] == N.ShiftMap(full, at)[k] {
      MovedEndAt(full, at, k);
    }
  }

  lemma MovedEndAt<T>(full: map<int, T>, at: int, k: int)
    ensures var m := full - {at};
            var a, b := Moved(m, Later(m, at)), N.ShiftMap(full, at);
            (k in a <==> k in b) && (k in a ==> a[k] == b[k])
  {
    var m := full - {at};
    var done := Later(m, at);
    assert N.UnshiftedId(at, k) == if k >= at then Above(k) else k;
    if Above(k) in done {
      assert k in (set d | d in done :: d - 1) by { assert k == Above(k) - 1; }
    }
  }

  lemma RenumberedStep(m: map<int, Action>, done: set<int>, id: int)
    requires done <= m.Keys && id in m && forall d :: d in done ==> d < id
    ensures var r := N.Renumber(Moved(m, done));
            id in r && (r - {id})[id - 1 := r[id].(id := id - 1)] == N.Renumber(Moved(m, done + {id}))
  {
    MovedStep(m, done, id);
  }

  lemma RenumberedStart(m: map<int, Action>)
    requires forall k :: k in m ==> m[k].id == k
    ensures N.Renumber(Moved(m, {})) == m
  {
    MovedStart(m);
  }

  function MovedKeys(keys: set<int>, done: set<int>): set<int> {
    set k | k in keys :: if k in done then k - 1 else k
  }

  lemma MovedKeysStart(keys: set<int>)
    ensures MovedKeys(keys, {}) == keys
  {
    var none: set<int> := {};
    forall k | k in keys ensures k in MovedKeys(keys, none) {
      assert k == if k in none then k - 1 else k;
    }
  }

  lemma MovedKeysStep(keys: set<int>, done: set<int>, id: int)
    requires forall d :: d in done ==> d < id
    ensures id in MovedKeys(keys, done) <==> id in keys
    ensures MovedKeys(keys, done + {id}) ==
      if id in keys then MovedKeys(keys, done) - {id} + {id - 1} else MovedKeys(keys, done)
  {
    var a, b := MovedKeys(keys, done), MovedKeys(keys, done + {id});
    if id in keys {
      forall k | k in a && k != id ensures k in b {
        var d :| d in keys && k == if d in done then d - 1 else d;
        assert k == if d in done + {id} then d - 1 else d;
      }
      assert id - 1 in b by { assert id - 1 == if id in done + {id} then id - 1 else id; }
      assert id !in b;
    } else {
      forall k | k in a ensures k in b {
        var d :| d in keys && k == if d in done then d - 1 else d;
        assert k == if d in done + {id} then d - 1 else d;
      }
    }
  }

  lemma MovedKeysEnd(keys: set<int>, at: int, done: set<int>)
    requires forall k :: k in keys && k != at ==> (k in done <==> k > at)
    ensures MovedKeys(keys - {at}, done) == N.ShiftKeys(keys, at)
  {
    var a, b := MovedKeys(keys - {at}, done), N.ShiftKeys(keys, at);
    forall k | k in b ensures k in a {
      var d :| d in keys && d != at && k == N.ShiftedId(at, d);
      assert k == if d in done then d - 1 else d;
    }
  }

  lemma FirstOf(b: seq<int>) returns (x: int)
    requires b != []
    ensures x in b
  {
    x := b[0];
  }

  lemma {:induction false} SortedUnique(a: seq<int>, b: seq<int>)
    requires N.Sorted(a) && N.Sorted(b) && forall x :: x in a <==> x in b
    ensures a == b
  {
    if a == [] {
      if b != [] { var x := FirstOf(b); }
    } else {
      assert a[|a| - 1] in a;
      assert b[|b| - 1] in b;
      var la, lb := a[|a| - 1], b[|b| - 1];
      LastIsMax(a, lb);
      LastIsMax(b, la);
      var fa, fb := a[..|a| - 1], b[..|b| - 1];
      forall x ensures x in fa <==> x in fb {
        assert x in fa <==> x in a && x != la by { InFront(a, x); }
        assert x in fb <==> x in b && x != lb by { InFront(b, x); }
      }
      SortedUnique(fa, fb);
      assert a == fa + [la] && b == fb + [lb];
    }
  }

  lemma LastIsMax(a: seq<int>, x: int)
    requires N.Sorted(a) && x in a
    ensures x <= a[|a| - 1]
  {
  }

  lemma InFront(a: seq<int>, x: int)
    requires N.Sorted(a) && a != []
    ensures x in a[..|a| - 1] <==> x in a && x != a[|a| - 1]
  {
    if x in a && x != a[|a| - 1] {
      var i :| 0 <= i < |a| && a[i] == x;
      assert a[..|a| - 1][i] == x;
    }
  }

  function Decremented(ids: seq<int>): seq<int> {
    seq(|ids|, i requires 0 <= i < |ids| => ids[i] - 1)
  }

  /** The numbers that were moved, in their new numbering. */
  lemma MovedIds<T>(full: map<int, T>, at: int)
    ensures var ids := N.Ascending(Later(full - {at}, at));
            Decremented(ids) == N.Ascending(set k | k in N.ShiftMap(full, at) && k >= at)
  {
    var later := Later(full - {at}, at);
    var ids := N.Ascending(later);
    var shifted := set k | k in N.ShiftMap(full, at) && k >= at;
    var a := Decremented(ids);
    forall x ensures x in a <==> x in shifted {
      if x in a {
        var i :| 0 <= i < |a| && a[i] == x;
        assert ids[i] in later;
      }
      if x in shifted {
        assert x + 1 in later;
        var i :| 0 <= i < |ids| && ids[i] == x + 1;
        assert a[i] == x;
      }
    }
    SortedUnique(a, N.Ascending(shifted));
  }

  function Later<T>(m: map<int, T>, at: int): set<int> {
    set k | k in m && k > at
  }

  function Members(ids: seq<int>): set<int> {
    set k | k in ids
  }

  lemma TakenNext(ids: seq<int>, i: nat)
    requires N.Sorted(ids) && i < |ids|
    ensures forall d :: d in Members(ids[..i]) ==> d < ids[i]
    ensures Members(ids[..i + 1]) == Members(ids[..i]) + {ids[i]}
  {
    assert ids[..i + 1] == ids[..i] + [ids[i]];
  }

  lemma TakenFrom(s: set<int>)
    ensures var ids := N.Ascending(s);
            && N.Sorted(ids)
            && Members(ids[..0]) == {} && Members(ids[..|ids|]) == s
            && forall i :: 0 <= i < |ids| ==> ids[i] in s
  {
    var ids := N.Ascending(s);
    assert ids[..|ids|] == ids;
  }
}
