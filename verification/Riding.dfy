// Who rides on whom. `up` maps each rider to its vehicle and `dn` each vehicle to its rider, for the
// rides on which both ends agree; EntityManager::Tick walks `dn` from the entities that ride nothing.
module Riding {
  import opened Sequences

  ghost predicate Mutual<T>(up: map<T, T>, dn: map<T, T>)
  {
    && (forall e :: e in up ==> up[e] in dn && dn[up[e]] == e)
    && (forall v :: v in dn ==> dn[v] in up && up[dn[v]] == v)
  }

  // The vehicle n steps up from e.
  function Climb<T(==)>(up: map<T, T>, e: T, n: nat): Option<T>
  {
    if n == 0 then Some(e) else if e in up then Climb(up, up[e], n - 1) else None
  }

  // Climbing from e ends at an entity that rides nothing.
  ghost predicate Rooted<T>(up: map<T, T>, e: T)
  {
    exists n: nat :: Climb(up, e, n).Some? && Climb(up, e, n).value !in up
  }

  ghost predicate OnCycle<T>(up: map<T, T>, e: T) { exists n: nat :: n > 0 && Climb(up, e, n) == Some(e) }

  // ----- climbing -----

  lemma {:induction false} ClimbAdds<T>(up: map<T, T>, e: T, m: nat, n: nat)
    requires Climb(up, e, m).Some?
    ensures Climb(up, e, m + n) == Climb(up, Climb(up, e, m).value, n)
    decreases m
  {
    if m > 0 { ClimbAdds(up, up[e], m - 1, n); }
  }

  lemma {:induction false} ClimbsBefore<T>(up: map<T, T>, e: T, m: nat, n: nat)
    requires m <= n && Climb(up, e, n).Some?
    ensures Climb(up, e, m).Some?
    ensures m < n ==> Climb(up, e, m).value in up
    decreases m
  {
    if m > 0 { ClimbsBefore(up, up[e], m - 1, n - 1); }
  }

  // Rides are one to one, so climbs that meet have come the same way.
  lemma {:induction false} ClimbsPeel<T>(up: map<T, T>, dn: map<T, T>, e: T, i: nat, j: nat)
    requires Mutual(up, dn) && i <= j && Climb(up, e, j).Some? && Climb(up, e, i) == Climb(up, e, j)
    ensures Climb(up, e, j - i) == Some(e)
    decreases i
  {
    if i > 0 {
      ClimbsBefore(up, e, i - 1, j);
      ClimbsBefore(up, e, j - 1, j);
      ClimbAdds(up, e, i - 1, 1);
      ClimbAdds(up, e, j - 1, 1);
      var a, b := Climb(up, e, i - 1).value, Climb(up, e, j - 1).value;
      assert a in up by { ClimbsBefore(up, e, i - 1, i); }
      assert b in up;
      assert Climb(up, a, 1) == Some(up[a]) && Climb(up, b, 1) == Some(up[b]) by {
        assert Climb(up, up[a], 0) == Some(up[a]) && Climb(up, up[b], 0) == Some(up[b]);
      }
      assert up[a] == up[b];
      assert dn[up[a]] == a && dn[up[b]] == b;
      ClimbsPeel(up, dn, e, i - 1, j - 1);
    }
  }

  lemma {:induction false} UnrootedClimbsForever<T>(up: map<T, T>, e: T, n: nat)
    requires !Rooted(up, e)
    ensures Climb(up, e, n).Some?
  {
    if n > 0 {
      UnrootedClimbsForever(up, e, n - 1);
      var a := Climb(up, e, n - 1).value;
      assert a in up;
      ClimbAdds(up, e, n - 1, 1);
      assert Climb(up, a, 1) == Climb(up, up[a], 0);
    }
  }

  lemma {:induction false} ClimbStaysInside<T>(up: map<T, T>, all: set<T>, e: T, n: nat)
    requires up.Values <= all && e in all && Climb(up, e, n).Some?
    ensures Climb(up, e, n).value in all
    decreases n
  {
    if n > 0 {
      assert up[e] in up.Values;
      ClimbStaysInside(up, all, up[e], n - 1);
    }
  }

  lemma {:induction false} CycleClimbsForever<T>(up: map<T, T>, e: T, n: nat, k: nat)
    requires n > 0 && Climb(up, e, n) == Some(e)
    ensures Climb(up, e, k).Some?
    decreases k
  {
    if k <= n {
      ClimbsBefore(up, e, k, n);
    } else {
      CycleClimbsForever(up, e, n, k - n);
      ClimbAdds(up, e, n, k - n);
    }
  }

  // Among finitely many entities, climbing from e ends if and only if e is not on a ride cycle.
  lemma RootedOrOnCycle<T>(up: map<T, T>, dn: map<T, T>, all: set<T>, e: T)
    requires Mutual(up, dn) && up.Values <= all && e in all
    ensures Rooted(up, e) <==> !OnCycle(up, e)
  {
    if !Rooted(up, e) {
      var q := Climbs(up, e, |all| + 1);
      forall n | 0 <= n <= |all| ensures q[n] in all {
        UnrootedClimbsForever(up, e, n);
        ClimbStaysInside(up, all, e, n);
      }
      Pigeonhole(q, all);
      var i, j :| 0 <= i < j < |q| && q[i] == q[j];
      UnrootedClimbsForever(up, e, i);
      UnrootedClimbsForever(up, e, j);
      ClimbsPeel(up, dn, e, i, j);
    } else if OnCycle(up, e) {
      var n: nat :| n > 0 && Climb(up, e, n) == Some(e);
      var m: nat :| Climb(up, e, m).Some? && Climb(up, e, m).value !in up;
      CycleClimbsForever(up, e, n, m + 1);
      ClimbsBefore(up, e, m, m + 1);
    }
  }

  ghost function Climbs<T>(up: map<T, T>, e: T, n: nat): seq<T>
  {
    seq(n, k => if k >= 0 && Climb(up, e, k).Some? then Climb(up, e, k).value else e)
  }

  // ----- trails -----

  // A walk down from an entity that rides nothing.
  ghost predicate IsTrail<T>(up: map<T, T>, dn: map<T, T>, p: seq<T>)
  {
    && p != [] && p[0] !in up
    && forall i :: 0 <= i < |p| - 1 ==> p[i] in dn && p[i + 1] == dn[p[i]]
  }

  lemma TrailStep<T>(up: map<T, T>, dn: map<T, T>, p: seq<T>, k: nat)
    requires Mutual(up, dn) && IsTrail(up, dn, p) && 0 < k < |p|
    ensures p[k] in up && up[p[k]] == p[k - 1]
  {
    assert p[k - 1] in dn && p[k - 1 + 1] == dn[p[k - 1]];
  }

  // Such a walk never comes back to where it has been.
  lemma {:induction false} TrailsDoNotRevisit<T>(up: map<T, T>, dn: map<T, T>, p: seq<T>)
    requires Mutual(up, dn) && IsTrail(up, dn, p)
    ensures NoDup(p)
    decreases |p|
  {
    if |p| > 1 {
      var n := |p| - 1;
      var front := p[..n];
      TrailsDoNotRevisit(up, dn, front);
      TrailStep(up, dn, p, n);
      forall k | 0 <= k < n ensures p[k] != p[n] {
        if k > 0 {
          TrailStep(up, dn, p, k);
          assert front[k - 1] != front[n - 1];
        }
      }
      assert forall i, j :: 0 <= i < j < n ==> p[i] == front[i] && p[j] == front[j];
    }
  }

  // So the recursion from vehicle to passenger ends: a trail has at most as many stops as there are
  // entities.
  lemma TrailsAreShort<T>(up: map<T, T>, dn: map<T, T>, all: set<T>, p: seq<T>)
    requires Mutual(up, dn) && IsTrail(up, dn, p) && forall x :: x in p ==> x in all
    ensures |p| <= |all|
  {
    TrailsDoNotRevisit(up, dn, p);
    if |p| > |all| { Pigeonhole(p, all); }
  }

  // Extend a trail to the end.
  function Grow<T(==)>(dn: map<T, T>, p: seq<T>, left: nat): (r: seq<T>)
    requires p != []
    ensures p <= r
    decreases left
  {
    var last := p[|p| - 1];
    if last in dn && left > 0 then Grow(dn, p + [dn[last]], left - 1) else p
  }

  // The whole chain that starts at r.
  function Chain<T(==)>(dn: map<T, T>, all: set<T>, r: T): seq<T> { Grow(dn, [r], |all|) }

  lemma {:induction false} GrowReachesTheEnd<T>(up: map<T, T>, dn: map<T, T>, all: set<T>, p: seq<T>, left: nat)
    requires Mutual(up, dn) && IsTrail(up, dn, p) && dn.Values <= all && (forall x :: x in p ==> x in all)
    requires |p| + left > |all|
    ensures var r := Grow(dn, p, left);
            IsTrail(up, dn, r) && r[|r| - 1] !in dn && (forall x :: x in r ==> x in all)
    decreases left
  {
    TrailsAreShort(up, dn, all, p);
    var last := p[|p| - 1];
    if last in dn {
      hide IsTrail, Mutual;
      GrowReachesTheEnd(up, dn, all, p + [dn[last]], left - 1);
    }
  }

  // A walk among live entities has reached e.
  ghost predicate OnTrail<T>(up: map<T, T>, dn: map<T, T>, all: set<T>, trail: seq<T>, e: T)
  {
    IsTrail(up, dn, trail) && trail[|trail| - 1] == e && forall x :: x in trail ==> x in all
  }

  // What is still to be visited, counting the last entity of `trail`.
  ghost function Below<T>(dn: map<T, T>, all: set<T>, trail: seq<T>): seq<T>
  {
    if 0 < |trail| <= |all| then Grow(dn, trail, |all| + 1 - |trail|)[|trail| - 1..] else []
  }

  // The recursion from vehicle to passenger makes progress and visits in this order.
  lemma BelowUnfolds<T>(up: map<T, T>, dn: map<T, T>, all: set<T>, trail: seq<T>, e: T)
    requires Mutual(up, dn) && dn.Values <= all && OnTrail(up, dn, all, trail, e)
    ensures |trail| <= |all| && e in all
    ensures e !in dn ==> Below(dn, all, trail) == [e]
    ensures e in dn ==>
              OnTrail(up, dn, all, trail + [dn[e]], dn[e])
              && Below(dn, all, trail) == [e] + Below(dn, all, trail + [dn[e]])
  {
    TrailsAreShort(up, dn, all, trail);
    if e in dn {
      TrailsAreShort(up, dn, all, trail + [dn[e]]);
      var r := Grow(dn, trail + [dn[e]], |all| - |trail|);
      assert r[|trail| - 1..] == [e] + r[|trail|..];
    }
  }

  lemma {:induction false} ClimbAlongTrail<T>(up: map<T, T>, dn: map<T, T>, p: seq<T>, k: nat)
    requires Mutual(up, dn) && IsTrail(up, dn, p) && k < |p|
    ensures Climb(up, p[k], k) == Some(p[0])
  {
    if k > 0 {
      assert p[k - 1] in dn && p[k] == dn[p[k - 1]];
      ClimbAlongTrail(up, dn, p, k - 1);
    }
  }

  // An entity from which one climbs to p[0] is on any trail that goes on to the end.
  lemma {:induction false} TrailCatches<T>(up: map<T, T>, dn: map<T, T>, p: seq<T>, e: T, n: nat)
    requires Mutual(up, dn) && IsTrail(up, dn, p) && p[|p| - 1] !in dn && Climb(up, e, n) == Some(p[0])
    ensures n < |p| && p[n] == e
    decreases n
  {
    if n > 0 {
      assert dn[up[e]] == e;
      TrailCatches(up, dn, p, up[e], n - 1);
      assert p[n - 1] in dn;
    }
  }

  // ----- a tick -----

  // What one entry of the snapshot leads to: its whole chain, if it is alive and rides nothing.
  function Run<T(==)>(up: map<T, T>, dn: map<T, T>, all: set<T>, e: T): seq<T>
  {
    if e in up || e !in all then [] else Chain(dn, all, e)
  }

  // What Tick visits: the run of each entity of the snapshot in turn.
  function Visits<T(==)>(up: map<T, T>, dn: map<T, T>, all: set<T>, order: seq<T>): seq<T>
  {
    if order == [] then []
    else
      var last := order[|order| - 1];
      Visits(up, dn, all, order[..|order| - 1]) + Run(up, dn, all, last)
  }

  lemma TrailBegins<T>(up: map<T, T>, dn: map<T, T>, all: set<T>, r: T)
    requires r in all && r !in up
    ensures OnTrail(up, dn, all, [r], r) && Below(dn, all, [r]) == Chain(dn, all, r)
  {
    assert |all| >= 1 by { assert all == (all - {r}) + {r}; }
  }

  lemma VisitsUnfold<T>(up: map<T, T>, dn: map<T, T>, all: set<T>, order: seq<T>, n: nat)
    requires n < |order|
    ensures Visits(up, dn, all, order[..n + 1]) == Visits(up, dn, all, order[..n]) + Run(up, dn, all, order[n])
  {
    assert order[..n + 1][..n] == order[..n];
  }

  lemma {:induction false} CountInNoDup<T>(q: seq<T>, e: T)
    requires NoDup(q)
    ensures multiset(q)[e] == if e in q then 1 else 0
  {
    if q != [] {
      var front, last := q[..|q| - 1], q[|q| - 1];
      assert q == front + [last];
      CountInNoDup(front, e);
      assert multiset(q) == multiset(front) + multiset{last};
      assert last !in front;
    }
  }

  // The entity at which climbing from e ends, if that is r.
  ghost predicate EndsAt<T>(up: map<T, T>, e: T, r: T) { r !in up && exists n: nat :: Climb(up, e, n) == Some(r) }

  lemma EndIsUnique<T>(up: map<T, T>, e: T, r: T, s: T)
    requires EndsAt(up, e, r) && EndsAt(up, e, s)
    ensures r == s
  {
    var m: nat :| Climb(up, e, m) == Some(r);
    var n: nat :| Climb(up, e, n) == Some(s);
    if m < n { ClimbsBefore(up, e, m, n); } else if n < m { ClimbsBefore(up, e, n, m); }
  }

  lemma ChainHoldsItsRiders<T>(up: map<T, T>, dn: map<T, T>, all: set<T>, r: T, e: T)
    requires Mutual(up, dn) && dn.Values <= all && r in all && r !in up
    ensures NoDup(Chain(dn, all, r))
    ensures e in Chain(dn, all, r) <==> EndsAt(up, e, r)
  {
    GrowReachesTheEnd(up, dn, all, [r], |all|);
    var c := Chain(dn, all, r);
    TrailsDoNotRevisit(up, dn, c);
    if e in c {
      var k :| 0 <= k < |c| && c[k] == e;
      ClimbAlongTrail(up, dn, c, k);
    }
    if EndsAt(up, e, r) {
      var n: nat :| Climb(up, e, n) == Some(r);
      TrailCatches(up, dn, c, e, n);
    }
  }

  lemma {:induction false} VisitsCount<T>(up: map<T, T>, dn: map<T, T>, all: set<T>, order: seq<T>, e: T, r: T)
    requires Mutual(up, dn) && dn.Values <= all && NoDup(order) && EndsAt(up, e, r) && r in all
    ensures multiset(Visits(up, dn, all, order))[e] == if r in order then 1 else 0
    decreases |order|
  {
    if order != [] {
      var front, last := order[..|order| - 1], order[|order| - 1];
      assert order == front + [last];
      assert last !in front;
      VisitsCount(up, dn, all, front, e, r);
      var v := Visits(up, dn, all, front);
      if last in up || last !in all {
        assert v + [] == v;
      } else {
        var c := Chain(dn, all, last);
        ChainHoldsItsRiders(up, dn, all, last, e);
        CountInNoDup(c, e);
        assert multiset(v + c) == multiset(v) + multiset(c);
        if e in c { EndIsUnique(up, e, last, r); }
      }
    }
  }

  lemma {:induction false} CycleIsNotVisited<T>(up: map<T, T>, dn: map<T, T>, all: set<T>, order: seq<T>, e: T)
    requires Mutual(up, dn) && dn.Values <= all && !Rooted(up, e)
    ensures e !in Visits(up, dn, all, order)
    decreases |order|
  {
    if order != [] {
      var front, last := order[..|order| - 1], order[|order| - 1];
      assert order == front + [last];
      CycleIsNotVisited(up, dn, all, front, e);
      if last !in up && last in all { ChainHoldsItsRiders(up, dn, all, last, e); }
    }
  }

  // In one tick every live entity is visited exactly once if it is not on a ride cycle, and never if
  // it is; in whatever order the snapshot lists them.
  lemma EachRiderOnce<T>(up: map<T, T>, dn: map<T, T>, all: set<T>, order: seq<T>, e: T)
    requires Mutual(up, dn) && up.Values <= all && dn.Values <= all
    requires NoDup(order) && (forall x :: x in all ==> x in order) && e in all
    ensures multiset(Visits(up, dn, all, order))[e] == if OnCycle(up, e) then 0 else 1
  {
    RootedOrOnCycle(up, dn, all, e);
    if Rooted(up, e) {
      var n: nat :| Climb(up, e, n).Some? && Climb(up, e, n).value !in up;
      var r := Climb(up, e, n).value;
      ClimbStaysInside(up, all, e, n);
      VisitsCount(up, dn, all, order, e, r);
    } else {
      CycleIsNotVisited(up, dn, all, order, e);
    }
  }

  // ----- mounting -----

  // The rides after e mounts v: e leaves its old vehicle and v's old rider is put off.
  function Mounted<T(==)>(up: map<T, T>, e: T, v: T): map<T, T>
  {
    (map x | x in up && x != e && up[x] != v :: up[x])[e := v]
  }

  lemma MountedForgets<T>(up: map<T, T>, e: T, v: T)
    ensures Mounted(up - {e}, e, v) == Mounted(up, e, v)
  {
  }

  lemma MountedWithoutRider<T>(up: map<T, T>, e: T, v: T)
    ensures Mounted(up, e, v) - {e} == map x | x in up && x != e && up[x] != v :: up[x]
  {
  }

  ghost predicate Acyclic<T(!new)>(up: map<T, T>) { forall x :: !OnCycle(up, x) }

  ghost predicate ClimbsTo<T>(up: map<T, T>, a: T, b: T) { exists n: nat :: Climb(up, a, n) == Some(b) }

  // A climb after mounting either uses old rides only or meets the new rider.
  lemma {:induction false} OldRidesOrRider<T>(up: map<T, T>, e: T, v: T, x: T, n: nat) returns (i: nat)
    requires Climb(Mounted(up, e, v), x, n).Some?
    ensures i <= n
    ensures i < n ==> Climb(Mounted(up, e, v), x, i) == Some(e)
    ensures i == n ==> Climb(up, x, n) == Climb(Mounted(up, e, v), x, n)
    decreases n
  {
    if n == 0 || x == e {
      i := 0;
    } else {
      var j := OldRidesOrRider(up, e, v, up[x], n - 1);
      i := j + 1;
    }
  }

  lemma {:induction false} NewReachIsOldReach<T>(up: map<T, T>, e: T, v: T, n: nat)
    requires Climb(Mounted(up, e, v), v, n) == Some(e)
    ensures ClimbsTo(up, v, e)
    decreases n
  {
    var i := OldRidesOrRider(up, e, v, v, n);
    if i < n { NewReachIsOldReach(up, e, v, i); }
  }

  lemma {:induction false} OldReachIsNewReach<T>(up: map<T, T>, e: T, v: T, x: T, k: nat, n: nat) returns (m: nat)
    requires !OnCycle(up, v) && Climb(up, v, k) == Some(x) && Climb(up, x, n) == Some(e)
    ensures Climb(Mounted(up, e, v), x, m) == Some(e)
    decreases n
  {
    if x == e {
      m := 0;
    } else {
      ClimbAdds(up, v, k, 1);
      assert Climb(up, x, 1) == Climb(up, up[x], 0);
      assert up[x] != v by { assert Climb(up, v, k + 1) == Some(up[x]); }
      var j := OldReachIsNewReach(up, e, v, up[x], k + 1, n - 1);
      m := j + 1;
    }
  }

  // Mounting closes a ride cycle, on which nothing would tick any more, if and only if the vehicle
  // itself rides, directly or not, on the mounting entity (or is that entity).
  lemma MountClosesCycle<T(!new)>(up: map<T, T>, e: T, v: T)
    requires Acyclic(up)
    ensures Acyclic(Mounted(up, e, v)) <==> !ClimbsTo(up, v, e)
  {
    var now := Mounted(up, e, v);
    if ClimbsTo(up, v, e) {
      var n: nat :| Climb(up, v, n) == Some(e);
      assert Climb(up, v, 0) == Some(v);
      var m := OldReachIsNewReach(up, e, v, v, 0, n);
      assert Climb(now, e, m + 1) == Some(e);
      assert OnCycle(now, e);
    } else {
      forall x ensures !OnCycle(now, x) {
        if OnCycle(now, x) {
          var n: nat :| n > 0 && Climb(now, x, n) == Some(x);
          var i := OldRidesOrRider(up, e, v, x, n);
          if i == n {
            assert OnCycle(up, x);
          } else {
            CycleClimbsForever(now, x, n, n + i);
            ClimbAdds(now, x, n, i);
            ClimbAdds(now, x, i, n);
            assert Climb(now, e, n) == Climb(now, v, n - 1);
            NewReachIsOldReach(up, e, v, n - 1);
          }
        }
      }
    }
  }

}
