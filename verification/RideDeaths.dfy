// Entities that die in their own tick while something rides them. Such a vehicle is ticked, and after it
// its rider; when the snapshot comes to the rider later, the rider's vehicle is dead and it ticks again.
module RideDeaths {
  import opened Sequences
  import opened Riding

  datatype State<T> = State(dead: set<T>, log: seq<T>)

  function Dying<T>(dies: set<T>, q: seq<T>): set<T> { set x | x in dies && x in q }

  // The rides both of whose ends are in `live`.
  function Among<T>(m: map<T, T>, live: set<T>): map<T, T>
  {
    map e | e in m && e in live && m[e] in live :: m[e]
  }

  // One entry of the snapshot, when the entities of `dies` die as they tick: the rides that count are
  // those among the entities still alive. A death on the way down does not stop the walk.
  function TickEntry<T(==)>(up: map<T, T>, dn: map<T, T>, all: set<T>, dies: set<T>, t: State<T>, e: T): State<T>
  {
    var live := all - t.dead;
    var run := Run(Among(up, live), Among(dn, live), live, e);
    State(t.dead + Dying(dies, run), t.log + run)
  }

  function TickAll<T(==)>(up: map<T, T>, dn: map<T, T>, all: set<T>, dies: set<T>, order: seq<T>): State<T>
  {
    if order == [] then State({}, [])
    else TickEntry(up, dn, all, dies, TickAll(up, dn, all, dies, order[..|order| - 1]), order[|order| - 1])
  }

  // A rider that survives its vehicle and comes after the root of its chain in the snapshot.
  ghost predicate LateSurvivor<T>(up: map<T, T>, dies: set<T>, order: seq<T>, n: nat)
    requires n < |order|
  {
    var e := order[n];
    e in up && e !in dies && up[e] in dies && exists r :: r in order[..n] && EndsAt(up, e, r)
  }

  ghost predicate Setting<T>(up: map<T, T>, dn: map<T, T>, all: set<T>, order: seq<T>)
  {
    && Mutual(up, dn) && up.Values <= all && dn.Values <= all && up.Keys <= all
    && NoDup(order) && (forall x :: x in all ==> x in order)
  }

  // ----- the walk without deaths in its way -----

  lemma {:induction false} GrowAmong<T>(dn: map<T, T>, live: set<T>, p: seq<T>, left: nat, left': nat)
    requires p != [] && (forall x :: x in Grow(dn, p, left) ==> x in live)
    requires left' >= left || |Grow(dn, p, left)| <= |p| + left'
    requires Grow(dn, p, left)[|Grow(dn, p, left)| - 1] !in dn
    ensures Grow(Among(dn, live), p, left') == Grow(dn, p, left)
    decreases left
  {
    var last, r := p[|p| - 1], Grow(dn, p, left);
    if last in dn && left > 0 {
      var q := p + [dn[last]];
      assert q <= r;
      assert r[|p|] == dn[last] && r[|p| - 1] == last;
      GrowAmong(dn, live, q, left - 1, left' - 1);
    }
  }

  // A root whose whole chain is alive is walked down as if nobody had died.
  lemma RunAmongIsChain<T>(up: map<T, T>, dn: map<T, T>, all: set<T>, live: set<T>, e: T)
    requires Mutual(up, dn) && dn.Values <= all && live <= all && e in live && e !in up
    requires forall x :: x in Chain(dn, all, e) ==> x in live
    ensures Run(Among(up, live), Among(dn, live), live, e) == Chain(dn, all, e)
  {
    GrowReachesTheEnd(up, dn, all, [e], |all|);
    var c := Chain(dn, all, e);
    TrailsDoNotRevisit(up, dn, c);
    if |c| > |live| { Pigeonhole(c, live); }
    GrowAmong(dn, live, [e], |all|, |live|);
  }

  // What has been visited: exactly the riders of the roots passed.
  lemma {:induction false} VisitedAre<T>(up: map<T, T>, dn: map<T, T>, all: set<T>, q: seq<T>, x: T)
    requires Mutual(up, dn) && up.Values <= all && dn.Values <= all && x in all
    ensures x in Visits(up, dn, all, q) <==> exists r :: r in q && EndsAt(up, x, r)
    decreases |q|
  {
    if q != [] {
      var front, last := q[..|q| - 1], q[|q| - 1];
      assert q == front + [last];
      VisitedAre(up, dn, all, front, x);
      if last !in up && last in all { ChainHoldsItsRiders(up, dn, all, last, x); }
      assert Run(up, dn, all, last) == if last in up || last !in all then [] else Chain(dn, all, last);
      if EndsAt(up, x, last) { EndIsInside(up, all, x, last); }
    }
  }

  lemma EndIsInside<T>(up: map<T, T>, all: set<T>, x: T, r: T)
    requires up.Values <= all && x in all && EndsAt(up, x, r)
    ensures r in all && r !in up
  {
    var n: nat :| Climb(up, x, n) == Some(r);
    ClimbStaysInside(up, all, x, n);
  }

  lemma EndAbove<T>(up: map<T, T>, e: T, r: T)
    requires e in up
    ensures EndsAt(up, e, r) <==> EndsAt(up, up[e], r)
  {
    if EndsAt(up, e, r) {
      var n: nat :| Climb(up, e, n) == Some(r);
      assert n > 0;
      assert Climb(up, up[e], n - 1) == Some(r);
    }
    if EndsAt(up, up[e], r) {
      var n: nat :| Climb(up, up[e], n) == Some(r);
      assert Climb(up, e, n + 1) == Some(r);
    }
  }

  lemma RootEndsAtItself<T>(up: map<T, T>, e: T)
    requires e !in up
    ensures EndsAt(up, e, e)
  {
    assert Climb(up, e, 0) == Some(e);
  }

  // The state when nobody has ticked twice.
  ghost function Plain<T>(up: map<T, T>, dn: map<T, T>, all: set<T>, dies: set<T>, q: seq<T>): State<T>
  {
    State(Dying(dies, Visits(up, dn, all, q)), Visits(up, dn, all, q))
  }

  lemma PlainStep<T>(up: map<T, T>, dn: map<T, T>, all: set<T>, dies: set<T>, order: seq<T>, n: nat)
    requires Setting(up, dn, all, order) && n < |order| && !LateSurvivor(up, dies, order, n)
    ensures TickEntry(up, dn, all, dies, Plain(up, dn, all, dies, order[..n]), order[n])
            == Plain(up, dn, all, dies, order[..n + 1])
  {
    var e := order[n];
    var t := Plain(up, dn, all, dies, order[..n]);
    var live := all - t.dead;
    VisitsUnfold(up, dn, all, order, n);
    var run := Run(up, dn, all, e);
    assert Dying(dies, t.log + run) == Dying(dies, t.log) + Dying(dies, run);
    if e in up {
      RiderWaits(up, dn, all, dies, order, n);
    } else if e in all {
      FreshChain(up, dn, all, order, n);
      assert e in live;
      RunAmongIsChain(up, dn, all, live, e);
    }
  }

  // A rider that is no late survivor is dead, or its vehicle is still alive.
  lemma RiderWaits<T>(up: map<T, T>, dn: map<T, T>, all: set<T>, dies: set<T>, order: seq<T>, n: nat)
    requires Setting(up, dn, all, order) && n < |order| && !LateSurvivor(up, dies, order, n) && order[n] in up
    ensures var live := all - Dying(dies, Visits(up, dn, all, order[..n]));
            Run(Among(up, live), Among(dn, live), live, order[n]) == []
  {
    var e, front := order[n], order[..n];
    assert e in all && up[e] in all;
    VisitedAre(up, dn, all, front, e);
    VisitedAre(up, dn, all, front, up[e]);
    forall r ensures EndsAt(up, e, r) <==> EndsAt(up, up[e], r) { EndAbove(up, e, r); }
  }

  // The chain of a root not passed yet has not been visited.
  lemma FreshChain<T>(up: map<T, T>, dn: map<T, T>, all: set<T>, order: seq<T>, n: nat)
    requires Setting(up, dn, all, order) && n < |order| && order[n] !in up && order[n] in all
    ensures NoDup(Chain(dn, all, order[n])) && order[n] in Chain(dn, all, order[n])
    ensures forall x :: x in Chain(dn, all, order[n]) ==> x in all && x !in Visits(up, dn, all, order[..n])
  {
    var e, front := order[n], order[..n];
    RootEndsAtItself(up, e);
    ChainHoldsItsRiders(up, dn, all, e, e);
    GrowReachesTheEnd(up, dn, all, [e], |all|);
    forall x | x in Chain(dn, all, e) ensures x !in Visits(up, dn, all, front) {
      ChainHoldsItsRiders(up, dn, all, e, x);
      VisitedAre(up, dn, all, front, x);
      forall r | EndsAt(up, x, r) ensures r == e { EndIsUnique(up, x, e, r); }
    }
  }

  lemma {:induction false} PlainUntilLate<T>(up: map<T, T>,
      dn: map<T, T>, all: set<T>, dies: set<T>, order: seq<T>, n: nat)
    requires Setting(up, dn, all, order) && n <= |order| && forall i :: 0 <= i < n ==> !LateSurvivor(up, dies, order, i)
    ensures TickAll(up, dn, all, dies, order[..n]) == Plain(up, dn, all, dies, order[..n])
    decreases n
  {
    if n > 0 {
      PlainUntilLate(up, dn, all, dies, order, n - 1);
      PlainStep(up, dn, all, dies, order, n - 1);
      assert order[..n][..n - 1] == order[..n - 1];
    }
  }

  lemma {:induction false} LogGrows<T>(up: map<T, T>, dn: map<T, T>, all: set<T>, dies: set<T>, order: seq<T>, n: nat)
    requires n <= |order|
    ensures TickAll(up, dn, all, dies, order[..n]).log <= TickAll(up, dn, all, dies, order).log
    decreases |order| - n
  {
    hide *;
    if n < |order| {
      LogGrows(up, dn, all, dies, order, n + 1);
      EntryLengthens(up, dn, all, dies, order, n);
    } else {
      assert order[..n] == order;
    }
  }

  lemma EntryLengthens<T>(up: map<T, T>, dn: map<T, T>, all: set<T>, dies: set<T>, order: seq<T>, n: nat)
    requires n < |order|
    ensures TickAll(up, dn, all, dies, order[..n]).log <= TickAll(up, dn, all, dies, order[..n + 1]).log
  {
    assert order[..n + 1][..n] == order[..n];
    hide Run, Among, Dying;
  }

  lemma TwiceInPrefix<T>(q: seq<T>, r: seq<T>, e: T)
    requires q <= r
    ensures multiset(q)[e] <= multiset(r)[e]
  {
    assert r == q + r[|q|..];
  }

  // The first late survivor ticks twice.
  lemma LateSurvivorTicksTwice<T>(up: map<T, T>, dn: map<T, T>, all: set<T>, dies: set<T>, order: seq<T>, n: nat)
    requires Setting(up, dn, all, order) && n < |order| && LateSurvivor(up, dies, order, n)
    requires forall i :: 0 <= i < n ==> !LateSurvivor(up, dies, order, i)
    ensures multiset(TickAll(up, dn, all, dies, order).log)[order[n]] >= 2
  {
    var e := order[n];
    PlainUntilLate(up, dn, all, dies, order, n);
    LateStep(up, dn, all, dies, order, n);
    assert order[..n + 1][..n] == order[..n];
    hide Setting, LateSurvivor, TickEntry, Plain;
    var next := TickAll(up, dn, all, dies, order[..n + 1]);
    LogGrows(up, dn, all, dies, order, n + 1);
    TwiceInPrefix(next.log, TickAll(up, dn, all, dies, order).log, e);
  }

  lemma LateStep<T>(up: map<T, T>, dn: map<T, T>, all: set<T>, dies: set<T>, order: seq<T>, n: nat)
    requires Setting(up, dn, all, order) && n < |order| && LateSurvivor(up, dies, order, n)
    ensures multiset(TickEntry(up, dn, all, dies, Plain(up, dn, all, dies, order[..n]), order[n]).log)[order[n]] >= 2
  {
    var e, front := order[n], order[..n];
    VisitedAre(up, dn, all, front, e);
    VisitedAre(up, dn, all, front, up[e]);
    forall r ensures EndsAt(up, e, r) <==> EndsAt(up, up[e], r) { EndAbove(up, e, r); }
    var t := Plain(up, dn, all, dies, front);
    assert e in t.log && e !in t.dead && up[e] in t.dead;
    hide Visits, EndsAt, LateSurvivor;
    var live := all - t.dead;
    assert e in live && e !in Among(up, live);
    var run := Chain(Among(dn, live), live, e);
    assert run[0] == e;
  }

  lemma {:induction false} FirstLate<T>(up: map<T, T>, dies: set<T>, order: seq<T>, n: nat) returns (first: nat)
    requires n < |order| && LateSurvivor(up, dies, order, n)
    ensures first <= n && LateSurvivor(up, dies, order, first)
            && forall i :: 0 <= i < first ==> !LateSurvivor(up, dies, order, i)
    decreases n
  {
    if i: nat :| i < n && LateSurvivor(up, dies, order, i) {
      first := FirstLate(up, dies, order, i);
    } else {
      first := n;
    }
  }

  // Every live entity off a ride cycle ticks exactly once if and only if no rider survives its vehicle's
  // death in this tick while standing after the root of its chain in the master list.
  lemma OnceExactlyWithoutLateSurvivors<T>(up: map<T, T>, dn: map<T, T>, all: set<T>, dies: set<T>, order: seq<T>)
    requires Setting(up, dn, all, order)
    ensures (forall e :: e in all && !OnCycle(up, e) ==> multiset(TickAll(up, dn, all, dies, order).log)[e] == 1)
      <==> (forall n :: 0 <= n < |order| ==> !LateSurvivor(up, dies, order, n))
  {
    if forall n :: 0 <= n < |order| ==> !LateSurvivor(up, dies, order, n) {
      PlainUntilLate(up, dn, all, dies, order, |order|);
      assert order[..|order|] == order;
      forall e | e in all && !OnCycle(up, e) ensures multiset(TickAll(up, dn, all, dies, order).log)[e] == 1 {
        EachRiderOnce(up, dn, all, order, e);
      }
    } else {
      var n :| 0 <= n < |order| && LateSurvivor(up, dies, order, n);
      var first := FirstLate(up, dies, order, n);
      LateSurvivorTicksTwice(up, dn, all, dies, order, first);
      var e := order[first];
      RootedOrOnCycle(up, dn, all, e);
      var r :| r in order[..first] && EndsAt(up, e, r);
    }
  }

  // ----- cycles -----

  lemma AmongIsMutual<T>(up: map<T, T>, dn: map<T, T>, live: set<T>)
    requires Mutual(up, dn)
    ensures Mutual(Among(up, live), Among(dn, live))
    ensures Among(up, live).Values <= live && Among(dn, live).Values <= live
  {
  }

  lemma AmongTwice<T>(m: map<T, T>, live: set<T>, fewer: set<T>)
    requires fewer <= live
    ensures Among(Among(m, live), fewer) == Among(m, fewer)
  {
  }

  lemma {:induction false} ClimbAmong<T>(up: map<T, T>, live: set<T>, x: T, n: nat)
    requires Climb(Among(up, live), x, n).Some?
    ensures Climb(up, x, n) == Climb(Among(up, live), x, n)
    decreases n
  {
    if n > 0 { ClimbAmong(up, live, up[x], n - 1); }
  }

  lemma RootedBelow<T>(up: map<T, T>, x: T, n: nat)
    requires Climb(up, x, n).Some? && Rooted(up, Climb(up, x, n).value)
    ensures Rooted(up, x)
  {
    var e := Climb(up, x, n).value;
    var m: nat :| Climb(up, e, m).Some? && Climb(up, e, m).value !in up;
    ClimbAdds(up, x, n, m);
  }

  // Who is ticked in one entry rides, in the end, on nothing or on one that was ticked before.
  lemma RunIsRooted<T>(up: map<T, T>, dn: map<T, T>, all: set<T>, dead: set<T>, e: T, x: T)
    requires Mutual(up, dn) && up.Values <= all && forall d :: d in dead ==> Rooted(up, d)
    requires var live := all - dead; x in Run(Among(up, live), Among(dn, live), live, e)
    ensures Rooted(up, x)
  {
    var live := all - dead;
    AmongIsMutual(up, dn, live);
    ChainHoldsItsRiders(Among(up, live), Among(dn, live), live, e, x);
    var n: nat :| Climb(Among(up, live), x, n) == Some(e);
    ClimbAmong(up, live, x, n);
    if e in up {
      assert up[e] in up.Values && up[e] in dead;
      assert Climb(up, up[e], 0) == Some(up[e]) && Climb(up, e, 1) == Some(up[e]);
      RootedBelow(up, e, 1);
    } else {
      assert Climb(up, e, 0) == Some(e);
    }
    RootedBelow(up, x, n);
  }

  lemma {:induction false} TickedIsRooted<T>(up: map<T, T>,
      dn: map<T, T>, all: set<T>, dies: set<T>, order: seq<T>, x: T)
    requires Mutual(up, dn) && up.Values <= all
    ensures var t := TickAll(up, dn, all, dies, order); x in t.log || x in t.dead ==> Rooted(up, x)
    decreases |order|
  {
    if order != [] {
      var front, e := order[..|order| - 1], order[|order| - 1];
      var t := TickAll(up, dn, all, dies, front);
      TickedIsRooted(up, dn, all, dies, front, x);
      forall d | d in t.dead ensures Rooted(up, d) { TickedIsRooted(up, dn, all, dies, front, d); }
      var live := all - t.dead;
      var run := Run(Among(up, live), Among(dn, live), live, e);
      if x in run { RunIsRooted(up, dn, all, t.dead, e, x); }
    }
  }

  // Whoever dies, nothing on a ride cycle ever ticks.
  lemma CyclesNeverTick<T>(up: map<T, T>, dn: map<T, T>, all: set<T>, dies: set<T>, order: seq<T>, e: T)
    requires Mutual(up, dn) && up.Values <= all && e in all && OnCycle(up, e)
    ensures e !in TickAll(up, dn, all, dies, order).log
  {
    RootedOrOnCycle(up, dn, all, e);
    TickedIsRooted(up, dn, all, dies, order, e);
  }

  // Without deaths this is the plain walk.
  lemma NoDeathsNoDifference<T>(up: map<T, T>, dn: map<T, T>, all: set<T>, order: seq<T>)
    requires Setting(up, dn, all, order)
    ensures TickAll(up, dn, all, {}, order) == State({}, Visits(up, dn, all, order))
  {
    PlainUntilLate(up, dn, all, {}, order, |order|);
    assert order[..|order|] == order;
  }

  // On the way down from a root, with the dead so far among those passed, e and its rider are alive.
  lemma OnTheWayDown<T>(up: map<T, T>, dn: map<T, T>, live: set<T>, dies: set<T>, trail: seq<T>, e: T)
    requires Mutual(up, dn) && dn.Values <= live && OnTrail(up, dn, live, trail, e)
    ensures var front := trail[..|trail| - 1]; var alive := live - Dying(dies, front);
            && trail == front + [e] && e in alive && (e in Among(dn, alive) <==> e in dn)
            && (e in dn ==> dn[e] != e && Among(dn, alive)[e] == dn[e])
            && live - Dying(dies, trail) == alive - (if e in dies then {e} else {})
  {
    TrailsDoNotRevisit(up, dn, trail);
    if e in dn {
      BelowUnfolds(up, dn, live, trail, e);
      TrailsDoNotRevisit(up, dn, trail + [dn[e]]);
      assert (trail + [dn[e]])[|trail|] == dn[e];
      assert dn[e] in dn.Values;
      forall i | 0 <= i < |trail| ensures trail[i] != dn[e] {
        assert (trail + [dn[e]])[i] == trail[i];
      }
    }
  }

  lemma AllAmong<T>(up: map<T, T>, dn: map<T, T>, live: set<T>)
    requires Mutual(up, dn) && up.Values <= live && dn.Values <= live
    ensures Among(up, live) == up && Among(dn, live) == dn
  {
    forall e | e in up ensures e in live && up[e] in live {
      assert up[e] in up.Values && dn[up[e]] in dn.Values;
    }
    forall v | v in dn ensures v in live && dn[v] in live {
      assert dn[v] in dn.Values && up[dn[v]] in up.Values;
    }
  }

  lemma SettingHolds<T>(up: map<T, T>, dn: map<T, T>, all: set<T>, order: seq<T>)
    requires Mutual(up, dn) && up.Values <= all && dn.Values <= all
    requires NoDup(order) && forall x :: x in all ==> x in order
    ensures Setting(up, dn, all, order)
  {
    forall e | e in up ensures e in all {
      assert dn[up[e]] in dn.Values;
    }
  }

  lemma DyingMeans<T>(dies: set<T>, q: seq<T>)
    ensures forall x :: x in Dying(dies, q) <==> x in dies && x in q
  {
  }

  lemma NobodyDies<T>(dies: set<T>, live: set<T>)
    ensures live - Dying(dies, []) == live
  {
  }

  lemma TickAllUnfolds<T>(up: map<T, T>, dn: map<T, T>, all: set<T>, dies: set<T>, order: seq<T>, n: nat)
    requires n < |order|
    ensures var t := TickAll(up, dn, all, dies, order[..n]);
            var run := Run(Among(up, all - t.dead), Among(dn, all - t.dead), all - t.dead, order[n]);
            TickAll(up, dn, all, dies, order[..n + 1]) == State(t.dead + Dying(dies, run), t.log + run)
  {
    assert order[..n + 1][..n] == order[..n];
  }

  // The dead are those that ticked and die in their tick.
  lemma {:induction false} DeadAreDying<T>(up: map<T, T>, dn: map<T, T>, all: set<T>, dies: set<T>, order: seq<T>)
    ensures var t := TickAll(up, dn, all, dies, order); t.dead == Dying(dies, t.log)
    decreases |order|
  {
    if order != [] {
      DeadAreDying(up, dn, all, dies, order[..|order| - 1]);
    }
  }
}
