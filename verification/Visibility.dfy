// The visibility half of the entity tracker: which player's client has been shown which entity.
// The hash containers yield their elements in any order, so every loop picks an arbitrary next element.
module Visibility {

  // Entity ids; a player's id is the id of its entity.
  datatype Id = Id(value: int)

  // What a client is told about existence; every other packet leaves its set of entities alone.
  datatype Packet = Spawn(id: Id) | Despawn(id: Id)

  // A tracked entry together with the entity it points to. `handled` tells whether
  // SpawnEntityForPlayer has a packet for the entity's type.
  datatype Entry = Entry(x: real, z: real, dead: bool, range: int, handled: bool, visibleTo: set<Id>)

  // The tracker and the streams of the players that have a session.
  datatype Tracker = Tracker(tracked: map<Id, Entry>, playerIds: set<Id>, streams: map<Id, seq<Packet>>)

  function DistSq(a: Entry, b: Entry): real { (a.x - b.x) * (a.x - b.x) + (a.z - b.z) * (a.z - b.z) }

  predicate OutOfRange(e: Entry, player: Entry) { DistSq(e, player) > (e.range * e.range) as real }

  // ----- a client -----

  function ClientStep(held: set<Id>, p: Packet): set<Id>
  {
    match p case Spawn(id) => held + {id} case Despawn(id) => held - {id}
  }

  // The entities that a client holds after reading a stream.
  function ClientSet(s: seq<Packet>): set<Id>
  {
    if s == [] then {} else ClientStep(ClientSet(s[..|s| - 1]), s[|s| - 1])
  }

  // No entity is spawned while the client still holds it.
  predicate NoDoubleSpawn(s: seq<Packet>)
  {
    s != [] ==> NoDoubleSpawn(s[..|s| - 1]) && (s[|s| - 1].Spawn? ==> s[|s| - 1].id !in ClientSet(s[..|s| - 1]))
  }

  lemma ClientAppend(s: seq<Packet>, p: Packet)
    ensures ClientSet(s + [p]) == ClientStep(ClientSet(s), p)
    ensures NoDoubleSpawn(s + [p]) <==> NoDoubleSpawn(s) && (p.Spawn? ==> p.id !in ClientSet(s))
  {
    assert (s + [p])[..|s|] == s;
  }

  // ----- the invariant -----

  predicate Lists(t: Tracker, e: Id, p: Id) { e in t.tracked && p in t.tracked[e].visibleTo }

  // The entities that list player p as a viewer and that a client can be shown.
  function Shown(t: Tracker, p: Id): set<Id>
  {
    set e | e in t.tracked && Lists(t, e, p) && t.tracked[e].handled
  }

  ghost predicate ListsAgree(t: Tracker)
  {
    && (forall p :: p in t.playerIds ==> p in t.tracked)
    && (forall e, p :: Lists(t, e, p) ==> p in t.playerIds && p != e)
  }

  // Every registered player's client holds exactly the entities that list it.
  ghost predicate ClientsAgree(t: Tracker)
  {
    forall p :: p in t.playerIds && p in t.streams ==>
      ClientSet(t.streams[p]) == Shown(t, p) && NoDoubleSpawn(t.streams[p])
  }

  ghost predicate Inv(t: Tracker) { ListsAgree(t) && ClientsAgree(t) }

  // Same entities at the same places, same players and sessions, whoever sees what.
  ghost predicate SamePlaces(t: Tracker, u: Tracker)
  {
    && t.tracked.Keys == u.tracked.Keys && t.playerIds == u.playerIds && t.streams.Keys == u.streams.Keys
    && forall e :: e in t.tracked ==> u.tracked[e] == t.tracked[e].(visibleTo := u.tracked[e].visibleTo)
  }

  // ----- small steps -----

  function Send(streams: map<Id, seq<Packet>>, p: Id, pkt: Packet): map<Id, seq<Packet>>
  {
    if p in streams then streams[p := streams[p] + [pkt]] else streams
  }

  function WithViewer(t: Tracker, e: Id, p: Id): Tracker
  {
    if e !in t.tracked then t
    else t.(tracked := t.tracked[e := t.tracked[e].(visibleTo := t.tracked[e].visibleTo + {p})])
  }

  function WithoutViewer(t: Tracker, e: Id, p: Id): Tracker
  {
    if e !in t.tracked then t
    else t.(tracked := t.tracked[e := t.tracked[e].(visibleTo := t.tracked[e].visibleTo - {p})])
  }

  // SpawnEntityForPlayer: nothing without a session, nothing for an unhandled type.
  function SpawnFor(t: Tracker, e: Id, p: Id): Tracker
  {
    if p in t.streams && e in t.tracked && t.tracked[e].handled
    then WithViewer(t, e, p).(streams := Send(t.streams, p, Spawn(e)))
    else t
  }

  // Out of range: the client is told if there is one, and the viewer is dropped either way.
  function HideFrom(t: Tracker, e: Id, p: Id): Tracker
  {
    WithoutViewer(t, e, p).(streams := Send(t.streams, p, Despawn(e)))
  }

  lemma HideLists(t: Tracker, e: Id, p: Id)
    requires Lists(t, e, p)
    ensures forall o, q :: Lists(HideFrom(t, e, p), o, q) <==> Lists(t, o, q) && !(o == e && q == p)
    ensures SamePlaces(t, HideFrom(t, e, p))
  {
  }

  lemma HideKeepsInv(t: Tracker, e: Id, p: Id, r: Tracker)
    requires Inv(t) && Lists(t, e, p) && r == HideFrom(t, e, p)
    ensures Inv(r)
  {
    HideLists(t, e, p);
    hide Lists;
    assert ListsAgree(r);
    forall q | q in r.playerIds && q in r.streams
      ensures ClientSet(r.streams[q]) == Shown(r, q) && NoDoubleSpawn(r.streams[q])
    {
      if q == p {
        ClientAppend(t.streams[p], Despawn(e));
        assert Shown(r, p) == Shown(t, p) - {e};
      } else {
        assert Shown(r, q) == Shown(t, q);
      }
    }
  }

  // Listing a viewer and spawning for it, in the order that every caller uses or its reverse.
  lemma ShowKeepsInv(t: Tracker, e: Id, p: Id)
    requires Inv(t) && e in t.tracked && p in t.playerIds && p != e && p !in t.tracked[e].visibleTo
    ensures Inv(SpawnFor(t, e, p)) && Inv(SpawnFor(WithViewer(t, e, p), e, p))
  {
    var early, late := SpawnFor(WithViewer(t, e, p), e, p), SpawnFor(t, e, p);
    hide Inv;
    assert early == WithViewer(t, e, p).(streams :=
           if t.tracked[e].handled then Send(t.streams, p, Spawn(e)) else t.streams);
    assert late == early || late == t;
    ShowOneKeepsInv(t, e, p, early);
  }

  lemma ShowOneKeepsInv(t: Tracker, e: Id, p: Id, r: Tracker)
    requires Inv(t) && e in t.tracked && p in t.playerIds && p != e && p !in t.tracked[e].visibleTo
    requires r == WithViewer(t, e, p).(streams :=
             if t.tracked[e].handled then Send(t.streams, p, Spawn(e)) else t.streams)
    ensures Inv(r)
  {
    assert forall o, q :: Lists(r, o, q) <==> Lists(t, o, q) || (o, q) == (e, p);
    assert ListsAgree(r);
    forall q | q in r.playerIds && q in r.streams
      ensures ClientSet(r.streams[q]) == Shown(r, q) && NoDoubleSpawn(r.streams[q])
    {
      if q == p && t.tracked[e].handled {
        ClientAppend(t.streams[p], Spawn(e));
        assert Shown(r, p) == Shown(t, p) + {e};
      } else {
        assert Shown(r, q) == Shown(t, q);
      }
    }
  }

  // ----- removing an entity -----

  function SendAll(streams: map<Id, seq<Packet>>, viewers: set<Id>, pkt: Packet): map<Id, seq<Packet>>
  {
    map p | p in streams :: if p in viewers then streams[p] + [pkt] else streams[p]
  }

  // DespawnEntityForViewers, then the entity disappears as an entity, as a viewer and as a player.
  function Untrack(t: Tracker, e: Id): Tracker
  {
    if e !in t.tracked then t
    else Tracker(map o | o in t.tracked && o != e :: t.tracked[o].(visibleTo := t.tracked[o].visibleTo - {e}),
                 t.playerIds - {e}, SendAll(t.streams, t.tracked[e].visibleTo, Despawn(e)))
  }

  // What is said to e's own client does not matter: it is no longer registered.
  ghost predicate OthersAgree(t: Tracker, e: Id)
  {
    forall p :: p in t.playerIds && p in t.streams && p != e ==>
      ClientSet(t.streams[p]) == Shown(t, p) && NoDoubleSpawn(t.streams[p])
  }

  lemma UntrackKeepsInv(t: Tracker, e: Id, r: Tracker)
    requires ListsAgree(t) && OthersAgree(t, e) && e in t.tracked && r == Untrack(t, e)
    ensures Inv(r)
  {
    assert forall o, q :: Lists(r, o, q) <==> Lists(t, o, q) && o != e && q != e;
    assert ListsAgree(r);
    forall q | q in r.playerIds && q in r.streams
      ensures ClientSet(r.streams[q]) == Shown(r, q) && NoDoubleSpawn(r.streams[q])
    {
      ClientAppend(t.streams[q], Despawn(e));
      assert Shown(r, q) == Shown(t, q) - {e};
    }
  }

  // ----- what may be seen -----

  // Entity e is where player p may see it.
  predicate InSight(t: Tracker, e: Id, p: Id)
  {
    e in t.tracked && p in t.tracked && e != p && !OutOfRange(t.tracked[e], t.tracked[p])
  }

  // A player has an entity other than its own in sight if the two are no further apart than the entity's
  // range, heights aside.
  lemma InSightExactly(t: Tracker, e: Id, p: Id)
    requires e in t.tracked && p in t.tracked
    ensures var dx, dz := t.tracked[p].x - t.tracked[e].x, t.tracked[p].z - t.tracked[e].z;
            InSight(t, e, p) <==> e != p && dx * dx + dz * dz <= (t.tracked[e].range * t.tracked[e].range) as real
  {
    var dx, dz := t.tracked[p].x - t.tracked[e].x, t.tracked[p].z - t.tracked[e].z;
    SquareOfNegative(dx);
    SquareOfNegative(dz);
    assert t.tracked[e].x - t.tracked[p].x == -dx && t.tracked[e].z - t.tracked[p].z == -dz;
  }

  lemma SquareOfNegative(r: real)
    ensures (-r) * (-r) == r * r
  {
  }

  predicate Showable(t: Tracker, e: Id, p: Id) { p in t.streams && e in t.tracked && t.tracked[e].handled }

  lemma SamePlacesSameSight(t: Tracker, u: Tracker)
    requires SamePlaces(t, u)
    ensures forall e, p :: InSight(t, e, p) <==> InSight(u, e, p)
    ensures forall e, p :: Showable(t, e, p) <==> Showable(u, e, p)
  {
  }

  // A hash container hands out its elements in any order.
  method NextOf(s: set<Id>) returns (id: Id)
    requires s != {}
    ensures id in s
  {
    id :| id in s;
  }

  // What TrackEntity and AddPlayer do for one entity and one player: register the viewer if it is in
  // range, then spawn.
  function ShowStep(t: Tracker, e: Id, p: Id): Tracker
  {
    if InSight(t, e, p) then SpawnFor(WithViewer(t, e, p), e, p) else t
  }

  lemma SamePlacesReflexive(t: Tracker)
    ensures SamePlaces(t, t)
  {
  }

  lemma PlayersAreTracked(t: Tracker)
    requires Inv(t)
    ensures t.playerIds <= t.tracked.Keys
  {
  }

  lemma InSightIsTracked(t: Tracker, p: Id)
    ensures forall e :: InSight(t, e, p) ==> e in t.tracked
  {
  }

  lemma SamePlacesTransitive(t: Tracker, u: Tracker, v: Tracker)
    requires SamePlaces(t, u) && SamePlaces(u, v)
    ensures SamePlaces(t, v)
  {
  }

  // ----- adding an entity or a player -----

  function WithEntry(t: Tracker, id: Id, e: Entry): Tracker { t.(tracked := t.tracked[id := e]) }

  // A fresh entity without viewers changes nothing for anybody.
  lemma NewEntryKeepsInv(t: Tracker, id: Id, e: Entry)
    requires Inv(t) && id !in t.tracked && e.visibleTo == {}
    ensures Inv(WithEntry(t, id, e))
  {
    var r := WithEntry(t, id, e);
    assert forall o, q :: Lists(r, o, q) <==> Lists(t, o, q);
    assert forall q :: Shown(r, q) == Shown(t, q);
  }

  // A player is registered with a fresh entry.
  function WithPlayer(t: Tracker, id: Id, e: Entry): Tracker { WithEntry(t, id, e).(playerIds := t.playerIds + {id}) }

  // The players of ps that are in range of entity id are listed for it, and those with a session are
  // told. The result does not depend on the order.
  function Watch(t: Tracker, id: Id, ps: set<Id>): Tracker
  {
    if id !in t.tracked then t
    else
      var e, seen := t.tracked[id], Seen(t, id, ps);
      Tracker(t.tracked[id := e.(visibleTo := e.visibleTo + seen)], t.playerIds,
              SendAll(t.streams, if e.handled then seen else {}, Spawn(id)))
  }

  // Player id meets the entities es, one after the other.
  function Meet(t: Tracker, id: Id, es: seq<Id>): Tracker
  {
    if es == [] then t else ShowStep(Meet(t, id, es[..|es| - 1]), es[|es| - 1], id)
  }

  ghost predicate Enumerates(order: seq<Id>, all: set<Id>)
  {
    (forall i, j :: 0 <= i < j < |order| ==> order[i] != order[j]) && forall x :: x in order <==> x in all
  }

  // TrackEntity and AddPlayer.
  function Tracked(t: Tracker, id: Id, e: Entry): Tracker { Watch(WithEntry(t, id, e), id, t.playerIds) }

  function Added(t: Tracker, id: Id, e: Entry, order: seq<Id>): Tracker
  {
    Watch(Meet(WithPlayer(t, id, e), id, order), id, t.playerIds + {id})
  }

  function Seen(t: Tracker, id: Id, ps: set<Id>): set<Id> { set p | p in ps && InSight(t, id, p) }

  lemma SeenOneMore(t: Tracker, id: Id, ps: set<Id>, p: Id)
    ensures Seen(t, id, ps + {p}) == Seen(t, id, ps) + if InSight(t, id, p) then {p} else {}
    ensures p !in ps ==> p !in Seen(t, id, ps)
  {
  }

  lemma WatchOneMore(t: Tracker, id: Id, ps: set<Id>, p: Id)
    requires p !in ps && id in t.tracked
    ensures ShowStep(Watch(t, id, ps), id, p) == Watch(t, id, ps + {p})
  {
    SeenOneMore(t, id, ps, p);
    assert InSight(Watch(t, id, ps), id, p) <==> InSight(t, id, p);
    hide InSight, Seen;
    if InSight(t, id, p) {
      WatchSees(t, id, ps, p);
    } else {
      assert Seen(t, id, ps) + {} == Seen(t, id, ps);
    }
  }

  lemma WatchSees(t: Tracker, id: Id, ps: set<Id>, p: Id)
    requires id in t.tracked && p !in Seen(t, id, ps) && Seen(t, id, ps + {p}) == Seen(t, id, ps) + {p}
    ensures var u := Watch(t, id, ps); SpawnFor(WithViewer(u, id, p), id, p) == Watch(t, id, ps + {p})
  {
    var e, seen := t.tracked[id], Seen(t, id, ps);
    hide Seen;
    assert e.visibleTo + (seen + {p}) == (e.visibleTo + seen) + {p};
  }

  // No client with a session is shown entity id.
  predicate Unseen(t: Tracker, id: Id)
  {
    forall p :: p in t.playerIds && p in t.streams ==> id !in Shown(t, p)
  }

  lemma WatchLists(t: Tracker, id: Id, ps: set<Id>)
    requires id in t.tracked
    ensures var r := Watch(t, id, ps);
            && SamePlaces(t, r)
            && forall o, q :: Lists(r, o, q) <==> Lists(t, o, q) || (o == id && q in ps && InSight(t, id, q))
  {
  }

  // What becomes of one client when a fresh entry is shown around.
  lemma WatchClient(t: Tracker, id: Id, ps: set<Id>, p: Id)
    requires id in t.tracked && t.tracked[id].visibleTo == {} && p in t.streams
    ensures var r := Watch(t, id, ps); var told := p in ps && InSight(t, id, p) && t.tracked[id].handled;
            && p in r.streams
            && ClientSet(r.streams[p]) == ClientSet(t.streams[p]) + (if told then {id} else {})
            && (NoDoubleSpawn(r.streams[p])
               <==> NoDoubleSpawn(t.streams[p]) && (told ==> id !in ClientSet(t.streams[p])))
            && Shown(r, p) == Shown(t, p) + (if told then {id} else {})
  {
    WatchLists(t, id, ps);
    ClientAppend(t.streams[p], Spawn(id));
    var r, told := Watch(t, id, ps), p in ps && InSight(t, id, p) && t.tracked[id].handled;
    assert r.streams[p] == if told then t.streams[p] + [Spawn(id)] else t.streams[p];
  }

  // A fresh entry takes the place of an old one.
  lemma FreshEntryLists(t: Tracker, id: Id, e: Entry, p: Id)
    requires e.visibleTo == {}
    ensures forall o, q :: Lists(WithEntry(t, id, e), o, q) <==> Lists(t, o, q) && o != id
    ensures Shown(WithEntry(t, id, e), p) == Shown(t, p) - {id}
  {
    var start := WithEntry(t, id, e);
    assert forall o, q :: Lists(start, o, q) <==> Lists(t, o, q) && o != id;
  }

  // An id may be tracked anew, even one that is tracked already, exactly when no client is shown it:
  // the tracker forgets who was listed and would spawn the entity twice or never despawn it.
  lemma TrackKeepsInvExactly(t: Tracker, id: Id, e: Entry)
    requires Inv(t) && e.visibleTo == {}
    ensures Inv(Tracked(t, id, e)) <==> Unseen(t, id)
  {
    var start, r := WithEntry(t, id, e), Tracked(t, id, e);
    WatchLists(start, id, t.playerIds);
    FreshEntryLists(t, id, e, id);
    assert ListsAgree(r) && r.playerIds == t.playerIds && r.streams.Keys == t.streams.Keys;
    hide ClientSet, NoDoubleSpawn, Shown, Tracked, ListsAgree, Lists, Watch;
    forall p | p in t.playerIds && p in t.streams
      ensures ClientSet(r.streams[p]) == Shown(r, p) && NoDoubleSpawn(r.streams[p]) <==> id !in Shown(t, p)
    {
      FreshEntryLists(t, id, e, p);
      WatchClient(start, id, t.playerIds, p);
    }
  }

  lemma ShowStepLists(t: Tracker, e: Id, p: Id)
    ensures var r := ShowStep(t, e, p);
            && SamePlaces(t, r)
            && forall o, q :: Lists(r, o, q) <==> Lists(t, o, q) || (o == e && q == p && InSight(t, e, p))
  {
  }

  // What player id is told when it meets entity e, already listed or not.
  lemma ShowStepClient(t: Tracker, e: Id, id: Id)
    requires id in t.streams
    ensures var r := ShowStep(t, e, id); var told := InSight(t, e, id) && t.tracked[e].handled;
            && (forall p :: p in t.streams && p != id ==> r.streams[p] == t.streams[p])
            && ClientSet(r.streams[id]) == ClientSet(t.streams[id]) + (if told then {e} else {})
            && (NoDoubleSpawn(r.streams[id])
               <==> NoDoubleSpawn(t.streams[id]) && (told ==> e !in ClientSet(t.streams[id])))
  {
    ClientAppend(t.streams[id], Spawn(e));
  }

  // The entities of es that player id can be shown.
  function Sights(t: Tracker, id: Id, es: seq<Id>): set<Id>
  {
    set e | e in es && e in t.tracked && InSight(t, e, id) && t.tracked[e].handled
  }

  lemma {:induction false} MeetLists(t: Tracker, id: Id, es: seq<Id>)
    ensures var r := Meet(t, id, es);
            && SamePlaces(t, r)
            && forall o, q :: Lists(r, o, q) <==> Lists(t, o, q) || (q == id && o in es && InSight(t, o, id))
    decreases |es|
  {
    if es != [] {
      var front, last := es[..|es| - 1], es[|es| - 1];
      MeetLists(t, id, front);
      assert es == front + [last];
      SamePlacesSameSight(t, Meet(t, id, front));
      ShowStepLists(Meet(t, id, front), last, id);
      hide Lists, InSight, ShowStep;
    }
  }

  lemma SightsOneMore(t: Tracker, id: Id, es: seq<Id>, e: Id)
    requires e !in es
    ensures var told := e in t.tracked && InSight(t, e, id) && t.tracked[e].handled;
            Sights(t, id, es + [e]) == Sights(t, id, es) + (if told then {e} else {}) && e !in Sights(t, id, es)
    ensures InSight(t, e, id) ==> e in t.tracked
  {
  }

  // Meeting distinct entities tells player id of each sight once, and nobody else anything.
  lemma {:induction false} MeetClient(t: Tracker, id: Id, es: seq<Id>)
    requires id in t.streams && forall i, j :: 0 <= i < j < |es| ==> es[i] != es[j]
    ensures var r := Meet(t, id, es);
            && id in r.streams && (forall p :: p in t.streams && p != id ==>
               p in r.streams && r.streams[p] == t.streams[p])
            && ClientSet(r.streams[id]) == ClientSet(t.streams[id]) + Sights(t, id, es)
            && (NoDoubleSpawn(r.streams[id])
               <==> NoDoubleSpawn(t.streams[id]) && Sights(t, id, es) !! ClientSet(t.streams[id]))
    decreases |es|
  {
    if es == [] {
      assert Sights(t, id, es) == {};
    } else {
      var front, last := es[..|es| - 1], es[|es| - 1];
      var u := Meet(t, id, front);
      MeetClient(t, id, front);
      MeetLists(t, id, front);
      SamePlacesSameSight(t, u);
      ShowStepClient(u, last, id);
      SightsOneMore(t, id, front, last);
      assert es == front + [last] && last !in front;
      hide ClientSet, NoDoubleSpawn, InSight, ShowStep, Lists, Sights, SamePlaces;
    }
  }

  lemma MeetNobodyElse(t: Tracker, id: Id, es: seq<Id>)
    requires forall i, j :: 0 <= i < j < |es| ==> es[i] != es[j]
    ensures var r := Meet(t, id, es);
            r.streams.Keys == t.streams.Keys && forall p :: p in t.streams && p != id ==> r.streams[p] == t.streams[p]
  {
    MeetLists(t, id, es);
    if id in t.streams { MeetClient(t, id, es); } else { MeetWithoutSession(t, id, es); }
  }

  lemma {:induction false} MeetWithoutSession(t: Tracker, id: Id, es: seq<Id>)
    requires id !in t.streams
    ensures Meet(t, id, es).streams == t.streams
    decreases |es|
  {
    if es != [] { MeetWithoutSession(t, id, es[..|es| - 1]); }
  }

  // The clients of sessions that are not registered show nothing.
  ghost predicate Quiet(t: Tracker)
  {
    forall p :: p in t.streams && p !in t.playerIds ==> ClientSet(t.streams[p]) == {} && NoDoubleSpawn(t.streams[p])
  }

  // A player may be added, even under an id that is tracked already, exactly when no client is shown that
  // id and, if the player was registered already, its own client is shown nothing that it meets.
  lemma AddKeepsInvExactly(t: Tracker, id: Id, e: Entry, order: seq<Id>)
    requires Inv(t) && Quiet(t) && e.visibleTo == {} && Enumerates(order, t.tracked.Keys + {id})
    ensures Inv(Added(t, id, e, order)) <==>
              Unseen(t, id) && (id in t.playerIds && id in t.streams ==>
                Shown(t, id) !! Sights(WithPlayer(t, id, e), id, order))
  {
    var start, r := WithPlayer(t, id, e), Added(t, id, e, order);
    AddedLists(t, id, e, order);
    assert r.streams.Keys == t.streams.Keys && r.playerIds == t.playerIds + {id};
    assert ListsAgree(t);
    forall p | p in r.playerIds && p in r.streams
      ensures ClientSet(r.streams[p]) == Shown(r, p) && NoDoubleSpawn(r.streams[p]) <==>
              if p != id then id !in Shown(t, p)
              else id in t.playerIds ==> Shown(t, id) !! Sights(start, id, order)
    {
      assert p in t.playerIds ==> ClientSet(t.streams[p]) == Shown(t, p) && NoDoubleSpawn(t.streams[p]);
      hide *;
      if p == id { AddedOwnClient(t, id, e, order); } else { AddedClient(t, id, e, order, p); }
    }
    OwnIdIsNotShown(t, id);
    hide ClientSet, NoDoubleSpawn, Shown, Added, ListsAgree, Sights, Quiet;
  }

  // The state between the two loops of AddPlayer.
  lemma MetBefore(t: Tracker, id: Id, e: Entry, order: seq<Id>, p: Id)
    requires ListsAgree(t) && e.visibleTo == {} && Enumerates(order, t.tracked.Keys + {id})
    ensures var start := WithPlayer(t, id, e); var met := Meet(start, id, order);
            && SamePlaces(start, met) && id in met.tracked && met.tracked[id].visibleTo == {}
            && Shown(met, p) == (Shown(t, p) - {id}) + (if p == id then Sights(start, id, order) else {})
  {
    var start := WithPlayer(t, id, e);
    var met := Meet(start, id, order);
    FreshEntryLists(t, id, e, p);
    assert forall o, q :: Lists(start, o, q) <==> Lists(WithEntry(t, id, e), o, q);
    assert Shown(start, p) == Shown(t, p) - {id};
    MeetLists(start, id, order);
    assert id in start.tracked && id in met.tracked;
    NoSelfSight(start);
    assert forall q :: !Lists(met, id, q);
    assert forall q :: q in met.tracked[id].visibleTo ==> Lists(met, id, q);
    hide Meet, WithPlayer, InSight, Lists;
    ShownMeets(start, met, id, order, p);
  }

  lemma ShownMeets(t: Tracker, u: Tracker, id: Id, es: seq<Id>, p: Id)
    requires SamePlaces(t, u) && forall o :: InSight(t, o, id) ==> o in t.tracked
    requires forall o, q :: Lists(u, o, q) <==> Lists(t, o, q) || (q == id && o in es && InSight(t, o, id))
    ensures Shown(u, p) == Shown(t, p) + if p == id then Sights(t, id, es) else {}
  {
    hide InSight;
  }

  lemma AddedClient(t: Tracker, id: Id, e: Entry, order: seq<Id>, p: Id)
    requires ListsAgree(t) && e.visibleTo == {} && Enumerates(order, t.tracked.Keys + {id})
    requires p != id && p in t.playerIds && p in t.streams
    requires ClientSet(t.streams[p]) == Shown(t, p) && NoDoubleSpawn(t.streams[p])
    ensures var r := Added(t, id, e, order);
            p in r.streams && (ClientSet(r.streams[p]) == Shown(r, p) && NoDoubleSpawn(r.streams[p])
              <==> id !in Shown(t, p))
  {
    hide *;
    var start := WithPlayer(t, id, e);
    var met := Meet(start, id, order);
    AddedIsWatch(t, id, e, order);
    MetBefore(t, id, e, order, p);
    EnumeratesDistinct(order, t.tracked.Keys + {id});
    MeetNobodyElse(start, id, order);
    WatchClient(met, id, t.playerIds + {id}, p);
    GainExactly(Shown(t, p), id, p in t.playerIds + {id} && InSight(met, id, p) && met.tracked[id].handled);
  }

  // A client that already holds id cannot be put right by showing it afresh, or by not showing it.
  lemma GainExactly(held: set<Id>, id: Id, told: bool)
    ensures var gain := if told then {id} else {};
            held + gain == (held - {id}) + gain && (told ==> id !in held) <==> id !in held
  {
    if id !in held { assert held - {id} == held; }
  }

  lemma AddedOwnClient(t: Tracker, id: Id, e: Entry, order: seq<Id>)
    requires ListsAgree(t) && Quiet(t) && e.visibleTo == {}
             && Enumerates(order, t.tracked.Keys + {id}) && id in t.streams
    requires id in t.playerIds ==> ClientSet(t.streams[id]) == Shown(t, id) && NoDoubleSpawn(t.streams[id])
    ensures var r := Added(t, id, e, order);
            id in r.streams && (ClientSet(r.streams[id]) == Shown(r, id) && NoDoubleSpawn(r.streams[id]) <==>
                                (id in t.playerIds ==> Shown(t, id) !! Sights(WithPlayer(t, id, e), id, order)))
  {
    hide *;
    var start := WithPlayer(t, id, e);
    var met := Meet(start, id, order);
    AddedIsWatch(t, id, e, order);
    StrangersHoldNothing(t, id);
    OwnIdIsNotShown(t, id);
    NoSelfSight(met);
    MetBefore(t, id, e, order, id);
    EnumeratesDistinct(order, t.tracked.Keys + {id});
    MeetClient(start, id, order);
    WatchClient(met, id, t.playerIds + {id}, id);
  }

  lemma StrangersHoldNothing(t: Tracker, id: Id)
    requires ListsAgree(t) && Quiet(t) && id in t.streams
    ensures id !in t.playerIds ==> ClientSet(t.streams[id]) == {} && NoDoubleSpawn(t.streams[id]) && Shown(t, id) == {}
  {
    hide ClientSet, NoDoubleSpawn;
  }

  lemma AddedIsWatch(t: Tracker, id: Id, e: Entry, order: seq<Id>)
    ensures Added(t, id, e, order) == Watch(Meet(WithPlayer(t, id, e), id, order), id, t.playerIds + {id})
    ensures WithPlayer(t, id, e).streams == t.streams
  {
  }

  lemma EnumeratesDistinct(order: seq<Id>, all: set<Id>)
    requires Enumerates(order, all)
    ensures forall i, j :: 0 <= i < j < |order| ==> order[i] != order[j]
  {
  }

  lemma OwnIdIsNotShown(t: Tracker, id: Id)
    requires ListsAgree(t)
    ensures id !in Shown(t, id)
  {
  }

  lemma AddedLists(t: Tracker, id: Id, e: Entry, order: seq<Id>)
    requires Inv(t) && e.visibleTo == {} && Enumerates(order, t.tracked.Keys + {id})
    ensures var r := Added(t, id, e, order); ListsAgree(r) && SamePlaces(WithPlayer(t, id, e), r)
  {
    var start := WithPlayer(t, id, e);
    var met := Meet(start, id, order);
    FreshEntryLists(t, id, e, id);
    assert forall o, q :: Lists(start, o, q) <==> Lists(WithEntry(t, id, e), o, q);
    NoSelfSight(start);
    NoSelfSight(met);
    assert ListsAgree(start) && id in start.playerIds && id in start.tracked;
    hide Meet, Watch, WithPlayer, ClientsAgree, Lists, InSight;
    MeetLists(start, id, order);
    ListsStayAgreed(start, met, {id});
    WatchLists(met, id, start.playerIds);
    ListsStayAgreed(met, Added(t, id, e, order), start.playerIds);
  }

  // Lists may grow by registered players that are not the entity itself.
  lemma ListsStayAgreed(t: Tracker, r: Tracker, ps: set<Id>)
    requires ListsAgree(t) && SamePlaces(t, r) && ps <= t.playerIds
    requires forall o, q :: Lists(r, o, q) ==> Lists(t, o, q) || (q in ps && o != q)
    ensures ListsAgree(r)
  {
    hide Lists;
  }

  lemma NoSelfSight(t: Tracker)
    ensures forall o, q :: InSight(t, o, q) ==> o != q
  {
  }

  // ----- the passes of a tick -----

  predicate SamePlace(a: Entry, b: Entry) { b == a.(visibleTo := b.visibleTo) }

  function Dead(t: Tracker): set<Id> { set e | e in t.tracked && t.tracked[e].dead }

  function Living(t: Tracker): set<Id> { set e | e in t.tracked && !t.tracked[e].dead }

  // `u` is `t` without the entities of `gone`.
  ghost predicate UntrackedAll(t: Tracker, gone: set<Id>, u: Tracker)
  {
    && u.tracked.Keys == t.tracked.Keys - gone && u.playerIds == t.playerIds - gone && u.streams.Keys == t.streams.Keys
    && (forall e :: e in u.tracked ==> SamePlace(t.tracked[e], u.tracked[e]))
    && (forall e, p :: Lists(u, e, p) <==> Lists(t, e, p) && e !in gone && p !in gone)
  }

  lemma UntrackOneMore(t: Tracker, gone: set<Id>, u: Tracker, e: Id)
    requires Inv(u) && UntrackedAll(t, gone, u) && e in u.tracked
    ensures Inv(Untrack(u, e)) && UntrackedAll(t, gone + {e}, Untrack(u, e))
  {
    UntrackKeepsInv(u, e, Untrack(u, e));
    var r := Untrack(u, e);
    assert forall o, q :: Lists(r, o, q) <==> Lists(u, o, q) && o != e && q != e;
  }

  lemma ListedIsTracked(t: Tracker)
    ensures forall e, p :: Lists(t, e, p) ==> e in t.tracked
  {
  }

  lemma ViewersOf(t: Tracker, e: Id)
    requires e in t.tracked
    ensures forall p :: Lists(t, e, p) <==> p in t.tracked[e].visibleTo
  {
  }

  function HideStep(t: Tracker, e: Id, p: Id): Tracker
    requires e in t.tracked && p in t.tracked
  {
    if OutOfRange(t.tracked[e], t.tracked[p]) then HideFrom(t, e, p) else t
  }

  lemma HideStepSpec(t: Tracker, e: Id, p: Id)
    requires Inv(t) && p in t.tracked && Lists(t, e, p)
    ensures var r := HideStep(t, e, p);
            && Inv(r) && SamePlaces(t, r)
            && forall o, q :: Lists(r, o, q) <==> Lists(t, o, q) && (o != e || q != p || InSight(t, e, p))
  {
    if OutOfRange(t.tracked[e], t.tracked[p]) {
      HideKeepsInv(t, e, p, HideFrom(t, e, p));
      HideLists(t, e, p);
    }
  }

  // The spawn pass spawns first and lets the spawn register the viewer.
  function ShowLater(t: Tracker, e: Id, p: Id): Tracker
  {
    if InSight(t, e, p) && !Lists(t, e, p) then SpawnFor(t, e, p) else t
  }

  lemma ShowLaterSpec(t: Tracker, e: Id, p: Id)
    requires Inv(t) && e in t.tracked && p in t.playerIds
    ensures var r := ShowLater(t, e, p);
            && Inv(r) && SamePlaces(t, r)
            && forall o, q ::
                 Lists(r, o, q) <==> Lists(t, o, q) || (o == e && q == p && InSight(t, e, p) && Showable(t, e, p))
  {
    if InSight(t, e, p) && !Lists(t, e, p) { ShowKeepsInv(t, e, p); }
  }

  // The entities that list p, handled or not.
  function Listing(t: Tracker, p: Id): set<Id> { set e | e in t.tracked && Lists(t, e, p) }

  lemma ToldStillAgrees(t: Tracker, u: Tracker, id: Id)
    requires Inv(t) && u == t.(streams := u.streams) && u.streams.Keys == t.streams.Keys
    requires forall p :: p in t.streams && p != id ==> u.streams[p] == t.streams[p]
    requires id in t.streams ==> ClientSet(u.streams[id]) == ClientSet(t.streams[id]) - Listing(t, id)
    ensures ListsAgree(u) && OthersAgree(u, id)
    ensures id in t.playerIds && id in t.streams ==> ClientSet(u.streams[id]) == {}
    ensures id !in t.playerIds ==> Inv(u)
  {
    assert forall o, q :: Lists(u, o, q) <==> Lists(t, o, q);
    assert forall q :: Shown(u, q) == Shown(t, q);
    if id in t.playerIds && id in t.streams {
      assert Shown(t, id) - Listing(t, id) == {};
    }
  }

  lemma RemovedPlayer(t: Tracker, u: Tracker, id: Id)
    requires Inv(t) && u == t.(streams := u.streams) && u.streams.Keys == t.streams.Keys
    requires ListsAgree(u) && OthersAgree(u, id)
    ensures var r := Untrack(u, id);
            && Inv(r) && r.tracked.Keys == t.tracked.Keys - {id} && r.playerIds == t.playerIds - {id}
            && (id in u.streams ==> r.streams[id] == u.streams[id])
            && (forall e, p :: Lists(r, e, p) <==> Lists(t, e, p) && e != id && p != id)
  {
    assert forall o, q :: Lists(u, o, q) <==> Lists(t, o, q);
    if id in u.tracked {
      UntrackKeepsInv(u, id, Untrack(u, id));
      assert !Lists(u, id, id);
      var r := Untrack(u, id);
      assert forall e, p :: Lists(r, e, p) <==> Lists(u, e, p) && e != id && p != id;
    } else {
      assert id !in u.playerIds;
      assert forall e :: !Lists(u, e, id);
    }
  }

  // ----- runs -----

  // What can happen to the tracker, in the small steps that its methods are made of, and around it.
  datatype Step =
    | Connect(p: Id)                      // a session gets the id of its entity
    | Disconnect(p: Id)                   // the session is gone
    | MoveTo(e: Id, x: real, z: real)     // an entity moves
    | Die(e: Id)                          // an entity is marked dead
    | Enter(e: Id, entry: Entry)          // an entity gets an entry that lists nobody
    | Register(p: Id, entry: Entry)       // so does a player
    | Show(e: Id, p: Id)                  // list p for e, then spawn
    | Reveal(e: Id, p: Id)                // spawn, which lists p
    | Hide(e: Id, p: Id)                  // p loses sight of e
    | Forget(e: Id)                       // UntrackEntity, or the sweep of a dead entity
    | Leave(p: Id, order: seq<Id>)        // RemovePlayer, despawning in that order

  // RemovePlayer's packets to the player's own client.
  function Despawns(order: seq<Id>): seq<Packet>
  {
    seq(|order|, i requires 0 <= i < |order| => Despawn(order[i]))
  }

  function Told(t: Tracker, p: Id, order: seq<Id>): Tracker
  {
    if p in t.streams then t.(streams := t.streams[p := t.streams[p] + Despawns(order)]) else t
  }

  // Entity ids come from one counter, so a session's id is tracked nowhere before. The session of a
  // player that dies is taken off the tracker first (EntityMPPlayer::OnDeath), and a player's entity is
  // only ever untracked by RemovePlayer while the player has a session.
  ghost predicate Legal(t: Tracker, step: Step)
  {
    match step
    case Connect(p) => p !in t.streams && p !in t.tracked
    case Disconnect(p) => p in t.streams
    case MoveTo(e, _, _) => e in t.tracked
    case Die(e) => e in t.tracked && !(e in t.playerIds && e in t.streams)
    case Enter(e, entry) => e !in t.tracked && entry.visibleTo == {}
    case Register(p, entry) => p !in t.tracked && entry.visibleTo == {} && !entry.dead
    case Show(e, p) => p in t.playerIds && InSight(t, e, p) && !Lists(t, e, p)
    case Reveal(e, p) => p in t.playerIds && InSight(t, e, p) && !Lists(t, e, p)
    case Hide(e, p) => Lists(t, e, p) && !InSight(t, e, p)
    case Forget(e) => e in t.tracked && !(e in t.playerIds && e in t.streams)
    case Leave(p, order) => Enumerates(order, Listing(t, p))
  }

  function Next(t: Tracker, step: Step): Tracker
  {
    match step
    case Connect(p) => t.(streams := t.streams[p := []])
    case Disconnect(p) => t.(streams := t.streams - {p})
    case MoveTo(e, x, z) => if e in t.tracked then t.(tracked := t.tracked[e := t.tracked[e].(x := x, z := z)]) else t
    case Die(e) => if e in t.tracked then t.(tracked := t.tracked[e := t.tracked[e].(dead := true)]) else t
    case Enter(e, entry) => WithEntry(t, e, entry)
    case Register(p, entry) => WithPlayer(t, p, entry)
    case Show(e, p) => SpawnFor(WithViewer(t, e, p), e, p)
    case Reveal(e, p) => SpawnFor(t, e, p)
    case Hide(e, p) => HideFrom(t, e, p)
    case Forget(e) => Untrack(t, e)
    case Leave(p, order) => Untrack(Told(t, p, order), p)
  }

  // No registered player with a session is dead.
  ghost predicate DeadHaveLeft(t: Tracker)
  {
    forall e :: e in t.tracked && t.tracked[e].dead ==> !(e in t.playerIds && e in t.streams)
  }

  ghost predicate Good(t: Tracker) { Inv(t) && Quiet(t) && DeadHaveLeft(t) }

  lemma {:induction false} DespawnsRemove(s: seq<Packet>, order: seq<Id>)
    ensures ClientSet(s + Despawns(order)) == ClientSet(s) - set x | x in order
    ensures NoDoubleSpawn(s + Despawns(order)) <==> NoDoubleSpawn(s)
    decreases |order|
  {
    if order == [] {
      assert s + Despawns(order) == s;
    } else {
      var front, last := order[..|order| - 1], order[|order| - 1];
      DespawnsRemove(s, front);
      assert s + Despawns(order) == (s + Despawns(front)) + [Despawn(last)];
      ClientAppend(s + Despawns(front), Despawn(last));
      assert order == front + [last];
    }
  }

  lemma ToldClient(t: Tracker, p: Id, order: seq<Id>)
    requires p in t.streams && Enumerates(order, Listing(t, p))
    ensures ClientSet(Told(t, p, order).streams[p]) == ClientSet(t.streams[p]) - Listing(t, p)
    ensures NoDoubleSpawn(Told(t, p, order).streams[p]) <==> NoDoubleSpawn(t.streams[p])
  {
    DespawnsRemove(t.streams[p], order);
    assert (set x | x in order) == Listing(t, p);
  }

  // Removing a player leaves its client with nothing and the other clients in agreement.
  lemma LeaveKeepsGood(t: Tracker, p: Id, order: seq<Id>)
    requires Good(t) && Enumerates(order, Listing(t, p))
    ensures Good(Untrack(Told(t, p, order), p))
  {
    var u := Told(t, p, order);
    if p in t.streams { ToldClient(t, p, order); }
    ToldStillAgrees(t, u, p);
    RemovedPlayer(t, u, p);
    assert p in t.streams && p !in t.playerIds ==> Listing(t, p) == {};
    hide ClientSet, NoDoubleSpawn, Told, Inv;
    UntrackKeepsQuiet(t, u, p);
  }

  lemma UntrackKeepsQuiet(t: Tracker, u: Tracker, e: Id)
    requires Quiet(t) && DeadHaveLeft(t) && u == t.(streams := u.streams)
             && u.streams.Keys == t.streams.Keys && ListsAgree(u)
    requires forall p :: p in t.streams && p != e ==> u.streams[p] == t.streams[p]
    requires e in t.streams ==> ClientSet(u.streams[e]) == {} && NoDoubleSpawn(u.streams[e])
    ensures var r := Untrack(u, e); Quiet(r) && DeadHaveLeft(r)
  {
    hide ClientSet, NoDoubleSpawn;
    if e in u.tracked {
      assert forall p :: p in u.tracked[e].visibleTo ==> Lists(u, e, p);
      assert e !in u.tracked[e].visibleTo;
    }
  }

  lemma ForgetKeepsGood(t: Tracker, e: Id)
    requires Good(t) && e in t.tracked && !(e in t.playerIds && e in t.streams)
    ensures Good(Untrack(t, e))
  {
    UntrackKeepsInv(t, e, Untrack(t, e));
    UntrackKeepsQuiet(t, t, e);
  }

  // Untracking a player that still has a session leaves its client with what it is shown.
  lemma ForgetIsQuietExactly(t: Tracker, e: Id)
    requires Inv(t) && Quiet(t) && e in t.tracked
    ensures Inv(Untrack(t, e))
    ensures Quiet(Untrack(t, e)) <==> (e in t.playerIds && e in t.streams ==> Shown(t, e) == {})
  {
    var r := Untrack(t, e);
    UntrackKeepsInv(t, e, r);
    assert forall p :: p in t.tracked[e].visibleTo ==> Lists(t, e, p);
    assert e !in t.tracked[e].visibleTo;
    assert forall p :: p in t.streams && p !in r.playerIds ==> r.streams[p] == t.streams[p];
    hide ClientSet, NoDoubleSpawn, Shown, Untrack, Lists;
  }

  lemma RegisterKeepsGood(t: Tracker, p: Id, entry: Entry)
    requires Good(t) && p !in t.tracked && entry.visibleTo == {} && !entry.dead
    ensures Good(WithPlayer(t, p, entry))
  {
    var r := WithPlayer(t, p, entry);
    assert forall o, q :: Lists(r, o, q) <==> Lists(t, o, q);
    assert forall q :: Shown(r, q) == Shown(t, q);
    assert Shown(r, p) == {};
    hide ClientSet, NoDoubleSpawn, Shown;
  }

  lemma SessionsKeepGood(t: Tracker, r: Tracker, p: Id)
    requires Good(t) && r == t.(streams := r.streams)
    requires r.streams == t.streams - {p} || (p !in t.tracked && r.streams == t.streams[p := []])
    ensures Good(r)
  {
    assert forall o, q :: Lists(r, o, q) <==> Lists(t, o, q);
    assert forall q :: Shown(r, q) == Shown(t, q);
    assert ClientSet([]) == {} && NoDoubleSpawn([]);
    hide ClientSet, NoDoubleSpawn, Shown;
  }

  // Moving and dying change nobody's lists.
  lemma RestateKeepsGood(t: Tracker, r: Tracker, e: Id)
    requires Good(t) && e in t.tracked && r == t.(tracked := r.tracked) && r.tracked.Keys == t.tracked.Keys
    requires forall o :: o in t.tracked ==> r.tracked[o].visibleTo == t.tracked[o].visibleTo
                                            && r.tracked[o].handled == t.tracked[o].handled
    requires forall o :: o in t.tracked && r.tracked[o].dead ==>
             t.tracked[o].dead || !(o in t.playerIds && o in t.streams)
    ensures Good(r)
  {
    assert forall o, q :: Lists(r, o, q) <==> Lists(t, o, q);
    assert forall q :: Shown(r, q) == Shown(t, q);
    hide ClientSet, NoDoubleSpawn, Shown;
  }

  // Who is registered, has a session and is dead is the same; clients of others have heard nothing.
  lemma ViewKeepsQuiet(t: Tracker, r: Tracker, p: Id)
    requires Quiet(t) && DeadHaveLeft(t) && SamePlaces(t, r) && p in t.playerIds
    requires forall q :: q in t.streams && q != p ==> r.streams[q] == t.streams[q]
    ensures Quiet(r) && DeadHaveLeft(r)
  {
    hide ClientSet, NoDoubleSpawn;
  }

  lemma ShowKeepsGood(t: Tracker, e: Id, p: Id)
    requires Good(t) && p in t.playerIds && InSight(t, e, p) && !Lists(t, e, p)
    ensures Good(SpawnFor(WithViewer(t, e, p), e, p)) && Good(SpawnFor(t, e, p))
  {
    ShowKeepsInv(t, e, p);
    hide Inv, Quiet, DeadHaveLeft;
    ViewKeepsQuiet(t, SpawnFor(WithViewer(t, e, p), e, p), p);
    ViewKeepsQuiet(t, SpawnFor(t, e, p), p);
  }

  lemma HideKeepsGood(t: Tracker, e: Id, p: Id)
    requires Good(t) && Lists(t, e, p)
    ensures Good(HideFrom(t, e, p))
  {
    HideKeepsInv(t, e, p, HideFrom(t, e, p));
    HideLists(t, e, p);
    ViewKeepsQuiet(t, HideFrom(t, e, p), p);
  }

  lemma EnterKeepsGood(t: Tracker, e: Id, entry: Entry)
    requires Good(t) && e !in t.tracked && entry.visibleTo == {}
    ensures Good(WithEntry(t, e, entry))
  {
    NewEntryKeepsInv(t, e, entry);
  }

  lemma StepKeepsGood(t: Tracker, step: Step)
    requires Good(t) && Legal(t, step)
    ensures Good(Next(t, step))
  {
    var r := Next(t, step);
    hide Good;
    match step
    case Connect(p) => SessionsKeepGood(t, r, p);
    case Disconnect(p) => SessionsKeepGood(t, r, p);
    case MoveTo(e, _, _) => RestateKeepsGood(t, r, e);
    case Die(e) => RestateKeepsGood(t, r, e);
    case Enter(e, entry) => EnterKeepsGood(t, e, entry);
    case Register(p, entry) => RegisterKeepsGood(t, p, entry);
    case Show(e, p) => ShowKeepsGood(t, e, p);
    case Reveal(e, p) => ShowKeepsGood(t, e, p);
    case Hide(e, p) => HideKeepsGood(t, e, p);
    case Forget(e) => ForgetKeepsGood(t, e);
    case Leave(p, order) => LeaveKeepsGood(t, p, order);
  }

  ghost predicate IsRun(run: seq<Tracker>, steps: seq<Step>)
  {
    |run| == |steps| + 1 &&
    forall k :: 0 <= k < |steps| ==> Legal(run[k], steps[k]) && run[k + 1] == Next(run[k], steps[k])
  }

  const EMPTY := Tracker(map[], {}, map[])

  // In every state of every run, whatever moves, dies, joins and leaves: each client holds exactly the
  // entities that list it, none was ever spawned twice, and a session off the tracker holds nothing.
  lemma {:induction false} EveryRunIsGood(run: seq<Tracker>, steps: seq<Step>, k: nat)
    requires IsRun(run, steps) && Good(run[0]) && k < |run|
    ensures Good(run[k])
    ensures forall p :: p in run[k].streams ==>
            ClientSet(run[k].streams[p]) == Shown(run[k], p) && NoDoubleSpawn(run[k].streams[p])
  {
    if k > 0 {
      EveryRunIsGood(run, steps, k - 1);
      assert run[k - 1 + 1] == Next(run[k - 1], steps[k - 1]);
      StepKeepsGood(run[k - 1], steps[k - 1]);
    }
    hide Next, Legal, IsRun;
    GoodClients(run[k]);
  }

  lemma GoodClients(t: Tracker)
    requires Good(t)
    ensures forall p :: p in t.streams ==> ClientSet(t.streams[p]) == Shown(t, p) && NoDoubleSpawn(t.streams[p])
  {
    assert forall p :: p in t.streams && p !in t.playerIds ==> Shown(t, p) == {};
    hide ClientSet, NoDoubleSpawn;
  }

  lemma EmptyIsGood()
    ensures Good(EMPTY)
  {
  }

  // ----- what the methods do, in steps -----

  ghost predicate Reaches(t: Tracker, r: Tracker)
  {
    exists run, steps :: IsRun(run, steps) && run[0] == t && run[|steps|] == r
  }

  lemma ReachesSelf(t: Tracker)
    ensures Reaches(t, t)
  {
    assert IsRun([t], []) && [t][0] == t;
  }

  lemma ReachesStep(t: Tracker, u: Tracker, step: Step)
    requires Reaches(t, u) && Legal(u, step)
    ensures Reaches(t, Next(u, step))
  {
    var run, steps :| IsRun(run, steps) && run[0] == t && run[|steps|] == u;
    hide Next, Legal;
    var longer, more := run + [Next(u, step)], steps + [step];
    assert IsRun(longer, more) && longer[0] == t && longer[|more|] == Next(u, step);
  }

  lemma ReachesKeepsGood(t: Tracker, r: Tracker)
    requires Reaches(t, r) && Good(t)
    ensures Good(r)
  {
    hide Next, Legal, Good;
    var run, steps :| IsRun(run, steps) && run[0] == t && run[|steps|] == r;
    EveryRunIsGood(run, steps, |steps|);
  }

  lemma {:induction false} ReachesThrough(t: Tracker, run: seq<Tracker>, steps: seq<Step>, k: nat)
    requires IsRun(run, steps) && k < |run| && Reaches(t, run[0])
    ensures Reaches(t, run[k])
  {
    if k > 0 {
      ReachesThrough(t, run, steps, k - 1);
      assert run[k - 1 + 1] == Next(run[k - 1], steps[k - 1]);
      ReachesStep(t, run[k - 1], steps[k - 1]);
    }
  }

  lemma ReachesTransitive(t: Tracker, u: Tracker, r: Tracker)
    requires Reaches(t, u) && Reaches(u, r)
    ensures Reaches(t, r)
  {
    var run, steps :| IsRun(run, steps) && run[0] == u && run[|steps|] == r;
    ReachesThrough(t, run, steps, |steps|);
  }
}
