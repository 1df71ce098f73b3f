// EntityTracker, updated in place as in the server; every method is proved against the functions of
// module Visibility. The hash containers yield their elements in any order, so every loop picks an
// arbitrary next element.
module EntityTracking {
  import opened Visibility

  class EntityTracker {
    var trackedEntities: map<Id, Entry>
    var playerIds: set<Id>
    var streams: map<Id, seq<Packet>>

    constructor ()
      ensures State() == EMPTY && Good(State())
    {
      EmptyIsGood();
      trackedEntities, playerIds, streams := map[], {}, map[];
    }

    function State(): Tracker
      reads this
    {
      Tracker(trackedEntities, playerIds, streams)
    }

    // The entity-type switch comes down to whether a packet goes out.
    method SpawnEntityForPlayer(p: Id, e: Id)
      requires e in trackedEntities
      modifies this`streams, this`trackedEntities
      ensures State() == SpawnFor(old(State()), e, p)
    {
      if p !in streams {
        return;
      }
      var entry := trackedEntities[e];
      if !entry.handled {
        return;
      }
      streams := streams[p := streams[p] + [Spawn(e)]];
      trackedEntities := trackedEntities[e := entry.(visibleTo := entry.visibleTo + {p})];
    }

    method AddViewer(e: Id, p: Id)
      requires e in trackedEntities
      modifies this`trackedEntities
      ensures State() == WithViewer(old(State()), e, p)
    {
      var entry := trackedEntities[e];
      trackedEntities := trackedEntities[e := entry.(visibleTo := entry.visibleTo + {p})];
    }

    method DropViewer(e: Id, p: Id)
      requires e in trackedEntities
      modifies this`trackedEntities, this`streams
      ensures State() == HideFrom(old(State()), e, p)
    {
      if p in streams {
        streams := streams[p := streams[p] + [Despawn(e)]];
      }
      var entry := trackedEntities[e];
      trackedEntities := trackedEntities[e := entry.(visibleTo := entry.visibleTo - {p})];
    }

    // A session gets the id of its entity, or goes away.
    method OpenSession(id: Id)
      requires Legal(State(), Connect(id))
      modifies this`streams
      ensures State() == Next(old(State()), Connect(id))
      ensures old(Good(State())) ==> Good(State())
    {
      if Good(State()) { StepKeepsGood(State(), Connect(id)); }
      streams := streams[id := []];
    }

    method CloseSession(id: Id)
      requires Legal(State(), Disconnect(id))
      modifies this`streams
      ensures State() == Next(old(State()), Disconnect(id))
      ensures old(Good(State())) ==> Good(State())
    {
      if Good(State()) { StepKeepsGood(State(), Disconnect(id)); }
      streams := streams - {id};
    }

    // An entity moves, or is marked dead.
    method MoveEntity(e: Id, x: real, z: real)
      requires Legal(State(), MoveTo(e, x, z))
      modifies this`trackedEntities
      ensures State() == Next(old(State()), MoveTo(e, x, z))
      ensures old(Good(State())) ==> Good(State())
    {
      if Good(State()) { StepKeepsGood(State(), MoveTo(e, x, z)); }
      trackedEntities := trackedEntities[e := trackedEntities[e].(x := x, z := z)];
    }

    method KillEntity(e: Id)
      requires Legal(State(), Die(e))
      modifies this`trackedEntities
      ensures State() == Next(old(State()), Die(e))
      ensures old(Good(State())) ==> Good(State())
    {
      if Good(State()) { StepKeepsGood(State(), Die(e)); }
      trackedEntities := trackedEntities[e := trackedEntities[e].(dead := true)];
    }

    lemma GoodMeans(t: Tracker)
      ensures Good(t) ==> ListsAgree(t) && DeadHaveLeft(t)
    {
    }

    // Every player in range of a fresh entity sees it at once.
    method TrackEntity(id: Id, entity: Entry)
      requires entity.visibleTo == {}
      modifies this
      ensures State() == Tracked(old(State()), id, entity)
      ensures id !in old(trackedEntities) ==> Reaches(old(State()), State())
      ensures id !in old(trackedEntities) && old(Good(State())) ==> Good(State())
    {
      ghost var was := State();
      trackedEntities := trackedEntities[id := entity];
      ghost var start := State();
      hide Next, Legal, Watch, InSight, Reaches, Good;
      ShowToPlayersInRange(id);
      if id !in was.tracked {
        ReachesSelf(was);
        EnterReaches(was, id, entity);
        ReachesTransitive(was, start, State());
        if Good(was) { ReachesKeepsGood(was, State()); }
      }
    }

    lemma EnterReaches(t: Tracker, id: Id, entity: Entry)
      requires id !in t.tracked && entity.visibleTo == {} && Reaches(t, t)
      ensures Reaches(t, WithEntry(t, id, entity))
    {
      ReachesStep(t, t, Enter(id, entity));
    }

    method ShowIfInRange(e: Id, p: Id)
      requires e in trackedEntities && p in trackedEntities
      modifies this
      ensures State() == ShowStep(old(State()), e, p)
    {
      if p != e && !OutOfRange(trackedEntities[e], trackedEntities[p]) {
        // The viewer is registered before the spawn.
        AddViewer(e, p);
        SpawnEntityForPlayer(p, e);
      }
    }

    // The loop over the players that TrackEntity and AddPlayer share.
    method ShowToPlayersInRange(id: Id)
      requires id in trackedEntities && trackedEntities[id].visibleTo == {}
      modifies this
      ensures State() == Watch(old(State()), id, old(playerIds)) && Reaches(old(State()), State())
    {
      ghost var start := State();
      WatchNobody(start, id);
      ReachesSelf(start);
      hide Watch, InSight, ShowStep, Reaches;
      var rest := playerIds;
      assert start.playerIds - rest == {};
      while rest != {}
        invariant rest <= playerIds == start.playerIds && id in trackedEntities
        invariant State() == Watch(start, id, start.playerIds - rest) && Reaches(start, State())
        decreases |rest|
      {
        ghost var before, told := State(), start.playerIds - rest;
        var p := NextOf(rest);
        WatchNext(start, id, told, p);
        if p in trackedEntities {
          ShowIfInRange(id, p);
        }
        assert start.playerIds - (rest - {p}) == told + {p};
        rest := rest - {p};
      }
      assert start.playerIds - rest == start.playerIds;
    }

    lemma WatchNobody(t: Tracker, id: Id)
      requires id in t.tracked
      ensures Watch(t, id, {}) == t
    {
      var r, e := Watch(t, id, {}), t.tracked[id];
      assert Seen(t, id, {}) == {};
      assert e.visibleTo + {} == e.visibleTo && e.(visibleTo := e.visibleTo) == e;
      assert forall p :: p in t.streams ==> r.streams[p] == t.streams[p];
      assert r.tracked[id] == e && r.tracked.Keys == t.tracked.Keys;
    }

    lemma WatchNext(t: Tracker, id: Id, told: set<Id>, p: Id)
      requires id in t.tracked && t.tracked[id].visibleTo == {} && p in t.playerIds && p !in told
      requires Reaches(t, Watch(t, id, told))
      ensures var u, r := Watch(t, id, told), Watch(t, id, told + {p});
              && u.playerIds == t.playerIds && r.playerIds == t.playerIds && id in u.tracked && id in r.tracked
              && r == ShowStep(u, id, p) && (p !in u.tracked ==> r == u) && Reaches(t, r)
    {
      var u := Watch(t, id, told);
      WatchOneMore(t, id, told, p);
      WatchLists(t, id, told);
      assert !Lists(u, id, p);
      hide Reaches, Watch;
      ShowStepReaches(t, u, id, p);
    }

    lemma ShowStepReaches(t: Tracker, u: Tracker, e: Id, p: Id)
      requires Reaches(t, u) && p in u.playerIds && !Lists(u, e, p)
      ensures Reaches(t, ShowStep(u, e, p))
    {
      hide Reaches;
      if InSight(u, e, p) {
        ReachesStep(t, u, Show(e, p));
      }
    }

    // A new player sees what is in range of it, and is seen by the players in range of it.
    method AddPlayer(id: Id, entity: Entry) returns (ghost order: seq<Id>)
      requires entity.visibleTo == {}
      modifies this
      ensures Enumerates(order, old(trackedEntities).Keys + {id})
      ensures State() == Added(old(State()), id, entity, order)
      ensures ListsAgree(old(State())) && id !in old(trackedEntities) && !entity.dead ==> Reaches(old(State()), State())
      ensures old(Good(State())) && id !in old(trackedEntities) && !entity.dead ==> Good(State())
    {
      ghost var was := State();
      trackedEntities := trackedEntities[id := entity];
      playerIds := playerIds + {id};
      ghost var start := State();
      assert start.tracked.Keys == was.tracked.Keys + {id};
      hide Next, Legal, Watch, Meet, InSight, Reaches, Lists, ListsAgree, Good;
      order := MeetAll(id);
      ghost var met := State();
      FreshlyMet(was, id, entity, order);
      ShowToPlayersInRange(id);
      if ListsAgree(was) && id !in was.tracked && !entity.dead {
        RegisterReaches(was, id, entity);
        ReachesTransitive(was, start, met);
        ReachesTransitive(was, met, State());
        if Good(was) { ReachesKeepsGood(was, State()); }
      }
      GoodMeans(was);
    }

    lemma FreshlyMet(t: Tracker, id: Id, entity: Entry, order: seq<Id>)
      requires entity.visibleTo == {}
      ensures var met := Meet(WithPlayer(t, id, entity), id, order);
              id in met.tracked && met.tracked[id].visibleTo == {} && met.playerIds == t.playerIds + {id}
    {
      var start := WithPlayer(t, id, entity);
      var met := Meet(start, id, order);
      MeetLists(start, id, order);
      NoSelfSight(start);
      assert id in start.tracked && id in met.tracked;
      assert forall q :: !Lists(start, id, q);
      assert forall q :: q in met.tracked[id].visibleTo ==> Lists(met, id, q);
    }

    lemma RegisterReaches(t: Tracker, id: Id, entity: Entry)
      requires ListsAgree(t) && id !in t.tracked && entity.visibleTo == {} && !entity.dead
      ensures Reaches(t, WithPlayer(t, id, entity)) && forall e :: !Lists(WithPlayer(t, id, entity), e, id)
    {
      var r := WithPlayer(t, id, entity);
      assert forall e :: Lists(r, e, id) ==> Lists(t, e, id);
      assert forall e :: !Lists(t, e, id);
      ReachesSelf(t);
      hide Reaches;
      ReachesStep(t, t, Register(id, entity));
    }

    // AddPlayer's loop over all entities.
    method MeetAll(id: Id) returns (ghost order: seq<Id>)
      requires id in trackedEntities && id in playerIds
      modifies this
      ensures Enumerates(order, old(trackedEntities).Keys) && State() == Meet(old(State()), id, order)
      ensures (forall e :: !Lists(old(State()), e, id)) ==> Reaches(old(State()), State())
    {
      ghost var start := State();
      ReachesSelf(start);
      hide Lists, InSight, ShowStep, Reaches;
      var rest := trackedEntities.Keys;
      order := [];
      while rest != {}
        invariant trackedEntities.Keys == start.tracked.Keys && rest <= start.tracked.Keys && id in trackedEntities
        invariant Enumerates(order, start.tracked.Keys - rest) && State() == Meet(start, id, order)
        invariant (forall e :: !Lists(start, e, id)) ==> Reaches(start, State())
        decreases |rest|
      {
        ghost var before := State();
        var e := NextOf(rest);
        MeetNext(start, id, order, e);
        ShowIfInRange(e, id);
        order := order + [e];
        rest := rest - {e};
      }
    }

    lemma MeetNext(t: Tracker, id: Id, es: seq<Id>, e: Id)
      requires id in t.playerIds && e !in es
      ensures var u, r := Meet(t, id, es), Meet(t, id, es + [e]);
              && r == ShowStep(u, e, id) && r.tracked.Keys == t.tracked.Keys
              && ((forall o :: !Lists(t, o, id)) && Reaches(t, u) ==> Reaches(t, r))
    {
      var u := Meet(t, id, es);
      assert (es + [e])[..|es|] == es;
      MeetLists(t, id, es);
      MeetLists(t, id, es + [e]);
      hide Reaches, Meet;
      if (forall o :: !Lists(t, o, id)) && Reaches(t, u) {
        assert !Lists(u, e, id);
        ShowStepReaches(t, u, e, id);
      }
    }

    // DespawnEntityForViewers.
    method DespawnEntityForViewers(id: Id, viewers: set<Id>)
      modifies this`streams
      ensures streams == SendAll(old(streams), viewers, Despawn(id))
    {
      var rest := viewers;
      while rest != {}
        invariant rest <= viewers && streams == SendAll(old(streams), viewers - rest, Despawn(id))
        decreases |rest|
      {
        var p := NextOf(rest);
        if p in streams {
          streams := streams[p := streams[p] + [Despawn(id)]];
        }
        rest := rest - {p};
      }
    }

    method UntrackEntity(id: Id)
      modifies this
      ensures State() == Untrack(old(State()), id)
      ensures !(id in old(playerIds) && id in old(streams)) ==> Reaches(old(State()), State())
      ensures !(id in old(playerIds) && id in old(streams)) && old(Good(State())) ==> Good(State())
    {
      UntrackReaches(State(), id);
      UntrackGood(State(), id);
      hide Reaches, Good;
      if id !in trackedEntities {
        return;
      }
      DespawnEntityForViewers(id, trackedEntities[id].visibleTo);
      ForgetViewer(id);
      trackedEntities := trackedEntities - {id};
      playerIds := playerIds - {id};
    }

    lemma UntrackGood(t: Tracker, id: Id)
      requires !(id in t.playerIds && id in t.streams) ==> Reaches(t, Untrack(t, id))
      ensures !(id in t.playerIds && id in t.streams) && Good(t) ==> Good(Untrack(t, id))
    {
      hide Reaches, Good, Untrack;
      if !(id in t.playerIds && id in t.streams) && Good(t) { ReachesKeepsGood(t, Untrack(t, id)); }
    }

    lemma UntrackReaches(t: Tracker, id: Id)
      ensures !(id in t.playerIds && id in t.streams) ==> Reaches(t, Untrack(t, id))
    {
      ReachesSelf(t);
      hide Reaches;
      if id in t.tracked && !(id in t.playerIds && id in t.streams) {
        ReachesStep(t, t, Forget(id));
      }
    }

    // The loop that takes one id out of every visibleTo.
    method ForgetViewer(id: Id)
      modifies this`trackedEntities
      ensures trackedEntities == map o | o in old(trackedEntities) ::
                old(trackedEntities)[o].(visibleTo := old(trackedEntities)[o].visibleTo - {id})
    {
      var rest := trackedEntities.Keys;
      ghost var was := trackedEntities;
      while rest != {}
        invariant rest <= was.Keys && trackedEntities.Keys == was.Keys
        invariant forall o :: o in was ==>
                    trackedEntities[o] == if o in rest then was[o] else was[o].(visibleTo := was[o].visibleTo - {id})
        decreases |rest|
      {
        var o := NextOf(rest);
        trackedEntities := trackedEntities[o := trackedEntities[o].(visibleTo := trackedEntities[o].visibleTo - {id})];
        rest := rest - {o};
      }
    }

    // RemovePlayer's loop: the player's client is told to drop everything that lists the player.
    method DespawnEverythingFor(id: Id) returns (ghost order: seq<Id>)
      modifies this`streams
      ensures Enumerates(order, Listing(State(), id)) && State() == Told(old(State()), id, order)
    {
      ghost var start := State();
      var rest := trackedEntities.Keys;
      order := [];
      ToldNothing(start, id);
      NoneListed(start, id);
      hide Told, Listing, Enumerates, NoDoubleSpawn, ClientSet;
      while rest != {}
        invariant rest <= trackedEntities.Keys == start.tracked.Keys
        invariant Enumerates(order, Listing(start, id) - rest) && State() == Told(start, id, order)
        decreases |rest|
      {
        var e := NextOf(rest);
        ToldNext(start, id, order, e);
        EnumeratesNext(order, Listing(start, id), rest, e);
        if id in trackedEntities[e].visibleTo {
          order := order + [e];
          if id in streams {
            streams := streams[id := streams[id] + [Despawn(e)]];
          }
        }
        rest := rest - {e};
      }
      assert Listing(start, id) - rest == Listing(start, id);
      ListingOnly(start, State(), id);
    }

    lemma ListingOnly(t: Tracker, u: Tracker, id: Id)
      requires u.tracked == t.tracked
      ensures Listing(u, id) == Listing(t, id)
    {
    }

    lemma NoneListed(t: Tracker, id: Id)
      ensures Listing(t, id) - t.tracked.Keys == {} && Enumerates([], {})
    {
    }

    // One more element is done: it is in the list if it belongs there.
    lemma EnumeratesNext(order: seq<Id>, all: set<Id>, rest: set<Id>, e: Id)
      requires Enumerates(order, all - rest) && e in rest
      ensures Enumerates(if e in all then order + [e] else order, all - (rest - {e}))
    {
      assert all - (rest - {e}) == (all - rest) + if e in all then {e} else {};
      assert e !in order;
    }

    lemma ToldNothing(t: Tracker, id: Id)
      ensures Told(t, id, []) == t
    {
      assert id in t.streams ==> t.streams[id] + Despawns([]) == t.streams[id];
    }

    lemma ToldNext(t: Tracker, id: Id, order: seq<Id>, e: Id)
      ensures var u, r := Told(t, id, order), Told(t, id, order + [e]);
              && u.tracked == t.tracked && u.playerIds == t.playerIds && u.streams.Keys == t.streams.Keys
              && r == if id in u.streams then u.(streams := u.streams[id := u.streams[id] + [Despawn(e)]]) else u
      ensures e in Listing(t, id) <==> e in t.tracked && id in t.tracked[e].visibleTo
    {
      if id in t.streams {
        assert t.streams[id] + Despawns(order + [e]) == (t.streams[id] + Despawns(order)) + [Despawn(e)];
      }
    }

    // The player's client ends up empty and no list names the player.
    method RemovePlayer(id: Id) returns (ghost order: seq<Id>)
      modifies this
      ensures Legal(old(State()), Leave(id, order)) && State() == Next(old(State()), Leave(id, order))
      ensures var t := old(State());
              Inv(t) ==>
                && Inv(State()) && State().tracked.Keys == t.tracked.Keys - {id}
                && State().playerIds == t.playerIds - {id}
                && (id in t.playerIds && id in t.streams ==>
                   id in State().streams && ClientSet(State().streams[id]) == {})
                && (forall e, p :: Lists(State(), e, p) <==> Lists(t, e, p) && e != id && p != id)
      ensures old(Good(State())) ==> Good(State())
    {
      ghost var start := State();
      hide Good;
      order := DespawnEverythingFor(id);
      ghost var told := State();
      if Inv(start) {
        ToldAgrees(start, id, order);
      }
      UntrackEntity(id);
      if Inv(start) {
        RemovedPlayer(start, told, id);
      }
      if Good(start) {
        StepKeepsGood(start, Leave(id, order));
      }
    }

    lemma ToldAgrees(t: Tracker, id: Id, order: seq<Id>)
      requires Inv(t) && Enumerates(order, Listing(t, id))
      ensures var u := Told(t, id, order);
              && ListsAgree(u) && OthersAgree(u, id)
              && (id in t.playerIds && id in t.streams ==> ClientSet(u.streams[id]) == {})
    {
      if id in t.streams { ToldClient(t, id, order); }
      ToldStillAgrees(t, Told(t, id, order), id);
    }

    // Tick, first part: untrack what died since the last tick.
    method SweepDead()
      requires Inv(State())
      modifies this
      ensures Inv(State())
      ensures trackedEntities.Keys == Living(old(State())) && playerIds == old(playerIds) * Living(old(State()))
      ensures streams.Keys == old(streams).Keys
      ensures forall e :: e in trackedEntities ==> SamePlace(old(trackedEntities)[e], trackedEntities[e])
      ensures forall e, p :: Lists(State(), e, p) <==>
                Lists(old(State()), e, p) && e in Living(old(State())) && p in Living(old(State()))
      ensures DeadHaveLeft(old(State())) ==> Reaches(old(State()), State())
    {
      ghost var start := State();
      ReachesSelf(start);
      NobodyUntracked(start);
      var rest := Dead(State());
      hide Inv, UntrackedAll, Untrack, Reaches, DeadHaveLeft, Dead, Living, Lists, SamePlace, Good;
      while rest != {}
        invariant rest <= Dead(start) && Inv(State()) && UntrackedAll(start, Dead(start) - rest, State())
        invariant DeadHaveLeft(start) ==> Reaches(start, State())
        decreases |rest|
      {
        ghost var before := State();
        var e := NextOf(rest);
        DeadIsTracked(start, Dead(start) - rest, before, e);
        UntrackOneMore(start, Dead(start) - rest, before, e);
        if DeadHaveLeft(start) {
          SweepReaches(start, Dead(start) - rest, before, e);
        }
        UntrackEntity(e);
        assert Dead(start) - (rest - {e}) == (Dead(start) - rest) + {e};
        rest := rest - {e};
      }
      assert Dead(start) - rest == Dead(start);
      SweptAreLiving(start, State());
    }

    lemma NobodyUntracked(t: Tracker)
      ensures Dead(t) - Dead(t) == {} && UntrackedAll(t, {}, t)
    {
    }

    lemma DeadIsTracked(t: Tracker, gone: set<Id>, u: Tracker, e: Id)
      requires UntrackedAll(t, gone, u) && e in Dead(t) && e !in gone
      ensures e in u.tracked
    {
    }

    lemma SweptAreLiving(t: Tracker, u: Tracker)
      requires UntrackedAll(t, Dead(t), u) && Inv(t)
      ensures u.tracked.Keys == Living(t) && u.playerIds == t.playerIds * Living(t) && u.streams.Keys == t.streams.Keys
      ensures forall e :: e in u.tracked ==> SamePlace(t.tracked[e], u.tracked[e])
      ensures forall e, p :: Lists(u, e, p) <==> Lists(t, e, p) && e in Living(t) && p in Living(t)
    {
      assert t.tracked.Keys - Dead(t) == Living(t);
      assert forall e, p :: Lists(t, e, p) ==> e in t.tracked && p in t.tracked;
      hide Lists, ClientsAgree;
    }

    lemma SweepReaches(t: Tracker, gone: set<Id>, u: Tracker, e: Id)
      requires DeadHaveLeft(t) && UntrackedAll(t, gone, u) && e in Dead(t) && e in u.tracked && Reaches(t, u)
      ensures Reaches(t, Untrack(u, e))
    {
      ReachesStep(t, u, Forget(e));
    }

    // Tick, second part: every viewer that moved away, or whose entity did, loses sight of it.
    method HidePass()
      requires Inv(State())
      modifies this
      ensures Inv(State()) && SamePlaces(old(State()), State()) && Reaches(old(State()), State())
      ensures forall e, p :: Lists(State(), e, p) <==> Lists(old(State()), e, p) && InSight(old(State()), e, p)
    {
      ghost var start := State();
      SamePlacesReflexive(start);
      ListedIsTracked(start);
      ReachesSelf(start);
      hide Inv, SamePlaces, Lists, InSight, Reaches;
      var rest := trackedEntities.Keys;
      while rest != {}
        invariant rest <= trackedEntities.Keys == start.tracked.Keys && Inv(State()) && SamePlaces(start, State())
        invariant Reaches(start, State())
        invariant forall e, p :: Lists(State(), e, p) <==> Lists(start, e, p) && (e in rest || InSight(start, e, p))
        decreases |rest|
      {
        ghost var before := State();
        var e := NextOf(rest);
        SamePlacesSameSight(start, before);
        HideFarViewers(e);
        SamePlacesTransitive(start, before, State());
        ReachesTransitive(start, before, State());
        rest := rest - {e};
      }
    }

    // The loop over the viewers of one entity.
    method HideFarViewers(e: Id)
      requires Inv(State()) && e in trackedEntities
      modifies this
      ensures Inv(State()) && SamePlaces(old(State()), State()) && Reaches(old(State()), State())
      ensures forall o, p ::
                Lists(State(), o, p) <==> Lists(old(State()), o, p) && (o != e || InSight(old(State()), e, p))
    {
      ghost var start := State();
      SamePlacesReflexive(start);
      ViewersOf(start, e);
      ReachesSelf(start);
      hide Inv, SamePlaces, Lists, InSight, HideFrom, HideStep, Reaches;
      var viewers := trackedEntities[e].visibleTo;
      var rest := viewers;
      while rest != {}
        invariant rest <= viewers && Inv(State()) && SamePlaces(start, State()) && Reaches(start, State())
        invariant trackedEntities.Keys == start.tracked.Keys
        invariant forall o, p :: Lists(State(), o, p) <==>
                    Lists(start, o, p) && (o != e || p in rest || InSight(start, e, p))
        decreases |rest|
      {
        ghost var before := State();
        var p := NextOf(rest);
        SamePlacesSameSight(start, before);
        // An untracked viewer would just be erased; no listed viewer is untracked.
        if p in trackedEntities {
          HideIfFar(e, p);
          HideStepSpec(before, e, p);
          HideStepReaches(start, before, e, p);
          SamePlacesTransitive(start, before, State());
        }
        rest := rest - {p};
      }
    }

    lemma HideStepReaches(t: Tracker, u: Tracker, e: Id, p: Id)
      requires Reaches(t, u) && Lists(u, e, p) && p in u.tracked && e in u.tracked
      ensures Reaches(t, HideStep(u, e, p))
    {
      hide Reaches;
      if OutOfRange(u.tracked[e], u.tracked[p]) {
        ReachesStep(t, u, Hide(e, p));
      }
    }

    method HideIfFar(e: Id, p: Id)
      requires e in trackedEntities && p in trackedEntities
      modifies this
      ensures State() == HideStep(old(State()), e, p)
    {
      if OutOfRange(trackedEntities[e], trackedEntities[p]) {
        DropViewer(e, p);
      }
    }

    // Tick, third part: every player is shown what is in range and not listed for it yet.
    method ShowPass()
      requires Inv(State())
      modifies this
      ensures Inv(State()) && SamePlaces(old(State()), State()) && Reaches(old(State()), State())
      ensures forall e, p :: Lists(State(), e, p) <==>
                Lists(old(State()), e, p)
                || (p in old(playerIds) && InSight(old(State()), e, p) && Showable(old(State()), e, p))
    {
      ghost var start := State();
      SamePlacesReflexive(start);
      PlayersAreTracked(start);
      ReachesSelf(start);
      hide Inv, SamePlaces, Lists, InSight, Showable, Reaches;
      var rest := playerIds;
      while rest != {}
        invariant rest <= playerIds == start.playerIds && start.playerIds <= trackedEntities.Keys
        invariant Inv(State()) && SamePlaces(start, State()) && Reaches(start, State())
        invariant forall e, p :: Lists(State(), e, p) <==>
                    Lists(start, e, p)
                    || (p in start.playerIds && p !in rest && InSight(start, e, p) && Showable(start, e, p))
        decreases |rest|
      {
        ghost var before := State();
        var p := NextOf(rest);
        SamePlacesSameSight(start, before);
        ShowMissing(p);
        SamePlacesTransitive(start, before, State());
        ReachesTransitive(start, before, State());
        rest := rest - {p};
      }
    }

    // The loop over all entities for one player.
    method ShowMissing(p: Id)
      requires Inv(State()) && p in playerIds && p in trackedEntities
      modifies this
      ensures Inv(State()) && SamePlaces(old(State()), State()) && Reaches(old(State()), State())
      ensures forall e, q :: Lists(State(), e, q) <==>
                Lists(old(State()), e, q) || (q == p && InSight(old(State()), e, p) && Showable(old(State()), e, p))
    {
      ghost var start := State();
      SamePlacesReflexive(start);
      InSightIsTracked(start, p);
      ReachesSelf(start);
      hide Inv, SamePlaces, Lists, InSight, Showable, ShowLater, Reaches;
      var rest := trackedEntities.Keys;
      while rest != {}
        invariant rest <= trackedEntities.Keys == start.tracked.Keys && p in trackedEntities && p in playerIds
        invariant Inv(State()) && SamePlaces(start, State()) && Reaches(start, State())
        invariant forall e, q :: Lists(State(), e, q) <==>
                    Lists(start, e, q) || (q == p && e !in rest && InSight(start, e, p) && Showable(start, e, p))
        decreases |rest|
      {
        ghost var before := State();
        var e := NextOf(rest);
        SamePlacesSameSight(start, before);
        ShowUnlessListed(e, p);
        ShowLaterSpec(before, e, p);
        ShowLaterReaches(start, before, e, p);
        SamePlacesTransitive(start, before, State());
        rest := rest - {e};
      }
    }

    lemma ShowLaterReaches(t: Tracker, u: Tracker, e: Id, p: Id)
      requires Reaches(t, u) && p in u.playerIds
      ensures Reaches(t, ShowLater(u, e, p))
    {
      hide Reaches;
      if InSight(u, e, p) && !Lists(u, e, p) {
        ReachesStep(t, u, Reveal(e, p));
      }
    }

    method ShowUnlessListed(e: Id, p: Id)
      requires e in trackedEntities && p in trackedEntities
      modifies this
      ensures State() == ShowLater(old(State()), e, p)
    {
      if e == p {
        return;
      }
      if OutOfRange(trackedEntities[e], trackedEntities[p]) || p in trackedEntities[e].visibleTo {
        return;
      }
      SpawnEntityForPlayer(p, e);
    }

    // After a tick, a player other than the entity itself is listed exactly when it is in range (and
    // has a session, and the entity's type can be shown), and every client agrees with the lists.
    method Tick()
      requires Inv(State())
      modifies this
      ensures Inv(State())
      ensures trackedEntities.Keys == Living(old(State())) && playerIds == old(playerIds) * Living(old(State()))
      ensures forall e :: e in trackedEntities ==> SamePlace(old(trackedEntities)[e], trackedEntities[e])
      ensures forall e, p :: p in playerIds && Showable(State(), e, p) ==>
              (Lists(State(), e, p) <==> InSight(State(), e, p))
      ensures forall e, p :: Lists(State(), e, p) ==> InSight(State(), e, p)
      ensures DeadHaveLeft(old(State())) ==> Reaches(old(State()), State())
      ensures old(Good(State())) ==> Good(State())
    {
      ghost var start := State();
      GoodMeans(start);
      hide Reaches, DeadHaveLeft, Good;
      SweepDead();
      ghost var swept := State();
      HidePass();
      ghost var hidden := State();
      SamePlacesSameSight(swept, hidden);
      ShowPass();
      SamePlacesSameSight(hidden, State());
      if DeadHaveLeft(start) {
        ReachesTransitive(start, swept, hidden);
        ReachesTransitive(start, hidden, State());
        if Good(start) { ReachesKeepsGood(start, State()); }
      }
    }
  }
}
