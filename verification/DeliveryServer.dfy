// The parts of Server that keep the reverse index and fan block changes out, on session objects.
// Every method is proved to make the step of module ChunkIndex that carries its name.
module DeliveryServer {
  import opened Sequences
  import opened BlockChanges
  import opened Delivery
  import opened ChunkIndex
  import opened ChunkSending

  // The count at the end of WaitForSpawnChunks: a player may enter when every chunk of the square around
  // it is flushed.
  method SpawnGate(flushed: set<Pos>, c: Pos, viewRadius: ViewRadius) returns (pass: bool)
    ensures pass <==> SquareFlushed(flushed, c, GATE_RADIUS)
  {
    var radius := Min(3, viewRadius);
    var side := radius * 2 + 1;
    var total := side * side;
    var loaded := 0;
    var dx := -radius;
    while dx <= radius
      invariant -radius <= dx <= radius + 1
      invariant 0 <= loaded <= (dx + radius) * side
      invariant loaded == (dx + radius) * side <==>
                forall p: Pos :: c.x - radius <= p.x < c.x + dx && Dist(p.z, c.z) <= radius ==> p in flushed
    {
      var dz := -radius;
      ghost var before := loaded;
      while dz <= radius
        invariant -radius <= dz <= radius + 1
        invariant before <= loaded <= before + (dz + radius)
        invariant loaded == before + (dz + radius) <==>
                  forall p: Pos :: p.x == c.x + dx && c.z - radius <= p.z < c.z + dz ==> p in flushed
      {
        var p := Pos(c.x + dx, c.z + dz);
        if p in flushed {
          loaded := loaded + 1;
        }
        dz := dz + 1;
      }
      assert (dx + 1 + radius) * side == (dx + radius) * side + side;
      dx := dx + 1;
    }
    assert total == (dx + radius) * side;
    assert forall p: Pos :: InRange(p, c, radius) <==> c.x - radius <= p.x < c.x + dx && Dist(p.z, c.z) <= radius;
    // The progress log takes the count modulo a quarter of the total.
    var logged := loaded % (total / 4) == 0;
    pass := loaded >= total;
  }

  class Server {
    var players: seq<PlayerSession>
    var chunkSessions: map<Key, seq<PlayerSession>>
    const chunkSender: ChunkSender

    constructor ()
      ensures Shows(World([], map[], map[])) && fresh(chunkSender)
    {
      players, chunkSessions := [], map[];
      chunkSender := new ChunkSender();
    }

    // The server is in abstract state w.
    ghost predicate Shows(w: World<PlayerSession>)
      reads this, chunkSender, players
    {
      && players == w.players && chunkSessions == w.index && Views(w.sess)
      && (forall t :: t in w.sess ==> t in players)
    }

    // Every player's session looks as listed.
    ghost predicate Views(sess: map<PlayerSession, Session>)
      reads this, chunkSender, players
    {
      forall t :: t in players ==> t in sess && chunkSender.View(t) == sess[t]
    }

    lemma ViewsMean(sess: map<PlayerSession, Session>)
      requires Views(sess)
      ensures forall t :: t in players ==> t in sess && chunkSender.View(t) == sess[t]
    {
    }

    lemma ShowsMean(w: World<PlayerSession>)
      ensures Shows(w) <==> players == w.players && chunkSessions == w.index && Views(w.sess)
                            && (forall t :: t in w.sess ==> t in players)
    {
      hide Views;
    }

    // One session has become x; the others look as before.
    lemma ViewsWith(sess: map<PlayerSession, Session>, s: PlayerSession, x: Session)
      requires chunkSender.View(s) == x
      requires forall t :: t in players && t != s ==> t in sess && chunkSender.View(t) == sess[t]
      ensures Views(sess[s := x])
    {
      hide ChunkSender.View;
    }

    lemma ViewIs(s: PlayerSession)
      ensures var v := chunkSender.View(s);
              && v.conn == s.connState && v.dim == s.dimension && v.flushed == s.flushedChunks && v.sent == s.sentChunks
              && (v.Active() <==> s.connState != LoggingIn)
    {
    }

    method IndexAddChunk(s: PlayerSession, pos: Pos)
      modifies this`chunkSessions
      ensures chunkSessions == Add(old(chunkSessions), Key(pos, s.dimension), s)
    {
      var key := Key(pos, s.dimension);
      var vec := if key in chunkSessions then chunkSessions[key] else [];
      var n := 0;
      while n < |vec|
        invariant 0 <= n <= |vec| && s !in vec[..n]
      {
        if vec[n] == s {
          return;
        }
        n := n + 1;
      }
      chunkSessions := chunkSessions[key := vec + [s]];
      assert vec[..n] == vec;
      assert [] + [s] == [s];
    }

    method IndexRemoveChunk(s: PlayerSession, pos: Pos)
      modifies this`chunkSessions
      ensures chunkSessions == Remove(old(chunkSessions), Key(pos, s.dimension), s)
    {
      var key := Key(pos, s.dimension);
      if key !in chunkSessions {
        return;
      }
      var vec := Drop(chunkSessions[key], s);
      if vec == [] {
        chunkSessions := chunkSessions - {key};
      } else {
        chunkSessions := chunkSessions[key := vec];
      }
    }

    method IndexRemoveSession(s: PlayerSession)
      modifies this`chunkSessions
      ensures chunkSessions == RemoveChunks(old(chunkSessions), s, s.dimension, s.flushedChunks)
    {
      RemoveNone(chunkSessions, s, s.dimension);
      var rest := s.flushedChunks;
      while rest != {}
        invariant rest <= s.flushedChunks
        invariant chunkSessions == RemoveChunks(old(chunkSessions), s, s.dimension, s.flushedChunks - rest)
        decreases |rest|
      {
        var pos :| pos in rest;
        RemoveOneMore(old(chunkSessions), s, s.dimension, s.flushedChunks - rest, pos);
        IndexRemoveChunk(s, pos);
        assert s.flushedChunks - (rest - {pos}) == (s.flushedChunks - rest) + {pos};
        rest := rest - {pos};
      }
      assert s.flushedChunks - rest == s.flushedChunks;
    }

    // The drain of the two change lists after a session's turn.
    method DrainFlushed(s: PlayerSession)
      modifies this`chunkSessions, s`newlyFlushed
      ensures chunkSessions == AddChunks(old(chunkSessions), s, s.dimension, old(s.newlyFlushed))
      ensures s.newlyFlushed == []
    {
      var list := s.newlyFlushed;
      var n := 0;
      while n < |list|
        invariant 0 <= n <= |list| && s.newlyFlushed == list
        invariant chunkSessions == AddChunks(old(chunkSessions), s, s.dimension, list[..n])
      {
        assert list[..n + 1][..n] == list[..n];
        IndexAddChunk(s, list[n]);
        n := n + 1;
      }
      assert list[..n] == list;
      s.newlyFlushed := [];
    }

    method DrainUnloaded(s: PlayerSession)
      modifies this`chunkSessions, s`newlyUnloaded
      ensures chunkSessions == RemoveChunks(old(chunkSessions), s, s.dimension, Elements(old(s.newlyUnloaded)))
      ensures s.newlyUnloaded == []
    {
      RemoveNone(chunkSessions, s, s.dimension);
      ghost var start := chunkSessions;
      var list := s.newlyUnloaded;
      var n := 0;
      while n < |list|
        invariant 0 <= n <= |list| && s.newlyUnloaded == list
        invariant chunkSessions == RemoveChunks(start, s, s.dimension, Elements(list[..n]))
      {
        RemoveNext(start, s, s.dimension, list, n);
        IndexRemoveChunk(s, list[n]);
        n := n + 1;
      }
      assert list[..n] == list;
      s.newlyUnloaded := [];
    }

    lemma RemoveNext(m: map<Key, seq<PlayerSession>>, s: PlayerSession, dim: int, list: seq<Pos>, n: nat)
      requires n < |list|
      ensures Remove(RemoveChunks(m, s, dim, Elements(list[..n])), Key(list[n], dim), s)
              == RemoveChunks(m, s, dim, Elements(list[..n + 1]))
    {
      var gone := Elements(list[..n]);
      assert list[..n + 1] == list[..n] + [list[n]];
      assert Elements(list[..n + 1]) == gone + {list[n]};
      if list[n] in gone {
        RemoveAgain(m, s, dim, gone, list[n]);
        assert gone + {list[n]} == gone;
      } else {
        RemoveOneMore(m, s, dim, gone, list[n]);
      }
    }

    method DrainIndexUpdates(s: PlayerSession)
      modifies this`chunkSessions, s`newlyFlushed, s`newlyUnloaded
      ensures chunkSessions == DrainLists(old(chunkSessions), s, old(chunkSender.View(s)))
      ensures chunkSender.View(s) == Drained(old(chunkSender.View(s)))
    {
      DrainFlushed(s);
      DrainUnloaded(s);
    }

    // Maps that agree but for one session agree on every other session.
    lemma OthersAgree<V>(m: map<PlayerSession, V>, n: map<PlayerSession, V>, s: PlayerSession)
      requires m - {s} == n - {s}
      ensures forall t :: t != s && t in m ==> t in n && m[t] == n[t]
      ensures forall t :: t != s && t in n ==> t in m
    {
      forall t | t != s && (t in m || t in n) ensures t in m && t in n && m[t] == n[t] {
        assert t in m <==> t in m - {s};
        assert t in n <==> t in n - {s};
        assert (m - {s})[t] == (n - {s})[t];
      }
    }

    // HandleConnectionState for an active session.
    method HandleActiveSession(s: PlayerSession, e: Surroundings) returns (ghost tick: Tick)
      requires s.connState != LoggingIn
      modifies chunkSender, s
      ensures old(s.Where()).Expects(e, tick) && s.Where() == old(s.Where()).After(e, s.connState.Playing?)
      ensures var x := old(chunkSender.View(s));
              && Schedule(x, tick.center, tick.radius, tick.generated, tick.order, tick.dropped)
              && chunkSender.View(s) == Visited(x, tick)
      ensures forall t :: t in players && t != s ==> chunkSender.View(t) == old(chunkSender.View(t))
    {
      if s.connState == Playing {
        ghost var x := chunkSender.View(s);
        assert x.conn == Playing;
        hide ChunkSender.View, Served, Schedule, GateOpen;
        tick := TakeTurn(s, e, 16, s.Where().GateChunk(e), s.Where().GateWaits(e));
        ServedKeepsConnection(x, tick);
      } else {
        hide ChunkSender.View, Visited, Schedule;
        tick := WaitForSpawnChunks(s, e);
      }
    }

    // One session's turn of the chunk sender; the other sessions do not notice.
    method TakeTurn(s: PlayerSession, e: Surroundings, batchSize: int, ghost spawn: Pos, ghost portalWait: bool)
      returns (ghost tick: Tick)
      modifies chunkSender, s
      ensures Delivers(tick, old(s.Center()), EffectiveRadius(old(s.viewDistanceOverride), e.viewRadius),
                       e.generated, batchSize, e.ready, e.live, e.finished)
      ensures tick.spawn == spawn && tick.portalWait == portalWait && s.Where() == old(s.Where())
      ensures var x := old(chunkSender.View(s));
              && Schedule(x, tick.center, tick.radius, tick.generated, tick.order, tick.dropped)
              && chunkSender.View(s) == Served(x, tick)
      ensures forall t :: t in players && t != s ==> chunkSender.View(t) == old(chunkSender.View(t))
    {
      tick := chunkSender.Turn(s, e, batchSize, spawn, portalWait);
      OthersAgree(old(chunkSender.inFlight), chunkSender.inFlight, s);
      OthersAgree(old(chunkSender.subRegionFlight), chunkSender.subRegionFlight, s);
    }

    // Serve a session that is not in the world yet, put it at its portal once the area there is ready,
    // and let it in when the chunks around it have been sent.
    method WaitForSpawnChunks(s: PlayerSession, e: Surroundings) returns (ghost tick: Tick)
      requires s.connState == WaitingForSpawnChunks
      modifies chunkSender, s
      ensures old(s.Where()).Expects(e, tick) && s.Where() == old(s.Where()).After(e, s.connState.Playing?)
      ensures var x := old(chunkSender.View(s));
              && Schedule(x, tick.center, tick.radius, tick.generated, tick.order, tick.dropped)
              && chunkSender.View(s) == Visited(x, tick)
      ensures forall t :: t in players && t != s ==> chunkSender.View(t) == old(chunkSender.View(t))
    {
      ghost var spawn, portalWait := s.Where().GateChunk(e), s.Where().GateWaits(e);
      hide ChunkSender.View, Served, Schedule, Gated;
      Override(s, if s.pendingPortalPlacement then PORTAL_SEARCH_CHUNK_RADIUS + 1
                  else if s.portalAreaLoaded then 0 else 3);
      tick := TakeTurn(s, e, e.flushChunkCount, spawn, portalWait);
      PassGate(s, e, tick);
    }

    method Override(s: PlayerSession, override: nat)
      modifies s`viewDistanceOverride
      ensures s.Where() == old(s.Where()).(viewDistanceOverride := override)
      ensures chunkSender.View(s) == old(chunkSender.View(s))
      ensures forall t :: t in players && t != s ==> chunkSender.View(t) == old(chunkSender.View(t))
    {
      s.viewDistanceOverride := override;
    }

    // A waiting player's place once its portal has been looked for, and at the end of its turn.
    ghost function Placed(at: Place, e: Surroundings): Place
    {
      if !at.pendingPortalPlacement || at.GateWaits(e) then at
      else at.(x := e.portalX, z := e.portalZ, pendingPortalPlacement := false, portalAreaLoaded := true)
    }

    ghost function Passed(at: Place, e: Surroundings, playing: bool): Place
    {
      var there := Placed(at, e);
      if playing then Place(Playing, there.x, there.z, 0, false, false) else there
    }

    // The second half of WaitForSpawnChunks.
    method PassGate(s: PlayerSession, e: Surroundings, ghost t: Tick)
      requires s.connState == WaitingForSpawnChunks && t.spawn == s.Where().GateChunk(e)
               && t.portalWait == s.Where().GateWaits(e)
      modifies s
      ensures chunkSender.View(s) == Gated(old(chunkSender.View(s)), t)
      ensures s.Where() == Passed(old(s.Where()), e, s.connState.Playing?)
      ensures forall t :: t in players && t != s ==> chunkSender.View(t) == old(chunkSender.View(t))
    {
      assert chunkSender.View(s).conn == s.connState && chunkSender.View(s).flushed == s.flushedChunks;
      ghost var waits := s.Where().GateWaits(e);
      hide ChunkSender.View;
      var ready := PlaceAtPortal(s, e);
      if !ready {
        assert waits;
        return;
      }
      var pass := SpawnGate(s.flushedChunks, s.Center(), e.viewRadius);
      if pass {
        Admit(s);
      }
    }

    method PlaceAtPortal(s: PlayerSession, e: Surroundings) returns (ready: bool)
      modifies s
      ensures ready == !old(s.Where().GateWaits(e)) && (ready ==> s.Center() == old(s.Where().GateChunk(e)))
      ensures s.Where() == Placed(old(s.Where()), e)
      ensures s.flushedChunks == old(s.flushedChunks)
      ensures chunkSender.View(s) == old(chunkSender.View(s))
      ensures forall t :: t in players && t != s ==> chunkSender.View(t) == old(chunkSender.View(t))
    {
      if s.pendingPortalPlacement {
        if !e.portalAreaReady {
          return false;
        }
        s.x, s.z := e.portalX, e.portalZ;
        s.pendingPortalPlacement, s.portalAreaLoaded := false, true;
      }
      ready := true;
    }

    method Admit(s: PlayerSession)
      modifies s
      ensures chunkSender.View(s) == old(chunkSender.View(s)).(conn := Playing)
      ensures s.Where() == Place(Playing, old(s.x), old(s.z), 0, false, false)
      ensures forall t :: t in players && t != s ==> chunkSender.View(t) == old(chunkSender.View(t))
    {
      s.viewDistanceOverride, s.pendingPortalPlacement, s.portalAreaLoaded := 0, false, false;
      s.connState := Playing;
    }

    // One active session's turn in Tick: HandleConnectionState, then the drain.
    method VisitSession(s: PlayerSession, e: Surroundings, ghost w: World<PlayerSession>) returns (ghost tick: Tick)
      requires Shows(w) && s in players && s.connState != LoggingIn
      modifies this`chunkSessions, chunkSender, s
      ensures old(s.Where()).Expects(e, tick) && s.Where() == old(s.Where()).After(e, s.connState.Playing?)
      ensures Legal(w, Visit(s, tick)) && Shows(Next(w, Visit(s, tick)))
    {
      hide *;
      ShowsMean(w);
      ViewsMean(w.sess);
      ViewIs(s);
      tick := VisitAndDrain(s, e);
      ghost var v := Visited(w.sess[s], tick);
      LegalVisit(w, s, tick);
      NextVisit(w, s, tick);
      ViewsWith(w.sess, s, Drained(v));
      ShowsMean(Next(w, Visit(s, tick)));
    }

    method VisitAndDrain(s: PlayerSession, e: Surroundings) returns (ghost tick: Tick)
      requires s.connState != LoggingIn
      modifies this`chunkSessions, chunkSender, s
      ensures old(s.Where()).Expects(e, tick) && s.Where() == old(s.Where()).After(e, s.connState.Playing?)
      ensures var x := old(chunkSender.View(s)); var v := Visited(x, tick);
              && Schedule(x, tick.center, tick.radius, tick.generated, tick.order, tick.dropped)
              && chunkSender.View(s) == Drained(v) && chunkSessions == DrainLists(old(chunkSessions), s, v)
      ensures forall t :: t in players && t != s ==> chunkSender.View(t) == old(chunkSender.View(t))
    {
      hide ChunkSender.View, Visited, Drained, DrainLists, Schedule;
      tick := HandleActiveSession(s, e);
      DrainIndexUpdates(s);
    }

    lemma LegalVisit(w: World<PlayerSession>, s: PlayerSession, t: Tick)
      requires s in w.sess && w.sess[s].Active()
      requires Schedule(w.sess[s], t.center, t.radius, t.generated, t.order, t.dropped)
      ensures Legal(w, Visit(s, t))
    {
    }

    lemma NextVisit(w: World<PlayerSession>, s: PlayerSession, t: Tick)
      requires s in w.sess
      ensures var v := Visited(w.sess[s], t);
              Next(w, Visit(s, t)) == World(w.players, w.sess[s := Drained(v)], DrainLists(w.index, s, v))
    {
    }

    lemma NextMove(w: World<PlayerSession>, s: PlayerSession, dim: int)
      requires s in w.sess
      ensures w.sess[s].Active() && dim != w.sess[s].dim ==> Legal(w, Move(s, dim))
      ensures var r := Reset(w.sess[s], dim);
              ChangeDimension(w.sess[s], dim) == r.(stream := r.stream + [Respawn(dim)], conn := WaitingForSpawnChunks)
      ensures Next(w, Move(s, dim)) == World(w.players, w.sess[s := ChangeDimension(w.sess[s], dim)],
                                             RemoveChunks(w.index, s, w.sess[s].dim, w.sess[s].flushed))
    {
    }

    // Move a player to another dimension: forget everything it was sent, make the client forget it too,
    // and let it wait for the chunks there.
    method SendPlayerToDimension(dim: int, s: PlayerSession, entityX: real, entityZ: real,
                                 destOverride: Option<(real, real)>, ghost w: World<PlayerSession>)
      requires Shows(w) && s in players && s.connState != LoggingIn
      modifies this`chunkSessions, chunkSender, s
      ensures if dim == old(s.dimension) then Shows(w)
              else Legal(w, Move(s, dim)) && Shows(Next(w, Move(s, dim)))
      ensures if dim == old(s.dimension) then s.Where() == old(s.Where())
              else Arrives(old(s.Where()), s.Where(), dim, entityX, entityZ, destOverride)
    {
      hide *;
      ShowsMean(w);
      ViewsMean(w.sess);
      ViewIs(s);
      if dim == s.dimension {
        return;
      }
      NextMove(w, s, dim);
      ResetDimensionState(s, dim);
      Enter(s, dim, entityX, entityZ, destOverride);
      ViewsWith(w.sess, s, ChangeDimension(w.sess[s], dim));
      ShowsMean(Next(w, Move(s, dim)));
    }

    method ResetDimensionState(s: PlayerSession, dim: int)
      modifies this`chunkSessions, chunkSender, s
      ensures chunkSessions == RemoveChunks(old(chunkSessions), s, old(s.dimension), old(s.flushedChunks))
      ensures chunkSender.View(s) == Reset(old(chunkSender.View(s)), dim) && s.dimension == dim
      ensures s.Where() == old(s.Where())
      ensures forall t :: t in players && t != s ==> chunkSender.View(t) == old(chunkSender.View(t))
    {
      hide ChunkSender.View, Reset, RemoveChunks;
      IndexRemoveSession(s);
      ClearSession(s, dim);
    }

    method ClearSession(s: PlayerSession, dim: int)
      modifies chunkSender, s
      ensures chunkSender.View(s) == Reset(old(chunkSender.View(s)), dim) && s.dimension == dim
      ensures s.Where() == old(s.Where())
      ensures forall t :: t in players && t != s ==> chunkSender.View(t) == old(chunkSender.View(t))
    {
      s.dimension := dim;
      s.flushedChunks, s.sentChunks, s.pendingBlockChanges := {}, {}, map[];
      s.newlyFlushed, s.newlyUnloaded := [], [];
      s.told := map[];
      chunkSender.Remove(s);
    }

    // The rest of SendPlayerToDimension; the nether is dimension -1 and eight times smaller.
    method Enter(s: PlayerSession, dim: int, entityX: real, entityZ: real, destOverride: Option<(real, real)>)
      modifies s
      ensures var v := old(chunkSender.View(s));
              chunkSender.View(s) == v.(stream := v.stream + [Respawn(dim)], conn := WaitingForSpawnChunks)
      ensures Arrives(old(s.Where()), s.Where(), dim, entityX, entityZ, destOverride)
      ensures forall t :: t in players && t != s ==> chunkSender.View(t) == old(chunkSender.View(t))
    {
      PlaceIn(s, dim, entityX, entityZ, destOverride);
      s.stream := s.stream + [Respawn(dim)];
      s.connState := WaitingForSpawnChunks;
    }

    // From `was` the player has come to `now`: where it is sent to, or else where a portal leads from its
    // entity, one block of the nether for eight of any other dimension. A portal is still to be looked for.
    predicate Arrives(was: Place, now: Place, dim: int, entityX: real,
        entityZ: real, destOverride: Option<(real, real)>)
    {
      && now.viewDistanceOverride == was.viewDistanceOverride
      && now.pendingPortalPlacement == destOverride.None? && !now.portalAreaLoaded
      && match destOverride
         case Some(dest) => now.x == dest.0 && now.z == dest.1
         case None =>
           if dim == -1 then 8.0 * now.x == entityX && 8.0 * now.z == entityZ
           else now.x == 8.0 * entityX && now.z == 8.0 * entityZ
    }

    method PlaceIn(s: PlayerSession, dim: int, entityX: real, entityZ: real, destOverride: Option<(real, real)>)
      modifies s`x, s`z, s`pendingPortalPlacement, s`portalAreaLoaded
      ensures Arrives(old(s.Where()), s.Where(), dim, entityX, entityZ, destOverride)
    {
      match destOverride {
        case Some(dest) => s.x, s.z := dest.0, dest.1;
        case None =>
          if dim == -1 {
            s.x, s.z := entityX / 8.0, entityZ / 8.0;
          } else {
            s.x, s.z := entityX * 8.0, entityZ * 8.0;
          }
      }
      s.pendingPortalPlacement, s.portalAreaLoaded := destOverride.None?, false;
    }

    // The end of a login, in the dimension that was saved for the player.
    method FinishLogin(s: PlayerSession, dim: int, ghost w: World<PlayerSession>)
      requires Shows(w) && s in players && s.connState == LoggingIn
      modifies s
      ensures Legal(w, Activate(s, dim)) && Shows(Next(w, Activate(s, dim)))
    {
      hide *;
      ShowsMean(w);
      ViewsMean(w.sess);
      ViewIs(s);
      NextActivate(w, s, dim);
      LogIn(s, dim);
      ViewsWith(w.sess, s, LoggedIn(w.sess[s], dim));
      ShowsMean(Next(w, Activate(s, dim)));
    }

    method LogIn(s: PlayerSession, dim: int)
      modifies s`dimension, s`connState, s`stream
      ensures chunkSender.View(s) == LoggedIn(old(chunkSender.View(s)), dim)
      ensures forall t :: t in players && t != s ==> chunkSender.View(t) == old(chunkSender.View(t))
    {
      s.dimension := dim;
      s.stream := s.stream + [Login(dim)];
      s.connState := WaitingForSpawnChunks;
    }

    lemma NextActivate(w: World<PlayerSession>, s: PlayerSession, dim: int)
      requires s in w.sess
      ensures Next(w, Activate(s, dim)) == w.(sess := w.sess[s := LoggedIn(w.sess[s], dim)])
      ensures w.sess[s].conn == LoggingIn ==> Legal(w, Activate(s, dim))
    {
    }

    method AcceptPlayer(ghost w: World<PlayerSession>) returns (s: PlayerSession)
      requires Shows(w)
      modifies this`players
      ensures fresh(s) && Legal(w, Join(s)) && Shows(Next(w, Join(s)))
    {
      s := new PlayerSession();
      hide ChunkSender.View, Next, NewSession;
      NewcomerView(s);
      ShowsMean(w);
      assert s !in players && s !in w.sess;
      players := players + [s];
      NextJoin(w, s);
      ViewsWith(w.sess, s, NewSession());
      ShowsMean(Next(w, Join(s)));
    }

    lemma NewcomerView(s: PlayerSession)
      requires s.dimension == 0 && s.connState == LoggingIn
               && s.sentChunks == {} && s.flushedChunks == {} && s.stream == []
      requires s.newlyFlushed == [] && s.newlyUnloaded == [] && s.pendingBlockChanges == map[] && s.told == map[]
      requires s !in chunkSender.inFlight && s !in chunkSender.subRegionFlight
      ensures chunkSender.View(s) == NewSession()
    {
    }

    lemma NextJoin(w: World<PlayerSession>, s: PlayerSession)
      ensures Next(w, Join(s)) == w.(players := w.players + [s], sess := w.sess[s := NewSession()])
    {
    }

    // The players still waiting for a chunk, in join order.
    method FindWaiting(dim: int, chunk: Pos, ghost sess: map<PlayerSession, Session>)
      returns (waiting: seq<PlayerSession>)
      requires Views(sess)
      ensures waiting == Waiting(sess, players, dim, chunk)
    {
      hide *;
      AwaitingIsWaiting(dim, chunk, sess);
      WaitingNone(sess, dim, chunk);
      waiting := [];
      var n := 0;
      while n < |players|
        invariant 0 <= n <= |players| && waiting == Waiting(sess, players[..n], dim, chunk)
      {
        WaitingNext(sess, players, n, dim, chunk);
        if players[n].AwaitsChunk(dim, chunk) {
          waiting := waiting + [players[n]];
        }
        n := n + 1;
      }
      assert players[..n] == players;
    }

    lemma AwaitingIsWaiting(dim: int, chunk: Pos, sess: map<PlayerSession, Session>)
      requires Views(sess)
      ensures forall t :: t in players ==> t in sess && (Waits(sess[t], dim, chunk) <==> t.AwaitsChunk(dim, chunk))
    {
    }

    lemma WaitingNone(sess: map<PlayerSession, Session>, dim: int, p: Pos)
      ensures Waiting(sess, [], dim, p) == []
    {
    }

    lemma WaitingNext(sess: map<PlayerSession, Session>, all: seq<PlayerSession>, n: nat, dim: int, p: Pos)
      requires n < |all| && all[n] in sess
      ensures var r := Waiting(sess, all[..n], dim, p);
              Waiting(sess, all[..n + 1], dim, p) == if Waits(sess[all[n]], dim, p) then r + [all[n]] else r
    {
      assert all[..n + 1][..n] == all[..n];
    }

    method QueueOne(s: PlayerSession, chunk: Pos, batch: LocalChanges)
      modifies s`pendingBlockChanges
      ensures chunkSender.View(s) == Defer(old(chunkSender.View(s)), chunk, batch)
      ensures forall t :: t in players && t != s ==> chunkSender.View(t) == old(chunkSender.View(t))
    {
      s.pendingBlockChanges := Append(s.pendingBlockChanges, chunk, batch);
    }

    method QueueForWaiting(waiting: seq<PlayerSession>, chunk: Pos,
        batch: LocalChanges, ghost sess: map<PlayerSession, Session>)
      requires Views(sess) && forall s :: s in waiting ==> s in players
      modifies (set s | s in waiting)
      ensures Views(DeferAll(sess, waiting, chunk, batch))
    {
      hide *;
      DeferNone(sess, chunk, batch);
      var n := 0;
      while n < |waiting|
        invariant 0 <= n <= |waiting|
        invariant Views(DeferAll(sess, waiting[..n], chunk, batch))
      {
        ghost var r := DeferAll(sess, waiting[..n], chunk, batch);
        ViewsMean(r);
        DeferNext(sess, waiting, n, chunk, batch);
        QueueOne(waiting[n], chunk, batch);
        ViewsWith(r, waiting[n], Defer(r[waiting[n]], chunk, batch));
        n := n + 1;
      }
      assert waiting[..n] == waiting;
    }

    lemma DeferNone(sess: map<PlayerSession, Session>, p: Pos, batch: LocalChanges)
      ensures DeferAll(sess, [], p, batch) == sess
    {
    }

    lemma DeferNext(sess: map<PlayerSession, Session>, to: seq<PlayerSession>, n: nat, p: Pos, batch: LocalChanges)
      requires n < |to| && to[n] in DeferAll(sess, to[..n], p, batch)
      ensures var r := DeferAll(sess, to[..n], p, batch);
              DeferAll(sess, to[..n + 1], p, batch) == r[to[n] := Defer(r[to[n]], p, batch)]
    {
      assert to[..n + 1][..n] == to[..n];
    }

    // Up to nine changes are written directly, more are compressed in the background.
    method SendOne(s: PlayerSession, chunk: Pos, batch: LocalChanges, hasChunk: bool)
      modifies s, chunkSender`subRegionFlight
      ensures chunkSender.View(s) == Deliver(old(chunkSender.View(s)), chunk, batch, hasChunk)
      ensures forall t :: t in players && t != s ==> chunkSender.View(t) == old(chunkSender.View(t))
    {
      if |batch| < 10 {
        WriteBlocks(s, chunk, batch);
      } else {
        chunkSender.SendBlockUpdates(s, chunk, batch, hasChunk);
        OthersAgree(old(chunkSender.subRegionFlight), chunkSender.subRegionFlight, s);
      }
    }

    // One change has a packet of its own; more share one, with their coordinates packed.
    method WriteBlocks(s: PlayerSession, chunk: Pos, batch: LocalChanges)
      modifies s`stream
      ensures s.stream == old(s.stream) + [BlockPacket(chunk, batch)]
    {
      if |batch| == 1 {
        var pb := batch[0];
        s.stream := s.stream + [SetBlock(pb.x + chunk.x * CHUNK_WIDTH, pb.y, pb.z + chunk.z * CHUNK_WIDTH,
                                         pb.block, pb.data)];
        return;
      }
      var coordinates: seq<int>, blocks: seq<(int, int)> := [], [];
      var n := 0;
      while n < |batch|
        invariant 0 <= n <= |batch| && |coordinates| == |blocks| == n
        invariant forall i :: 0 <= i < n ==> coordinates[i] == Packed(batch[i])
        invariant forall i :: 0 <= i < n ==> blocks[i] == (batch[i].block, batch[i].data)
      {
        var pb := batch[n];
        coordinates := coordinates + [FormatMultiBlock(pb.x, pb.y, pb.z)];
        blocks := blocks + [(pb.block, pb.data)];
        n := n + 1;
      }
      ghost var all := BlockPacket(chunk, batch);
      assert coordinates == all.coordinates && blocks == all.blocks;
      s.stream := s.stream + [SetMultipleBlocks(chunk, coordinates, blocks)];
    }

    method SendToListed(listed: seq<PlayerSession>, chunk: Pos, batch: LocalChanges, hasChunk: bool,
                        ghost sess: map<PlayerSession, Session>)
      requires Views(sess) && forall s :: s in listed ==> s in players
      modifies (set s | s in listed), chunkSender`subRegionFlight
      ensures Views(DeliverAll(sess, listed, chunk, batch, hasChunk))
    {
      hide *;
      DeliverNone(sess, chunk, batch, hasChunk);
      var n := 0;
      while n < |listed|
        invariant 0 <= n <= |listed|
        invariant Views(DeliverAll(sess, listed[..n], chunk, batch, hasChunk))
      {
        ghost var r := DeliverAll(sess, listed[..n], chunk, batch, hasChunk);
        ViewsMean(r);
        DeliverNext(sess, listed, n, chunk, batch, hasChunk);
        SendOne(listed[n], chunk, batch, hasChunk);
        ViewsWith(r, listed[n], Deliver(r[listed[n]], chunk, batch, hasChunk));
        n := n + 1;
      }
      assert listed[..n] == listed;
    }

    lemma DeliverNone(sess: map<PlayerSession, Session>, p: Pos, batch: LocalChanges, hasChunk: bool)
      ensures DeliverAll(sess, [], p, batch, hasChunk) == sess
    {
    }

    lemma DeliverNext(sess: map<PlayerSession, Session>, to: seq<PlayerSession>,
        n: nat, p: Pos, batch: LocalChanges, hasChunk: bool)
      requires n < |to| && to[n] in DeliverAll(sess, to[..n], p, batch, hasChunk)
      ensures var r := DeliverAll(sess, to[..n], p, batch, hasChunk);
              DeliverAll(sess, to[..n + 1], p, batch, hasChunk) == r[to[n] := Deliver(r[to[n]], p, batch, hasChunk)]
    {
      assert to[..n + 1][..n] == to[..n];
    }

    // Everything in BroadcastBlockChanges after deduplication that reaches a session.
    method FanOut(dim: int, chunk: Pos, batch: LocalChanges, hasChunk: bool, ghost w: World<PlayerSession>)
      requires Shows(w) && forall s :: s in Listed(chunkSessions, Key(chunk, dim)) ==> s in players
      modifies (set s | s in players), chunkSender`subRegionFlight
      ensures Views(Fanout(w, dim, chunk, batch, hasChunk))
    {
      hide ChunkSender.View, DeferAll, DeliverAll, Waiting;
      var key := Key(chunk, dim);
      var flushedSessions := if key in chunkSessions then chunkSessions[key] else [];
      assert flushedSessions == Listed(chunkSessions, key);
      var sentOnlySessions := FindWaiting(dim, chunk, w.sess);
      QueueForWaiting(sentOnlySessions, chunk, batch, w.sess);
      ghost var deferred := DeferAll(w.sess, sentOnlySessions, chunk, batch);
      if flushedSessions != [] {
        SendToListed(flushedSessions, chunk, batch, hasChunk, deferred);
      } else {
        DeliverNone(deferred, chunk, batch, hasChunk);
      }
    }

    // BroadcastBlockChanges for the changes of one chunk. `told` is history: it records, for every
    // session that was sent the chunk, that this batch concerns it.
    method BroadcastBlockChanges(dim: int, chunk: Pos, blockChanges: LocalChanges, hasChunk: bool,
                                 ghost w: World<PlayerSession>) returns (unique: LocalChanges)
      requires Shows(w) && WorldInv(w)
      modifies (set s | s in players), chunkSender`subRegionFlight
      ensures Deduplicates(unique, blockChanges)
      ensures Shows(Next(w, Broadcast(dim, chunk, unique, hasChunk)))
    {
      hide ChunkSender.View, Fanout, WorldInv, TellAll, Deduplicates;
      var kept := Dedupe(blockChanges);
      DeduplicatesLocal(blockChanges, kept);
      unique := kept;
      ListedArePlayers(w, Key(chunk, dim));
      FanOut(dim, chunk, unique, hasChunk, w);
      RecordBroadcast(dim, chunk, unique, w.sess, Fanout(w, dim, chunk, unique, hasChunk));
    }

    lemma ListedArePlayers(w: World<PlayerSession>, key: Key)
      requires WorldInv(w)
      ensures NoDup(w.players) && forall s :: s in Listed(w.index, key) ==> s in w.players
    {
    }

    ghost method RecordBroadcast(dim: int, chunk: Pos, batch: LocalChanges, before: map<PlayerSession, Session>,
                                 now: map<PlayerSession, Session>)
      requires NoDup(players) && Views(now) && now.Keys == before.Keys
      modifies (set s | s in players)
      ensures Views(TellAll(now, before, dim, chunk, batch))
    {
      ghost var told := TellAll(now, before, dim, chunk, batch);
      hide *;
      SplitBegins(told, now);
      var n := 0;
      while n < |players|
        invariant 0 <= n <= |players| && Split(told, now, n)
      {
        SplitMeans(told, now, n);
        label next:
        RecordOne(players[n], Concerns(before[players[n]], dim, chunk), chunk, batch);
        ToldAt(now, before, dim, chunk, batch, players[n]);
        SplitNext@next((told, now, n));
        n := n + 1;
      }
      SplitEnds(told, now);
    }

    // The first n players look as in `told`, the others as in `now`.
    ghost predicate Split(told: map<PlayerSession, Session>, now: map<PlayerSession, Session>, n: nat)
      reads this, chunkSender, players
    {
      && NoDup(players) && told.Keys == now.Keys && (forall t :: t in players ==> t in now)
      && forall k :: 0 <= k < |players| ==>
           chunkSender.View(players[k]) == if k < n then told[players[k]] else now[players[k]]
    }

    lemma SplitBegins(told: map<PlayerSession, Session>, now: map<PlayerSession, Session>)
      requires NoDup(players) && Views(now) && told.Keys == now.Keys
      ensures Split(told, now, 0)
    {
      hide ChunkSender.View;
    }

    lemma SplitMeans(told: map<PlayerSession, Session>, now: map<PlayerSession, Session>, n: nat)
      requires Split(told, now, n) && n < |players|
      ensures players[n] in now && chunkSender.View(players[n]) == now[players[n]]
    {
      hide ChunkSender.View;
    }

    twostate lemma SplitNext(m: (map<PlayerSession, Session>, map<PlayerSession, Session>, nat))
      requires players == old(players) && m.2 < |players| && old(Split(m.0, m.1, m.2))
      requires players[m.2] in m.0 && chunkSender.View(players[m.2]) == m.0[players[m.2]]
      requires forall t :: t in players && t != players[m.2] ==> chunkSender.View(t) == old(chunkSender.View(t))
      ensures Split(m.0, m.1, m.2 + 1)
    {
      hide ChunkSender.View;
    }

    lemma SplitEnds(told: map<PlayerSession, Session>, now: map<PlayerSession, Session>)
      requires Split(told, now, |players|)
      ensures Views(told)
    {
      hide ChunkSender.View;
    }

    ghost method RecordOne(s: PlayerSession, concerned: bool, chunk: Pos, batch: LocalChanges)
      modifies s
      ensures chunkSender.View(s)
              == (if concerned then Tell(old(chunkSender.View(s)), chunk, batch) else old(chunkSender.View(s)))
      ensures forall t :: t in players && t != s ==> chunkSender.View(t) == old(chunkSender.View(t))
    {
      if concerned {
        s.told := Append(s.told, chunk, batch);
      }
    }

    // std::remove_if over the player list.
    method RemovePlayers(disconnected: set<PlayerSession>)
      modifies this`players
      ensures players == Remaining(old(players), disconnected)
    {
      var all := players;
      var n := 0;
      players := [];
      RemainingNone(disconnected);
      hide *;
      while n < |all|
        invariant 0 <= n <= |all| && players == Remaining(all[..n], disconnected)
      {
        RemainingNext(all, n, disconnected);
        if all[n] !in disconnected {
          players := players + [all[n]];
        }
        n := n + 1;
      }
      assert all[..n] == all;
    }

    lemma RemainingNone(gone: set<PlayerSession>)
      ensures Remaining([], gone) == []
    {
    }

    lemma RemainingNext(all: seq<PlayerSession>, n: nat, gone: set<PlayerSession>)
      requires n < |all|
      ensures var r := Remaining(all[..n], gone);
              Remaining(all[..n + 1], gone) == if all[n] in gone then r else r + [all[n]]
    {
      assert all[..n + 1][..n] == all[..n];
    }

    // Take one removed player out of the index and the flight maps.
    method ForgetSession(s: PlayerSession, ghost sess: map<PlayerSession, Session>)
      requires s !in players && Views(sess)
      modifies this`chunkSessions, chunkSender
      ensures chunkSessions == RemoveChunks(old(chunkSessions), s, s.dimension, s.flushedChunks)
      ensures chunkSender.inFlight == old(chunkSender.inFlight) - {s}
      ensures chunkSender.subRegionFlight == old(chunkSender.subRegionFlight) - {s}
      ensures Views(sess)
    {
      IndexRemoveSession(s);
      chunkSender.Remove(s);
    }

    // The second half of DisconnectClients: take the disconnected players out of the list, then out of
    // the index and the flight maps.
    method DisconnectClients(disconnected: set<PlayerSession>, ghost w: World<PlayerSession>)
      requires Shows(w)
      modifies this, chunkSender
      ensures Shows(Next(w, Disconnect(disconnected)))
      ensures forall s :: s in disconnected && s in old(players) ==>
                s !in chunkSender.inFlight && s !in chunkSender.subRegionFlight
    {
      var all := players;
      ShowsMean(w);
      SessionsAre(w.sess);
      hide *;
      RemovePlayers(disconnected);
      RemainingSpec(all, disconnected);
      ViewsOfFewer(w.sess, all);
      ForgetPlayers(all, disconnected, w);
      NextDisconnect(w, disconnected);
      ViewsOfRest(w.sess, disconnected);
      ShowsMean(Next(w, Disconnect(disconnected)));
    }

    lemma SessionsAre(sess: map<PlayerSession, Session>)
      requires Views(sess)
      ensures forall t :: t in players ==> t in sess && sess[t].dim == t.dimension && sess[t].flushed == t.flushedChunks
      ensures forall t :: t in players ==> chunkSender.View(t) == sess[t]
    {
    }

    lemma ViewsOfFewer(sess: map<PlayerSession, Session>, all: seq<PlayerSession>)
      requires forall t :: t in players ==> t in all
      requires forall t :: t in all ==> t in sess && chunkSender.View(t) == sess[t]
      ensures Views(sess)
    {
      hide ChunkSender.View;
    }

    lemma ViewsOfRest(sess: map<PlayerSession, Session>, gone: set<PlayerSession>)
      requires Views(sess) && forall t :: t in players ==> t !in gone
      ensures Views(sess - gone)
    {
      hide ChunkSender.View;
    }

    // The loop over the removed players.
    method ForgetPlayers(all: seq<PlayerSession>, disconnected: set<PlayerSession>, ghost w: World<PlayerSession>)
      requires chunkSessions == w.index && Views(w.sess)
      requires forall t :: t in players ==> t !in disconnected
      requires forall t :: t in all ==>
               t in w.sess && w.sess[t].dim == t.dimension && w.sess[t].flushed == t.flushedChunks
      modifies this`chunkSessions, chunkSender
      ensures chunkSessions == ForgetAll(w.index, w.sess, all, disconnected) && Views(w.sess)
      ensures forall t :: t in all && t in disconnected ==>
                t !in chunkSender.inFlight && t !in chunkSender.subRegionFlight
    {
      hide ChunkSender.View, RemoveChunks, ForgetAll;
      ForgetNone(w, disconnected);
      var n := 0;
      while n < |all|
        invariant 0 <= n <= |all| && Views(w.sess)
        invariant chunkSessions == ForgetAll(w.index, w.sess, all[..n], disconnected)
        invariant forall k :: 0 <= k < n && all[k] in disconnected ==> NotInFlight(all[k])
      {
        ForgetNext(w, all, n, disconnected);
        if all[n] in disconnected {
          ForgetSession(all[n], w.sess);
        }
        n := n + 1;
      }
      assert all[..n] == all;
    }

    ghost predicate NotInFlight(s: PlayerSession)
      reads chunkSender
    {
      s !in chunkSender.inFlight && s !in chunkSender.subRegionFlight
    }

    lemma ForgetNone(w: World<PlayerSession>, gone: set<PlayerSession>)
      ensures ForgetAll(w.index, w.sess, [], gone) == w.index
    {
    }

    lemma ForgetNext(w: World<PlayerSession>, all: seq<PlayerSession>, n: nat, gone: set<PlayerSession>)
      requires n < |all| && all[n] in w.sess
      ensures var m := ForgetAll(w.index, w.sess, all[..n], gone);
              ForgetAll(w.index, w.sess, all[..n + 1], gone)
              == if all[n] in gone then RemoveChunks(m, all[n], w.sess[all[n]].dim, w.sess[all[n]].flushed) else m
    {
      assert all[..n + 1][..n] == all[..n];
    }

    lemma NextDisconnect(w: World<PlayerSession>, gone: set<PlayerSession>)
      ensures Next(w, Disconnect(gone))
              == World(Remaining(w.players, gone), w.sess - gone, ForgetAll(w.index, w.sess, w.players, gone))
    {
    }
  }
}
