// How a player comes into a world, from the fields of its session: what a turn asks of the delivery
// protocol, and that a player who waits in a generated world is let in.
module SpawnEntry {
  import opened Sequences
  import opened BlockChanges
  import opened Delivery
  import opened ChunkIndex
  import opened ChunkSending
  import opened DeliveryProgress

  // Chunk c is the one that contains the position.
  predicate Contains(c: Pos, x: real, z: real)
  {
    && (16 * c.x) as real <= x < (16 * c.x + 16) as real
    && (16 * c.z) as real <= z < (16 * c.z + 16) as real
  }

  lemma PlayerIsInItsChunk(x: real, z: real)
    ensures Contains(ChunkAt(x, z), x, z)
  {
    assert x.Floor as real <= x < (x.Floor + 1) as real;
    assert z.Floor as real <= z < (z.Floor + 1) as real;
  }

  lemma OneChunkContains(c: Pos, d: Pos, x: real, z: real)
    requires Contains(c, x, z) && Contains(d, x, z)
    ensures c == d
  {
    assert 16 * c.x < 16 * d.x + 16 && 16 * d.x < 16 * c.x + 16;
    assert 16 * c.z < 16 * d.z + 16 && 16 * d.z < 16 * c.z + 16;
  }

  // A turn works around the chunk that the player stands in, with the jobs that have finished, and a
  // negative setting stands for two jobs for each of the two threads.
  lemma TurnIsAroundThePlayer(at: Place, e: Surroundings, t: Tick)
    requires at.Expects(e, t) && !at.conn.LoggingIn?
    ensures Contains(t.center, at.x, at.z)
    ensures t.batch == if at.conn.Playing? then 16 else if e.flushChunkCount < 0 then 4 else e.flushChunkCount
    ensures t.generated == e.generated && t.ready == e.ready && t.live == e.live && t.finished == e.finished
  {
    PlayerIsInItsChunk(at.x, at.z);
  }

  // A waiting player without an outstanding portal is served at least the square that the gate looks at,
  // around the same chunk: exactly that square, or all in view after a portal.
  lemma TurnCoversTheGate(at: Place, e: Surroundings, t: Tick)
    requires at.Expects(e, t) && at.conn.WaitingForSpawnChunks? && !at.pendingPortalPlacement
    ensures t.radius >= 3 && t.center == t.spawn && !t.portalWait
    ensures t.radius == if at.portalAreaLoaded then e.viewRadius else 3
  {
  }

  // With a portal outstanding it is served the portal's search area and one chunk more, if in view; the
  // gate looks around the portal, once its area is ready.
  lemma TurnServesThePortalArea(at: Place, e: Surroundings, t: Tick)
    requires at.Expects(e, t) && at.conn.WaitingForSpawnChunks? && at.pendingPortalPlacement
    ensures t.radius == if e.viewRadius < 9 then e.viewRadius else 9
    ensures Contains(t.spawn, e.portalX, e.portalZ) && (t.portalWait <==> !e.portalAreaReady)
  {
    PlayerIsInItsChunk(e.portalX, e.portalZ);
  }

  // A player in the world is served all that is in view.
  lemma PlayingTurnServesTheView(at: Place, e: Surroundings, t: Tick)
    requires at.Expects(e, t) && at.conn.Playing?
    ensures t.radius == if at.viewDistanceOverride == 0 || e.viewRadius < at.viewDistanceOverride
                        then e.viewRadius else at.viewDistanceOverride
  {
  }

  // What a turn makes of the place. A player that has waited for a portal is in it as soon as the area
  // is ready, whether let in at once or not; whoever is let in has no portal outstanding and no override.
  lemma PlaceAfterTurn(at: Place, e: Surroundings, playing: bool)
    requires at.conn.WaitingForSpawnChunks? && (playing ==> !at.GateWaits(e))
    ensures var r := at.After(e, playing);
            && (r.conn.Playing? <==> playing) && (!playing ==> r.conn.WaitingForSpawnChunks?)
            && (r.pendingPortalPlacement <==> at.pendingPortalPlacement && !e.portalAreaReady)
            && (if at.pendingPortalPlacement && e.portalAreaReady then r.x == e.portalX && r.z == e.portalZ
                else r.x == at.x && r.z == at.z)
            && (if playing then r.viewDistanceOverride == 0 && !r.portalAreaLoaded
                else r.portalAreaLoaded == (at.portalAreaLoaded || (at.pendingPortalPlacement && e.portalAreaReady)))
  {
  }

  // Turns of one player whose jobs finish in time, in surroundings that stay the same.
  ghost predicate Turns(places: seq<Place>, run: seq<Session>, es: seq<Surroundings>, ticks: seq<Tick>)
  {
    && |run| == |places| == |ticks| + 1 && |es| == |ticks|
    && (forall i :: 0 <= i < |run| ==> run[i].conn == places[i].conn)
    && forall i :: 0 <= i < |ticks| ==>
         && places[i].Expects(es[i], ticks[i]) && Round(run[i], run[i + 1], ticks[i])
         && places[i + 1] == places[i].After(es[i], run[i + 1].conn.Playing?)
  }

  ghost predicate Steady(es: seq<Surroundings>, viewRadius: ViewRadius, flushChunkCount: int, generated: set<Pos>)
  {
    forall i :: 0 <= i < |es| ==>
      es[i].viewRadius == viewRadius && es[i].flushChunkCount == flushChunkCount && es[i].generated == generated
  }

  // Is the world generated around that chunk, as far as the gate looks?
  ghost predicate GeneratedAround(c: Pos, generated: set<Pos>)
  {
    forall p: Pos :: c.x - 3 <= p.x <= c.x + 3 && c.z - 3 <= p.z <= c.z + 3 ==> p in generated
  }

  ghost predicate WaitsAs(at: Place, start: Place)
  {
    && at.conn.WaitingForSpawnChunks? && at.x == start.x && at.z == start.z
    && !at.pendingPortalPlacement && at.portalAreaLoaded == start.portalAreaLoaded
  }

  lemma NextTurn(places: seq<Place>, run: seq<Session>, es: seq<Surroundings>, ticks: seq<Tick>, j: nat)
    requires Turns(places, run, es, ticks) && j < |ticks|
    ensures |run| == |places| == |ticks| + 1 && |es| == |ticks|
    ensures run[j].conn == places[j].conn && run[j + 1].conn == places[j + 1].conn
    ensures places[j].Expects(es[j], ticks[j]) && Round(run[j], run[j + 1], ticks[j])
    ensures places[j + 1] == places[j].After(es[j], run[j + 1].conn.Playing?)
  {
  }

  // As long as it is not let in, a player without an outstanding portal waits where it is.
  lemma {:induction false} WaitsOrPlays(places: seq<Place>, run: seq<Session>, es: seq<Surroundings>, ticks: seq<Tick>,
                                        j: nat)
    requires Turns(places, run, es, ticks) && j < |run|
    requires places[0].conn.WaitingForSpawnChunks? && !places[0].pendingPortalPlacement
    ensures |run| == |places| && (run[j].conn.Playing? || WaitsAs(places[j], places[0]))
  {
    if j > 0 {
      WaitsOrPlays(places, run, es, ticks, j - 1);
      NextTurn(places, run, es, ticks, j - 1);
      hide *;
      PlayingStays(run[j - 1], run[j - 1 + 1], ticks[j - 1]);
      if WaitsAs(places[j - 1], places[0]) {
        WaitingStays(places[j - 1], places[0], es[j - 1], run[j - 1 + 1].conn.Playing?);
      }
    }
  }

  lemma {:induction false} PlayingGoesOn(places: seq<Place>, run: seq<Session>, es: seq<Surroundings>, ticks: seq<Tick>,
                                         i: nat, j: nat)
    requires Turns(places, run, es, ticks) && i <= j < |run| && run[i].conn.Playing?
    ensures run[j].conn.Playing?
    decreases j
  {
    if i < j {
      PlayingGoesOn(places, run, es, ticks, i, j - 1);
      NextTurn(places, run, es, ticks, j - 1);
      hide *;
      PlayingStays(run[j - 1], run[j - 1 + 1], ticks[j - 1]);
    }
  }

  lemma PlayingStays(s: Session, r: Session, t: Tick)
    requires Round(s, r, t)
    ensures s.conn.Playing? ==> r.conn.Playing?
  {
    ServedKeepsConnection(s, t);
    hide Served, GateOpen, Schedule;
  }

  lemma WaitingStays(at: Place, start: Place, e: Surroundings, playing: bool)
    requires WaitsAs(at, start)
    ensures WaitsAs(at.After(e, playing), start) || playing
  {
  }

  // What the turns of a player that still waits have in common.
  lemma WaitingTurnLooks(at: Place, start: Place, e: Surroundings, t: Tick, c: Pos)
    requires WaitsAs(at, start) && at.Expects(e, t) && Contains(c, start.x, start.z)
    ensures t.spawn == c && !t.portalWait
    ensures Looks(t, c, if start.portalAreaLoaded then e.viewRadius else 3,
                  if e.flushChunkCount < 0 then 4 else e.flushChunkCount, e.generated)
  {
    TurnIsAroundThePlayer(at, e, t);
    TurnCoversTheGate(at, e, t);
    OneChunkContains(c, t.center, at.x, at.z);
  }

  // A player that waits without an outstanding portal, in a world generated three chunks around it, is let
  // in, whatever the settings: in as many turns as the missing chunks of the square it is served fill
  // batches, and one more if the world dropped chunks with a job in flight.
  lemma PlayerEnters(places: seq<Place>, run: seq<Session>, es: seq<Surroundings>, ticks: seq<Tick>,
                     viewRadius: ViewRadius, flushChunkCount: int, generated: set<Pos>, c: Pos, k: nat)
    requires Turns(places, run, es, ticks) && Steady(es, viewRadius, flushChunkCount, generated) && 0 < k < |run|
    requires Inv(run[0]) && places[0].conn.WaitingForSpawnChunks? && !places[0].pendingPortalPlacement
    requires Contains(c, places[0].x, places[0].z) && GeneratedAround(c, generated)
    requires var radius := if places[0].portalAreaLoaded then viewRadius else 3;
             var batch := if flushChunkCount < 0 then 4 else flushChunkCount;
             batch <= 0 || |Missing(run[0], generated, c, radius)|
                           <= (if Intact(run[0], c, radius, generated) then k else k - 1) * batch
    ensures run[k].conn.Playing?
  {
    if !run[k].conn.Playing? {
      var radius := if places[0].portalAreaLoaded then viewRadius else 3;
      var batch := if flushChunkCount < 0 then 4 else flushChunkCount;
      var run', ticks' := run[..k + 1], ticks[..k];
      assert run'[0] == run[0] && run[0].Active() && ticks'[k - 1] == ticks[k - 1] && run'[k] == run[k];
      forall i | 0 <= i < k
        ensures Round(run'[i], run'[i + 1], ticks'[i]) && Looks(ticks'[i], c, radius, batch, generated)
        ensures ticks'[i].spawn == c && !ticks'[i].portalWait
      {
        TurnWhileWaiting(places, run, es, ticks, c, i, k);
        assert run'[i] == run[i] && run'[i + 1] == run[i + 1] && ticks'[i] == ticks[i];
        assert es[i].viewRadius == viewRadius;
      }
      hide Turns, Steady, Inv, Round, Looks, Missing, Intact;
      assert Rounds(run', ticks', c, radius, batch, generated);
      hide Rounds;
      SquareIsServed(c, radius, generated);
      PlayerIsLetIn(run', ticks', c, radius, batch, generated, c, k);
    }
  }

  lemma TurnWhileWaiting(places: seq<Place>, run: seq<Session>, es: seq<Surroundings>, ticks: seq<Tick>, c: Pos,
                         i: nat, k: nat)
    requires Turns(places, run, es, ticks) && i < k < |run| && !run[k].conn.Playing?
    requires places[0].conn.WaitingForSpawnChunks? && !places[0].pendingPortalPlacement
    requires Contains(c, places[0].x, places[0].z)
    ensures |es| == |ticks| == |run| - 1 && Round(run[i], run[i + 1], ticks[i])
    ensures ticks[i].spawn == c && !ticks[i].portalWait
    ensures Looks(ticks[i], c, if places[0].portalAreaLoaded then es[i].viewRadius else 3,
                  if es[i].flushChunkCount < 0 then 4 else es[i].flushChunkCount, es[i].generated)
  {
    NextTurn(places, run, es, ticks, i);
    hide *;
    WaitsOrPlays(places, run, es, ticks, i);
    if run[i].conn.Playing? { PlayingGoesOn(places, run, es, ticks, i, k); }
    WaitingTurnLooks(places[i], places[0], es[i], ticks[i], c);
  }

  lemma SquareIsServed(c: Pos, radius: int, generated: set<Pos>)
    requires GeneratedAround(c, generated) && radius >= 3
    ensures forall p: Pos :: InRange(p, c, GATE_RADIUS) ==> p in generated && InRange(p, c, radius)
  {
  }
}
