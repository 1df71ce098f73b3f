// ChunkSender and the session fields it works on, updated in place as in the server; every method is
// proved against the functions of module Delivery.
module ChunkSending {
  import opened Sequences
  import opened BlockChanges
  import opened Delivery
  import opened ChunkIndex

  const POOL_THREADS := 2
  const PORTAL_SEARCH_CHUNK_RADIUS := 8

  // What a turn of one session depends on besides the session: configuration, the world's chunks, the
  // finished jobs, and for a player that came through a portal whether the area there is ready and
  // where the portal search puts it.
  datatype Surroundings = Surroundings(viewRadius: ViewRadius, flushChunkCount: int, generated: set<Pos>,
                                       ready: set<Pos>, live: set<Pos>, finished: nat,
                                       portalAreaReady: bool, portalX: real, portalZ: real)

  class PlayerSession {
    var dimension: int
    var connState: Connection
    var x: real
    var z: real
    var viewDistanceOverride: nat
    var pendingPortalPlacement: bool
    var portalAreaLoaded: bool
    var sentChunks: set<Pos>
    var flushedChunks: set<Pos>
    var newlyFlushed: seq<Pos>
    var newlyUnloaded: seq<Pos>
    var pendingBlockChanges: map<Pos, LocalChanges>
    var stream: seq<Packet>
    ghost var told: map<Pos, LocalChanges>

    constructor ()
      ensures dimension == 0 && connState == LoggingIn && sentChunks == {} && flushedChunks == {} && stream == []
      ensures newlyFlushed == [] && newlyUnloaded == [] && pendingBlockChanges == map[]
      ensures told == map[]
    {
      dimension, connState, x, z, viewDistanceOverride := 0, LoggingIn, 0.0, 0.0, 0;
      pendingPortalPlacement, portalAreaLoaded := false, false;
      sentChunks, flushedChunks, newlyFlushed, newlyUnloaded := {}, {}, [], [];
      pendingBlockChanges, stream, told := map[], [], map[];
    }

    // The chunk the player stands in: floor, then an arithmetic shift by four.
    function Center(): Pos
      reads this
    {
      ChunkAt(x, z)
    }

    // Is the session of that dimension, and the chunk still on its way to it?
    predicate AwaitsChunk(dim: int, chunk: Pos)
      reads this
    {
      connState != LoggingIn && dimension == dim && chunk !in flushedChunks && chunk in sentChunks
    }

    // What the sender reads and never writes.
    function Where(): Place
      reads this
    {
      Place(connState, x, z, viewDistanceOverride, pendingPortalPlacement, portalAreaLoaded)
    }
  }

  // Where a player stands, and how far it is through joining a world.
  datatype Place = Place(conn: Connection, x: real, z: real, viewDistanceOverride: nat,
                         pendingPortalPlacement: bool, portalAreaLoaded: bool) {
    function Center(): Pos { ChunkAt(x, z) }

    // The view distance override under which the session's next turn runs.
    function NextOverride(): nat
    {
      if !conn.WaitingForSpawnChunks? then viewDistanceOverride
      else if pendingPortalPlacement then PORTAL_SEARCH_CHUNK_RADIUS + 1
      else if portalAreaLoaded then 0
      else 3
    }

    // The tick is what a turn of a player in this place makes of its surroundings.
    ghost predicate Expects(e: Surroundings, t: Tick)
    {
      && Delivers(t, Center(), EffectiveRadius(NextOverride(), e.viewRadius), e.generated,
                  if conn.Playing? then 16 else e.flushChunkCount, e.ready, e.live, e.finished)
      && t.spawn == GateChunk(e) && t.portalWait == GateWaits(e)
    }

    // Where the spawn gate finds the player, and whether it has to wait for a portal area.
    ghost function GateChunk(e: Surroundings): Pos
    {
      if pendingPortalPlacement then ChunkAt(e.portalX, e.portalZ) else Center()
    }

    ghost predicate GateWaits(e: Surroundings) { pendingPortalPlacement && !e.portalAreaReady }

    // The place after that turn, in which the player may have come through its portal and been let in.
    ghost function After(e: Surroundings, playing: bool): Place
    {
      if !conn.WaitingForSpawnChunks? then this
      else if GateWaits(e) then this.(viewDistanceOverride := NextOverride())
      else
        var there := if pendingPortalPlacement then this.(x := e.portalX, z := e.portalZ) else this;
        if playing then Place(Playing, there.x, there.z, 0, false, false)
        else there.(viewDistanceOverride := NextOverride(), pendingPortalPlacement := false,
                    portalAreaLoaded := portalAreaLoaded || pendingPortalPlacement)
    }
  }

  function ChunkAt(x: real, z: real): Pos { Pos(x.Floor / 16, z.Floor / 16) }

  function EffectiveRadius(override: nat, viewRadius: nat): int
  {
    if override != 0 then Min(override, viewRadius) else viewRadius
  }

  function EffectiveBatch(batchSize: int): int { if batchSize < 0 then POOL_THREADS * 2 else batchSize }

  // The tick enqueues around c within the radius, with that batch size and those finished jobs.
  ghost predicate Delivers(t: Tick, c: Pos, radius: int, generated: set<Pos>, batchSize: int,
                           ready: set<Pos>, live: set<Pos>, finished: nat)
  {
    && t.center == c && t.radius == radius && t.batch == EffectiveBatch(batchSize)
    && t.generated == generated && t.ready == ready && t.live == live && t.finished == finished
  }

  // std::sort by Manhattan distance, here as an insertion sort.
  method SortByDistance(s: seq<Pos>, c: Pos) returns (r: seq<Pos>)
    requires NoDup(s)
    ensures NoDup(r) && SortedByDistance(r, c) && forall p :: p in r <==> p in s
  {
    r := [];
    var n := 0;
    while n < |s|
      invariant 0 <= n <= |s| && NoDup(r) && SortedByDistance(r, c)
      invariant forall p :: p in r <==> p in s[..n]
    {
      assert s[n] !in s[..n] && s[..n + 1] == s[..n] + [s[n]];
      hide NoDup, SortedByDistance;
      r := InsertByDistance(r, s[n], c);
      n := n + 1;
    }
    assert s[..n] == s;
  }

  method InsertByDistance(q: seq<Pos>, p: Pos, c: Pos) returns (r: seq<Pos>)
    requires NoDup(q) && SortedByDistance(q, c) && p !in q
    ensures NoDup(r) && SortedByDistance(r, c) && forall x :: x in r <==> x in q || x == p
  {
    var i := |q|;
    while i > 0 && Manhattan(q[i - 1], c) > Manhattan(p, c)
      invariant 0 <= i <= |q|
      invariant forall k :: i <= k < |q| ==> Manhattan(q[k], c) > Manhattan(p, c)
    {
      i := i - 1;
    }
    InsertKeepsOrder(q, i, p, c);
    hide NoDup, SortedByDistance;
    assert q == q[..i] + q[i..];
    r := q[..i] + [p] + q[i..];
  }

  lemma InsertKeepsOrder(r: seq<Pos>, i: nat, p: Pos, c: Pos)
    requires i <= |r| && NoDup(r) && SortedByDistance(r, c) && p !in r
    requires forall k :: i <= k < |r| ==> Manhattan(r[k], c) > Manhattan(p, c)
    requires i > 0 ==> Manhattan(r[i - 1], c) <= Manhattan(p, c)
    ensures var q := r[..i] + [p] + r[i..]; NoDup(q) && SortedByDistance(q, c)
  {
    hide Manhattan;
    var q := r[..i] + [p] + r[i..];
    forall j, k | 0 <= j < k < |q| ensures q[j] != q[k] && Manhattan(q[j], c) <= Manhattan(q[k], c) {
      var j', k' := if j < i then j else j - 1, if k < i then k else k - 1;
      assert j != i ==> q[j] == r[j'];
      assert k != i ==> q[k] == r[k'];
      if j < i && i > 0 {
        assert Manhattan(r[j], c) <= Manhattan(r[i - 1], c);
      }
    }
  }

  ghost function DropOne(t: Session, p: Pos): Session
  {
    t.(sent := t.sent - {p}, flushed := t.flushed - {p}, pending := t.pending - {p},
       newlyUnloaded := t.newlyUnloaded + [p], stream := t.stream + [Visibility(p, false)],
       told := t.told - {p})
  }

  ghost function AddJob(t: Session, p: Pos): Session
  {
    t.(queue := t.queue + [p], sent := t.sent + {p}, told := t.told[p := []])
  }

  lemma DropOneMore(s: Session, ps: seq<Pos>, p: Pos)
    ensures DropChunks(s, ps + [p]) == DropOne(DropChunks(s, ps), p)
  {
    assert Elements(ps + [p]) == Elements(ps) + {p};
    assert Invisible(ps + [p]) == Invisible(ps) + [Visibility(p, false)];
    assert s.stream + (Invisible(ps) + [Visibility(p, false)]) == (s.stream + Invisible(ps)) + [Visibility(p, false)];
    assert s.newlyUnloaded + (ps + [p]) == (s.newlyUnloaded + ps) + [p];
  }

  lemma DropNone(s: Session)
    ensures DropChunks(s, []) == s
  {
    assert s.stream + Invisible([]) == s.stream && s.newlyUnloaded + [] == s.newlyUnloaded;
    assert Elements([]) == {};
    assert s.told - {} == s.told && s.pending - {} == s.pending;
  }

  lemma SubmitNone(s: Session)
    ensures SubmitJobs(s, []) == s
  {
    assert s.queue + [] == s.queue;
    assert Fresh([]) == map[];
    assert s.told + map[] == s.told;
  }

  lemma FreshOneMore(m: map<Pos, LocalChanges>, ps: seq<Pos>, p: Pos)
    ensures m + Fresh(ps + [p]) == (m + Fresh(ps))[p := []]
  {
  }

  lemma SubmitOneMore(s: Session, ps: seq<Pos>, p: Pos)
    ensures SubmitJobs(s, ps + [p]) == AddJob(SubmitJobs(s, ps), p)
  {
    assert Elements(ps + [p]) == Elements(ps) + {p};
    FreshOneMore(s.told, ps, p);
    assert s.queue + (ps + [p]) == (s.queue + ps) + [p];
  }

  class ChunkSender {
    var inFlight: map<PlayerSession, seq<Pos>>
    var subRegionFlight: map<PlayerSession, seq<SubJob>>

    constructor ()
      ensures inFlight == map[] && subRegionFlight == map[]
    {
      inFlight, subRegionFlight := map[], map[];
    }

    // The abstract state of one session.
    ghost function View(s: PlayerSession): Session
      reads this, s
    {
      Session(s.dimension, s.connState, s.sentChunks, s.flushedChunks, s in inFlight,
              if s in inFlight then inFlight[s] else [], if s in subRegionFlight then subRegionFlight[s] else [],
              s.pendingBlockChanges, s.newlyFlushed, s.newlyUnloaded, s.stream, s.told)
    }

    // The double loop over the square.
    method CollectCandidates(s: PlayerSession, c: Pos, radius: int, generated: set<Pos>) returns (toSend: seq<Pos>)
      ensures NoDup(toSend)
      ensures forall p :: p in toSend <==> Candidate(View(s), p, c, radius, generated)
    {
      toSend := [];
      var dx := -radius;
      while dx <= radius
        invariant radius >= 0 ==> -radius <= dx <= radius + 1
        invariant NoDup(toSend)
        invariant forall p :: p in toSend <==> Candidate(View(s), p, c, radius, generated) && p.x < c.x + dx
      {
        var dz := -radius;
        while dz <= radius
          invariant -radius <= dz <= radius + 1
          invariant NoDup(toSend)
          invariant forall p :: p in toSend <==> Candidate(View(s), p, c, radius, generated)
                                                 && (p.x < c.x + dx || (p.x == c.x + dx && p.z < c.z + dz))
        {
          var p := Pos(c.x + dx, c.z + dz);
          if p in generated && p !in s.sentChunks {
            toSend := toSend + [p];
          }
          dz := dz + 1;
        }
        dx := dx + 1;
      }
    }

    // The out-of-range part of a hash set, in the order the set happens to yield it.
    method OutOfRange(sent: set<Pos>, c: Pos, radius: int) returns (toUnload: seq<Pos>)
      ensures NoDup(toUnload)
      ensures forall p :: p in toUnload <==> p in sent && !InRange(p, c, radius)
    {
      toUnload := [];
      var rest := sent;
      while rest != {}
        invariant rest <= sent && NoDup(toUnload)
        invariant forall p :: p in toUnload <==> p in sent && p !in rest && !InRange(p, c, radius)
        decreases |rest|
      {
        var p :| p in rest;
        if !InRange(p, c, radius) {
          toUnload := toUnload + [p];
        }
        rest := rest - {p};
      }
    }

    // Erase the cancelled jobs from a queue.
    method CancelOutOfRange(queue: seq<Pos>, c: Pos, radius: int) returns (kept: seq<Pos>)
      ensures kept == KeepInRange(queue, c, radius)
    {
      kept := [];
      var n := 0;
      while n < |queue|
        invariant 0 <= n <= |queue| && kept == KeepInRange(queue[..n], c, radius)
      {
        assert queue[..n + 1][..n] == queue[..n];
        if InRange(queue[n], c, radius) {
          kept := kept + [queue[n]];
        }
        n := n + 1;
      }
      assert queue[..n] == queue;
    }

    method UnloadOne(s: PlayerSession, p: Pos)
      modifies s
      ensures View(s) == DropOne(old(View(s)), p)
      ensures s.Where() == old(s.Where())
    {
      s.stream := s.stream + [Visibility(p, false)];
      s.sentChunks := s.sentChunks - {p};
      s.flushedChunks := s.flushedChunks - {p};
      s.pendingBlockChanges := s.pendingBlockChanges - {p};
      s.newlyUnloaded := s.newlyUnloaded + [p];
      s.told := s.told - {p};
    }

    method SubmitOne(s: PlayerSession, p: Pos)
      requires s in inFlight
      modifies this`inFlight, s`sentChunks, s`told
      ensures View(s) == AddJob(old(View(s)), p)
      ensures s in inFlight && |inFlight[s]| == |old(inFlight)[s]| + 1
      ensures inFlight - {s} == old(inFlight) - {s}
    {
      inFlight := inFlight[s := inFlight[s] + [p]];
      s.sentChunks := s.sentChunks + {p};
      s.told := s.told[p := []];
    }

    // Tell the client to drop each chunk and forget it.
    method UnloadChunks(s: PlayerSession, toUnload: seq<Pos>)
      modifies s
      ensures View(s) == DropChunks(old(View(s)), toUnload)
      ensures s.Where() == old(s.Where())
    {
      ghost var start := View(s);
      DropNone(start);
      hide *;
      var n := 0;
      while n < |toUnload|
        invariant 0 <= n <= |toUnload|
        invariant View(s) == DropChunks(start, toUnload[..n])
        invariant s.Where() == old(s.Where())
      {
        var p := toUnload[n];
        UnloadOne(s, p);
        DropOneMore(start, toUnload[..n], p);
        assert toUnload[..n + 1] == toUnload[..n] + [p];
        n := n + 1;
      }
      assert toUnload[..n] == toUnload;
    }

    // Submit candidates while the queue is shorter than a positive batch size.
    method SubmitCandidates(s: PlayerSession, toSend: seq<Pos>, batch: int) returns (submitted: nat)
      requires s in inFlight
      modifies this`inFlight, s`sentChunks, s`told
      ensures submitted == Room(|old(inFlight)[s]|, batch, |toSend|)
      ensures View(s) == SubmitJobs(old(View(s)), toSend[..submitted])
      ensures inFlight - {s} == old(inFlight) - {s}
    {
      hide SubmitJobs, AddJob;
      submitted := 0;
      ghost var start := View(s);
      SubmitNone(start);
      var n := 0;
      while n < |toSend| && !(batch > 0 && |inFlight[s]| >= batch)
        invariant 0 <= n == submitted <= |toSend|
        invariant s in inFlight && inFlight - {s} == old(inFlight) - {s}
        invariant View(s) == SubmitJobs(start, toSend[..n])
        invariant |inFlight[s]| == |start.queue| + n
        invariant batch > 0 && n > 0 ==> |start.queue| + n <= batch
      {
        var p := toSend[n];
        SubmitOne(s, p);
        SubmitOneMore(start, toSend[..n], p);
        assert toSend[..n + 1] == toSend[..n] + [p];
        submitted := submitted + 1;
        n := n + 1;
      }
    }

    // Cancel the in-flight jobs of out-of-range chunks; operator[] creates the queue if there is none.
    method CancelJobs(s: PlayerSession, c: Pos, radius: int)
      modifies this`inFlight
      ensures View(s) == old(View(s)).(registered := true, queue := KeepInRange(old(View(s)).queue, c, radius))
      ensures s in inFlight && inFlight - {s} == old(inFlight) - {s}
    {
      var queue := if s in inFlight then inFlight[s] else [];
      queue := CancelOutOfRange(queue, c, radius);
      inFlight := inFlight[s := queue];
    }

    method Enqueue(s: PlayerSession, viewRadius: nat, generated: set<Pos>, batchSize: int)
      returns (submitted: nat, ghost order: seq<Pos>, ghost dropped: seq<Pos>)
      modifies this`inFlight, s
      ensures var c := old(s.Center()); var radius := EffectiveRadius(old(s.viewDistanceOverride), viewRadius);
              && Schedule(old(View(s)), c, radius, generated, order, dropped)
              && View(s) == Delivery.Enqueue(old(View(s)), c, radius, EffectiveBatch(batchSize), order, dropped)
      ensures inFlight - {s} == old(inFlight) - {s}
      ensures s.Where() == old(s.Where())
    {
      var batch := if batchSize < 0 then POOL_THREADS * 2 else batchSize;
      var c := s.Center();
      var radius := EffectiveRadius(s.viewDistanceOverride, viewRadius);
      ghost var start := View(s);
      var toSend := CollectCandidates(s, c, radius, generated);
      toSend := SortByDistance(toSend, c);
      var toUnload := OutOfRange(s.sentChunks, c, radius);
      UnloadChunks(s, toUnload);
      CancelJobs(s, c, radius);
      order, dropped := toSend, toUnload;
      assert View(s) == Unload(start, c, radius, toUnload);
      submitted := SubmitCandidates(s, toSend, batch);
    }

    method SendBlockUpdates(s: PlayerSession, chunk: Pos, changes: LocalChanges, hasChunk: bool)
      modifies this`subRegionFlight
      ensures View(s) == SubmitSubRegion(old(View(s)), chunk, changes, hasChunk)
      ensures subRegionFlight - {s} == old(subRegionFlight) - {s}
    {
      if changes == [] {
        return;
      }
      var box := BoundingBox(changes);
      var queue := if s in subRegionFlight then subRegionFlight[s] else [];
      var header := Header(chunk.x * CHUNK_WIDTH + box.xmin, box.ymin, chunk.z * CHUNK_WIDTH + box.zmin,
                           box.xmax - box.xmin, box.ymax - box.ymin, box.zmax - box.zmin);
      var psr := SubJob(chunk, header, box, changes, hasChunk, Stay(s.stream, chunk));
      subRegionFlight := subRegionFlight[s := queue + [psr]];
    }

    method Flush(s: PlayerSession, ready: set<Pos>, live: set<Pos>, finished: nat)
      modifies this, s
      ensures View(s) == Delivery.Flush(old(View(s)), ready, live, finished)
      ensures inFlight - {s} == old(inFlight) - {s} && subRegionFlight - {s} == old(subRegionFlight) - {s}
      ensures s.Where() == old(s.Where())
    {
      if s !in inFlight {
        return;
      }
      FlushReady(s, ready, live);
      DrainFinished(s, finished);
    }

    // The loop over the in-flight queue; jobs that are not finished stay in it.
    method FlushReady(s: PlayerSession, ready: set<Pos>, live: set<Pos>)
      requires s in inFlight
      modifies this, s
      ensures var v := old(View(s)); View(s) == FlushChunks(v, v.queue, ready, live).(queue := NotReady(v.queue, ready))
      ensures inFlight - {s} == old(inFlight) - {s} && subRegionFlight - {s} == old(subRegionFlight) - {s}
      ensures s.Where() == old(s.Where())
    {
      var stillPending := FlushQueue(s, inFlight[s], ready, live);
      inFlight := inFlight[s := stillPending];
    }

    method FlushQueue(s: PlayerSession, queue: seq<Pos>, ready: set<Pos>, live: set<Pos>)
      returns (stillPending: seq<Pos>)
      modifies this`subRegionFlight, s
      ensures stillPending == NotReady(queue, ready)
      ensures View(s) == FlushChunks(old(View(s)), queue, ready, live)
      ensures subRegionFlight - {s} == old(subRegionFlight) - {s}
      ensures s.Where() == old(s.Where())
    {
      ghost var start := View(s);
      stillPending := [];
      FlushNone(start, ready, live);
      hide *;
      var n := 0;
      while n < |queue|
        invariant 0 <= n <= |queue|
        invariant stillPending == NotReady(queue[..n], ready)
        invariant View(s) == FlushChunks(start, queue[..n], ready, live)
        invariant subRegionFlight - {s} == old(subRegionFlight) - {s}
        invariant s.Where() == old(s.Where())
      {
        var p := queue[n];
        FlushNext(start, queue, n, ready, live);
        if p !in ready {
          stillPending := stillPending + [p];
        } else {
          FlushJob(s, p, live);
        }
        n := n + 1;
      }
      assert queue[..n] == queue;
    }

    lemma FlushNone(v: Session, ready: set<Pos>, live: set<Pos>)
      ensures FlushChunks(v, [], ready, live) == v && NotReady([], ready) == []
    {
    }

    lemma FlushNext(v: Session, queue: seq<Pos>, n: nat, ready: set<Pos>, live: set<Pos>)
      requires n < |queue|
      ensures var r, kept := FlushChunks(v, queue[..n], ready, live), NotReady(queue[..n], ready);
              && FlushChunks(v, queue[..n + 1], ready, live)
                 == (if queue[n] in ready then FlushOne(r, queue[n], live) else r)
              && NotReady(queue[..n + 1], ready) == if queue[n] in ready then kept else kept + [queue[n]]
    {
      assert queue[..n + 1][..n] == queue[..n];
      hide FlushOne;
    }

    // The body of the flush loop for a finished job.
    method FlushJob(s: PlayerSession, p: Pos, live: set<Pos>)
      modifies this`subRegionFlight, s
      ensures View(s) == FlushOne(old(View(s)), p, live)
      ensures subRegionFlight - {s} == old(subRegionFlight) - {s}
      ensures s.Where() == old(s.Where())
    {
      hide SubmitSubRegion;
      WriteChunk(s, p);
      if p in s.pendingBlockChanges {
        HandOverPending(s, p, live);
      }
    }

    method WriteChunk(s: PlayerSession, p: Pos)
      modifies s`stream, s`flushedChunks, s`newlyFlushed
      ensures View(s) == old(View(s)).(stream := old(s.stream) + [Visibility(p, true), ChunkData(p)],
                                       flushed := old(s.flushedChunks) + {p}, newlyFlushed := old(s.newlyFlushed) + [p])
    {
      s.stream := s.stream + [Visibility(p, true)];
      s.stream := s.stream + [ChunkData(p)];
      assert s.stream == old(s.stream) + [Visibility(p, true), ChunkData(p)];
      s.flushedChunks := s.flushedChunks + {p};
      s.newlyFlushed := s.newlyFlushed + [p];
    }

    method HandOverPending(s: PlayerSession, p: Pos, live: set<Pos>)
      requires p in s.pendingBlockChanges
      modifies this`subRegionFlight, s`pendingBlockChanges
      ensures var u := SubmitSubRegion(old(View(s)), p, old(s.pendingBlockChanges)[p], p in live);
              View(s) == u.(pending := Without(u.pending, {p}))
      ensures subRegionFlight - {s} == old(subRegionFlight) - {s}
    {
      hide SubmitSubRegion;
      SendBlockUpdates(s, p, s.pendingBlockChanges[p], p in live);
      s.pendingBlockChanges := s.pendingBlockChanges - {p};
    }

    // Drain the sub-region queue from the front, stopping at the first job that is not finished or
    // never will be.
    method DrainFinished(s: PlayerSession, finished: nat)
      modifies this`subRegionFlight, s`stream
      ensures View(s) == DrainSubRegions(old(View(s)), finished)
      ensures subRegionFlight - {s} == old(subRegionFlight) - {s}
    {
      if s !in subRegionFlight {
        assert old(s.stream) + [] == old(s.stream);
        return;
      }
      ghost var n := WriteFinished(s, finished);
    }

    method WriteFinished(s: PlayerSession, finished: nat) returns (ghost n: nat)
      requires s in subRegionFlight
      modifies this`subRegionFlight, s`stream
      ensures s in subRegionFlight && subRegionFlight - {s} == old(subRegionFlight) - {s}
      ensures n == Drainable(old(subRegionFlight)[s], finished)
      ensures subRegionFlight[s] == old(subRegionFlight)[s][n..]
      ensures s.stream == old(s.stream) + SubPackets(old(subRegionFlight)[s][..n])
    {
      ghost var q := subRegionFlight[s];
      var left: nat := finished;
      assert q[0..] == q && SubPackets(q[..0]) == [];
      assert s.stream + [] == s.stream;
      n := 0;
      hide *;
      while subRegionFlight[s] != [] && subRegionFlight[s][0].hasChunk && left > 0
        invariant s in subRegionFlight && subRegionFlight - {s} == old(subRegionFlight) - {s}
        invariant 0 <= left && 0 <= n <= |q| && left + n == finished && subRegionFlight[s] == q[n..]
        invariant n + Drainable(q[n..], left) == Drainable(q, finished)
        invariant s.stream == old(s.stream) + SubPackets(q[..n])
        decreases left
      {
        var psr := subRegionFlight[s][0];
        DrainableNext(q, n, left);
        s.stream := s.stream + [SubRegion(psr)];
        subRegionFlight := subRegionFlight[s := subRegionFlight[s][1..]];
        left := left - 1;
        n := n + 1;
      }
      DrainableStops(q[n..], left);
    }

    lemma DrainableStops(q: seq<SubJob>, left: nat)
      requires q == [] || !q[0].hasChunk || left == 0
      ensures Drainable(q, left) == 0
    {
    }

    lemma DrainableNext(q: seq<SubJob>, n: nat, left: nat)
      requires n < |q| && q[n].hasChunk && left > 0
      ensures Drainable(q[n..], left) == 1 + Drainable(q[n + 1..], left - 1) && q[n..][1..] == q[n + 1..]
      ensures SubPackets(q[..n + 1]) == SubPackets(q[..n]) + [SubRegion(q[n])]
    {
      assert q[n..][1..] == q[n + 1..];
    }

    // A session's turn in the tick loop: enqueue, then flush. What the spawn gate adds to the tick is
    // passed through.
    method Turn(s: PlayerSession, e: Surroundings, batchSize: int, ghost spawn: Pos, ghost portalWait: bool)
      returns (ghost tick: Tick)
      modifies this, s
      ensures Delivers(tick, old(s.Center()), EffectiveRadius(old(s.viewDistanceOverride), e.viewRadius),
                       e.generated, batchSize, e.ready, e.live, e.finished)
      ensures tick.spawn == spawn && tick.portalWait == portalWait
      ensures Schedule(old(View(s)), tick.center, tick.radius, tick.generated, tick.order, tick.dropped)
      ensures View(s) == Served(old(View(s)), tick)
      ensures inFlight - {s} == old(inFlight) - {s} && subRegionFlight - {s} == old(subRegionFlight) - {s}
      ensures s.Where() == old(s.Where())
    {
      ghost var c, radius := s.Center(), EffectiveRadius(s.viewDistanceOverride, e.viewRadius);
      var submitted;
      ghost var order, dropped;
      submitted, order, dropped := Enqueue(s, e.viewRadius, e.generated, batchSize);
      Flush(s, e.ready, e.live, e.finished);
      tick := Tick(c, radius, EffectiveBatch(batchSize), e.generated, order, dropped, e.ready, e.live, e.finished,
                   spawn, portalWait);
    }

    // Remove all in-flight state of a session.
    method Remove(s: PlayerSession)
      modifies this
      ensures inFlight == old(inFlight) - {s} && subRegionFlight == old(subRegionFlight) - {s}
    {
      inFlight := inFlight - {s};
      subRegionFlight := subRegionFlight - {s};
    }
  }
}
