// The chunk delivery protocol of one session, as functions on its abstract state: what Enqueue,
// Flush, a block-change broadcast and a dimension change do to the chunk sets, the queues and the
// packet stream, and what all of them keep.
module Delivery {
  import opened Sequences
  import opened BlockChanges

  datatype Pos = Pos(x: int, z: int)

  datatype Packet =
    | Login(dim: int)
    | Respawn(dim: int)
    | Visibility(pos: Pos, visible: bool)   // SetChunkVisibility
    | ChunkData(pos: Pos)                   // a whole chunk
    | SetBlock(x: int, y: int, z: int, block: int, data: int)
    | SetMultipleBlocks(pos: Pos, coordinates: seq<int>, blocks: seq<(int, int)>)
    | SubRegion(job: SubJob)                // the chunk data of a job's box

  // Where a client puts the region it is sent: a corner in the world, and one less than the size.
  datatype Header = Header(x: int, y: int, z: int, sizeX: int, sizeY: int, sizeZ: int)

  // A queued sub-region job: the header, and the box of the chunk that is serialised. Without a chunk
  // reference its future is never made. Beside what the server keeps, a job is labelled with the changes
  // that it was made for, and with the stay of the chunk at the client during which it was made: how often
  // the chunk had been announced by then.
  datatype SubJob = SubJob(pos: Pos, header: Header, box: Box, changes: seq<Change>, hasChunk: bool, stay: nat)

  datatype Connection = LoggingIn | WaitingForSpawnChunks | Playing

  // `queue` lists the in-flight full-chunk jobs, `registered` tells whether the session has an entry
  // in the in-flight map at all. `told` records what happened outside the session: for each chunk on its
  // way to or at the client, the changes broadcast since it was enqueued, in order.
  datatype Session = Session(dim: int, conn: Connection, sent: set<Pos>, flushed: set<Pos>,
                             registered: bool, queue: seq<Pos>, subQueue: seq<SubJob>,
                             pending: map<Pos, LocalChanges>,
                             newlyFlushed: seq<Pos>, newlyUnloaded: seq<Pos>, stream: seq<Packet>,
                             told: map<Pos, LocalChanges>) {
    predicate Active() { !conn.LoggingIn? }
  }

  function Elements(s: seq<Pos>): (r: set<Pos>)
    ensures forall x :: x in r <==> x in s
  {
    set x | x in s
  }

  function At(m: map<Pos, LocalChanges>, p: Pos): LocalChanges { if p in m then m[p] else [] }

  // ----- Enqueue -----

  function Dist(a: int, b: int): (d: nat)
    ensures a - b == d || b - a == d
  {
    if a < b then b - a else a - b
  }

  predicate InRange(p: Pos, c: Pos, radius: int)
    ensures InRange(p, c, radius) <==> c.x - radius <= p.x <= c.x + radius && c.z - radius <= p.z <= c.z + radius
  {
    Dist(p.x, c.x) <= radius && Dist(p.z, c.z) <= radius
  }

  function Manhattan(p: Pos, c: Pos): int { Dist(p.x, c.x) + Dist(p.z, c.z) }

  predicate SortedByDistance(s: seq<Pos>, c: Pos)
  {
    forall i, j :: 0 <= i < j < |s| ==> Manhattan(s[i], c) <= Manhattan(s[j], c)
  }

  // The generated chunks of the square that were not sent yet.
  predicate Candidate(s: Session, p: Pos, c: Pos, radius: int, generated: set<Pos>)
  {
    p in generated && InRange(p, c, radius) && p !in s.sent
  }

  // `order` is the sorted candidate list (std::sort leaves equal distances in any order), `dropped`
  // the out-of-range part of sentChunks in the order its hash set yields it.
  ghost predicate Schedule(s: Session, c: Pos, radius: int, generated: set<Pos>, order: seq<Pos>, dropped: seq<Pos>)
  {
    && NoDup(order) && SortedByDistance(order, c)
    && (forall p :: p in order <==> Candidate(s, p, c, radius, generated))
    && NoDup(dropped) && (forall p :: p in dropped <==> p in s.sent && !InRange(p, c, radius))
  }

  function KeepInRange(q: seq<Pos>, c: Pos, radius: int): (r: seq<Pos>)
    ensures forall p :: p in r <==> p in q && InRange(p, c, radius)
    ensures NoDup(q) ==> NoDup(r)
    ensures |r| <= |q|
  {
    if q == [] then []
    else
      var rest := KeepInRange(q[..|q| - 1], c, radius);
      assert q == q[..|q| - 1] + [q[|q| - 1]];
      if InRange(q[|q| - 1], c, radius) then rest + [q[|q| - 1]] else rest
  }

  function Invisible(ps: seq<Pos>): seq<Packet> { seq(|ps|, i requires 0 <= i < |ps| => Visibility(ps[i], false)) }

  function Without<V>(m: map<Pos, V>, ps: set<Pos>): map<Pos, V> { m - ps }

  function Fresh(ps: seq<Pos>): map<Pos, LocalChanges> { map p | p in ps :: [] }

  // How many candidates are submitted: while the queue is shorter than a positive batch size.
  function Room(queued: nat, batch: int, candidates: nat): (n: nat)
    ensures n <= candidates
  {
    if batch <= 0 then candidates
    else if queued >= batch then 0
    else if candidates < batch - queued then candidates
    else batch - queued
  }

  function DropChunks(s: Session, ps: seq<Pos>): Session
  {
    var gone := Elements(ps);
    s.(sent := s.sent - gone, flushed := s.flushed - gone, pending := Without(s.pending, gone),
       newlyUnloaded := s.newlyUnloaded + ps, stream := s.stream + Invisible(ps),
       told := Without(s.told, gone))
  }

  function Unload(s: Session, c: Pos, radius: int, dropped: seq<Pos>): Session
  {
    DropChunks(s, dropped).(registered := true, queue := KeepInRange(s.queue, c, radius))
  }

  function SubmitJobs(s: Session, ps: seq<Pos>): Session
  {
    s.(queue := s.queue + ps, sent := s.sent + Elements(ps), told := s.told + Fresh(ps))
  }

  function Enqueue(s: Session, c: Pos, radius: int, batch: int, order: seq<Pos>, dropped: seq<Pos>): Session
  {
    var t := Unload(s, c, radius, dropped);
    SubmitJobs(t, order[..Room(|t.queue|, batch, |order|)])
  }

  // ----- Flush -----

  function Append(m: map<Pos, LocalChanges>, p: Pos, cs: LocalChanges): map<Pos, LocalChanges>
  {
    m[p := At(m, p) + cs]
  }

  function HeaderOf(p: Pos, b: Box): Header
  {
    Header(p.x * CHUNK_WIDTH + b.xmin, b.ymin, p.z * CHUNK_WIDTH + b.zmin,
           b.xmax - b.xmin, b.ymax - b.ymin, b.zmax - b.zmin)
  }

  function JobFor(p: Pos, cs: LocalChanges, hasChunk: bool, stay: nat): SubJob
    requires cs != []
  {
    SubJob(p, HeaderOf(p, BoxOf(cs)), BoxOf(cs), cs, hasChunk, stay)
  }

  // SendBlockUpdates.
  function SubmitSubRegion(s: Session, p: Pos, cs: LocalChanges, hasChunk: bool): Session
  {
    if cs == [] then s
    else s.(subQueue := s.subQueue + [JobFor(p, cs, hasChunk, Stay(s.stream, p))])
  }

  // One finished job: announce and write the chunk, then hand over the changes that queued up for it.
  function FlushOne(s: Session, p: Pos, live: set<Pos>): Session
  {
    var t := s.(stream := s.stream + [Visibility(p, true), ChunkData(p)], flushed := s.flushed + {p},
                newlyFlushed := s.newlyFlushed + [p]);
    if p in t.pending then
      var u := SubmitSubRegion(t, p, t.pending[p], p in live);
      u.(pending := Without(u.pending, {p}))
    else t
  }

  // `ready` are the positions whose future is found ready, `live` the chunks that still exist.
  function FlushChunks(s: Session, jobs: seq<Pos>, ready: set<Pos>, live: set<Pos>): Session
  {
    if jobs == [] then s
    else
      var t := FlushChunks(s, jobs[..|jobs| - 1], ready, live);
      var p := jobs[|jobs| - 1];
      if p in ready then FlushOne(t, p, live) else t
  }

  function NotReady(jobs: seq<Pos>, ready: set<Pos>): (r: seq<Pos>)
    ensures forall p :: p in r <==> p in jobs && p !in ready
    ensures NoDup(jobs) ==> NoDup(r)
  {
    if jobs == [] then []
    else
      var rest := NotReady(jobs[..|jobs| - 1], ready);
      assert jobs == jobs[..|jobs| - 1] + [jobs[|jobs| - 1]];
      if jobs[|jobs| - 1] in ready then rest else rest + [jobs[|jobs| - 1]]
  }

  // The leading jobs that have a future, at most `finished` of them.
  function Drainable(q: seq<SubJob>, finished: nat): (n: nat)
    ensures n <= |q| && n <= finished
  {
    if q == [] || finished == 0 || !q[0].hasChunk then 0 else 1 + Drainable(q[1..], finished - 1)
  }

  function SubPackets(q: seq<SubJob>): seq<Packet>
  {
    seq(|q|, i requires 0 <= i < |q| => SubRegion(q[i]))
  }

  function DrainSubRegions(s: Session, finished: nat): Session
  {
    var n := Drainable(s.subQueue, finished);
    s.(stream := s.stream + SubPackets(s.subQueue[..n]), subQueue := s.subQueue[n..])
  }

  function Flush(s: Session, ready: set<Pos>, live: set<Pos>, finished: nat): Session
  {
    if !s.registered then s
    else
      var t := FlushChunks(s, s.queue, ready, live).(queue := NotReady(s.queue, ready));
      DrainSubRegions(t, finished)
  }

  // ----- broadcast, dimension change -----

  // One change has a packet of its own; more share one, with their coordinates packed.
  function BlockPacket(p: Pos, batch: LocalChanges): Packet
  {
    if |batch| == 1 then
      var c := batch[0];
      SetBlock(c.x + p.x * CHUNK_WIDTH, c.y, c.z + p.z * CHUNK_WIDTH, c.block, c.data)
    else
      SetMultipleBlocks(p, seq(|batch|, i requires 0 <= i < |batch| => Packed(batch[i])),
                        seq(|batch|, i requires 0 <= i < |batch| => (batch[i].block, batch[i].data)))
  }

  function Packed(c: Change): int { FormatMultiBlock(c.x, c.y, c.z) }

  // A session in the chunk's index entry: written now, or compressed in the background from ten on.
  function Deliver(s: Session, p: Pos, batch: LocalChanges, hasChunk: bool): Session
  {
    if |batch| < 10 then s.(stream := s.stream + [BlockPacket(p, batch)])
    else SubmitSubRegion(s, p, batch, hasChunk)
  }

  // A session still waiting for the chunk.
  function Defer(s: Session, p: Pos, batch: LocalChanges): Session
  {
    s.(pending := Append(s.pending, p, batch))
  }

  predicate Waits(s: Session, dim: int, p: Pos)
  {
    s.Active() && s.dim == dim && p !in s.flushed && p in s.sent
  }

  // ResetDimensionState.
  function Reset(s: Session, dim: int): Session
  {
    s.(dim := dim, sent := {}, flushed := {}, registered := false, queue := [], subQueue := [], pending := map[],
       newlyFlushed := [], newlyUnloaded := [], told := map[])
  }

  // SendPlayerToDimension: the packet that makes the client forget its world, and back to waiting.
  function ChangeDimension(s: Session, dim: int): Session
  {
    var r := Reset(s, dim);
    r.(stream := r.stream + [Respawn(dim)], conn := WaitingForSpawnChunks)
  }

  function Drained(s: Session): Session { s.(newlyFlushed := [], newlyUnloaded := []) }

  // ----- a turn -----

  // What the environment contributes to one turn: position, view, generated chunks, finished jobs; and
  // for the spawn gate the chunk the player stands in when the gate looks (a portal may have moved it)
  // and whether the gate is not reached because a portal area is missing.
  datatype Tick = Tick(center: Pos, radius: int, batch: int, generated: set<Pos>, order: seq<Pos>, dropped: seq<Pos>,
                       ready: set<Pos>, live: set<Pos>, finished: nat, spawn: Pos, portalWait: bool)

  ghost predicate SquareFlushed(flushed: set<Pos>, c: Pos, radius: int)
  {
    forall p: Pos :: InRange(p, c, radius) ==> p in flushed
  }

  // SetViewRadius never leaves the view radius below 3.
  type ViewRadius = r: nat | r >= 3 witness 9

  // The end of WaitForSpawnChunks, which takes the smaller of 3 and the view radius.
  const GATE_RADIUS := 3

  ghost predicate GateOpen(flushed: set<Pos>, t: Tick)
  {
    !t.portalWait && SquareFlushed(flushed, t.spawn, GATE_RADIUS)
  }

  ghost function Gated(s: Session, t: Tick): Session
  {
    if s.conn.WaitingForSpawnChunks? && GateOpen(s.flushed, t) then s.(conn := Playing) else s
  }

  function Served(s: Session, t: Tick): Session
  {
    Flush(Enqueue(s, t.center, t.radius, t.batch, t.order, t.dropped), t.ready, t.live, t.finished)
  }

  // HandleConnectionState for an active session.
  ghost function Visited(s: Session, t: Tick): Session { Gated(Served(s, t), t) }

  // ----- the client -----

  // The dimension that a client is in, if it is in the game, the chunks that it has been told to expect,
  // and those whose data it has received since.
  datatype Client = Client(dim: Option<int>, announced: set<Pos>, held: set<Pos>)

  function ClientStep(c: Client, p: Packet): Client
  {
    match p
    case Login(dim) => Client(Some(dim), {}, {})
    case Respawn(dim) => Client(Some(dim), {}, {})
    case Visibility(at, visible) =>
      c.(announced := if visible then c.announced + {at} else c.announced - {at}, held := c.held - {at})
    case ChunkData(at) => if at in c.announced then c.(held := c.held + {at}) else c
    case _ => c
  }

  // A client logs in once. From then on a chunk is announced once, its data follows once, and direct block
  // writes go to chunks held.
  predicate SafeStep(c: Client, p: Packet)
  {
    match p
    case Login(_) => c.dim.None?
    case Respawn(_) => true
    case Visibility(at, visible) => c.dim.Some? && (visible ==> at !in c.announced)
    case ChunkData(at) => at in c.announced && at !in c.held
    case SetBlock(x, _, z, _, _) => ChunkOf(x, z) in c.held
    case SetMultipleBlocks(at, _, _) => at in c.held
    case SubRegion(_) => true
  }

  function ClientAfter(stream: seq<Packet>): Client
  {
    if stream == [] then Client(None, {}, {}) else ClientStep(ClientAfter(stream[..|stream| - 1]), stream[|stream| - 1])
  }

  function ClientChunks(stream: seq<Packet>): set<Pos> { ClientAfter(stream).held }

  predicate SafeStream(stream: seq<Packet>)
  {
    stream != [] ==>
      SafeStream(stream[..|stream| - 1]) && SafeStep(ClientAfter(stream[..|stream| - 1]), stream[|stream| - 1])
  }

  // ----- what was carried -----

  // How often a chunk has been announced.
  function Stay(stream: seq<Packet>, p: Pos): nat
  {
    if stream == [] then 0
    else Stay(stream[..|stream| - 1], p) + if stream[|stream| - 1] == Visibility(p, true) then 1 else 0
  }

  // The changes that the packets since the last announcement of p carry to it, in order. A region made
  // during an earlier stay does not count.
  function Carried(stream: seq<Packet>, p: Pos): seq<Change>
  {
    if stream == [] then []
    else
      var front := stream[..|stream| - 1];
      CarriedStep(Carried(front, p), Stay(front, p), stream[|stream| - 1], p)
  }

  function CarriedStep(got: seq<Change>, stay: nat, pk: Packet, p: Pos): seq<Change>
  {
    match pk
    case Visibility(at, visible) => if at == p && visible then [] else got
    case SubRegion(job) => got + Share(job, p, stay)
    case _ => got + Written(pk, p)
  }

  // The chunk of a block.
  function ChunkOf(x: int, z: int): Pos { Pos(x / CHUNK_WIDTH, z / CHUNK_WIDTH) }

  // The block writes to chunk p that a client reads from a packet.
  function Written(pk: Packet, p: Pos): seq<Change>
  {
    match pk
    case SetBlock(x, y, z, block, data) =>
      if ChunkOf(x, z) == p then [Change(x % CHUNK_WIDTH, y, z % CHUNK_WIDTH, block, data)] else []
    case SetMultipleBlocks(at, coordinates, blocks) =>
      if at == p && |blocks| == |coordinates| then
        seq(|coordinates|, i requires 0 <= i < |coordinates| => Unpacked(coordinates[i], blocks[i]))
      else []
    case _ => []
  }

  function Unpacked(v: int, b: (int, int)): Change
  {
    var (x, y, z) := DecodeMultiBlock(v);
    Change(x, y, z, b.0, b.1)
  }

  // A client that puts the serialised box where the header says shows block c of chunk p as it is there.
  // It can read the box only at an even height.
  predicate Shows(job: SubJob, p: Pos, c: Change)
  {
    var h, b := job.header, job.box;
    && InsideChunk(b) && b.ymin % 2 == 0 && (b.ymax - b.ymin + 1) % 2 == 0
    && h.sizeX == b.xmax - b.xmin && h.sizeY == b.ymax - b.ymin && h.sizeZ == b.zmax - b.zmin
    && InBox(b, c)
    && h.x + (c.x - b.xmin) == p.x * CHUNK_WIDTH + c.x && h.y + (c.y - b.ymin) == c.y
    && h.z + (c.z - b.zmin) == p.z * CHUNK_WIDTH + c.z
  }

  function ShownOf(job: SubJob, p: Pos, cs: seq<Change>): seq<Change>
  {
    if cs == [] then []
    else
      var last := cs[|cs| - 1];
      ShownOf(job, p, cs[..|cs| - 1]) + if Shows(job, p, last) then [last] else []
  }

  // What a job holds for p if it was made during that stay: the changes that its region shows.
  function Share(job: SubJob, p: Pos, stay: nat): seq<Change>
  {
    if job.pos == p && job.stay == stay then ShownOf(job, p, job.changes) else []
  }

  // What the queued jobs still hold for p, in the order in which they will be written.
  function Owed(q: seq<SubJob>, p: Pos, stay: nat): seq<Change>
  {
    if q == [] then [] else Owed(q[..|q| - 1], p, stay) + Share(q[|q| - 1], p, stay)
  }

  // What the queued jobs hold for the present stay of p.
  function Queued(s: Session, p: Pos): seq<Change> { Owed(s.subQueue, p, Stay(s.stream, p)) }

  // The changes of p in the order in which the client gets them.
  function Arrivals(s: Session, p: Pos): seq<Change> { Carried(s.stream, p) + Queued(s, p) }

  function Account(s: Session, p: Pos): multiset<Change> { multiset(Arrivals(s, p)) }

  // ----- the invariant -----

  // sentChunks is the disjoint union of flushedChunks and the duplicate-free in-flight queue; only
  // in-flight chunks have deferred changes.
  ghost predicate SetsAgree(s: Session)
  {
    && NoDup(s.queue)
    && (forall p :: p in s.queue ==> p !in s.flushed)
    && (forall p :: p in s.sent <==> p in s.flushed || p in s.queue)
    && (forall p :: p in s.pending ==> p in s.queue)
    && (!s.registered ==> s.queue == [])
    && (!s.Active() ==> s.sent == {})
  }

  // From login on the client is in the session's dimension. It holds exactly the flushed chunks, each
  // announced and sent once.
  ghost predicate ClientAgrees(s: Session)
  {
    && ClientAfter(s.stream) == Client(if s.Active() then Some(s.dim) else None, s.flushed, s.flushed)
    && SafeStream(s.stream)
  }

  // No change is lost or repeated: for a chunk at the client, the packets since its announcement and the
  // queued jobs of this stay together carry exactly the changes broadcast since it was enqueued; for a
  // chunk on its way, those changes are all deferred, in order.
  ghost predicate NothingLost(s: Session)
  {
    && s.told.Keys == s.sent
    && (forall p :: p in s.flushed && p in s.told ==> multiset(s.told[p]) == Account(s, p))
    && (forall p :: p in s.told && p !in s.flushed ==> s.told[p] == At(s.pending, p))
    && (forall i :: 0 <= i < |s.subQueue| ==> s.subQueue[i].stay <= Stay(s.stream, s.subQueue[i].pos))
  }

  ghost predicate Inv(s: Session) { SetsAgree(s) && ClientAgrees(s) && NothingLost(s) }

  // ----- streams -----

  lemma ClientAppend(stream: seq<Packet>, p: Packet)
    ensures ClientAfter(stream + [p]) == ClientStep(ClientAfter(stream), p)
    ensures SafeStream(stream + [p]) <==> SafeStream(stream) && SafeStep(ClientAfter(stream), p)
  {
    assert (stream + [p])[..|stream|] == stream;
  }

  lemma CarriedAppend(stream: seq<Packet>, pk: Packet, p: Pos)
    ensures Stay(stream + [pk], p) == Stay(stream, p) + if pk == Visibility(p, true) then 1 else 0
    ensures Carried(stream + [pk], p) == CarriedStep(Carried(stream, p), Stay(stream, p), pk, p)
  {
    assert (stream + [pk])[..|stream|] == stream;
  }

  lemma {:induction false} InvisibleRemoves(stream: seq<Packet>, ps: seq<Pos>)
    ensures var c, r, gone := ClientAfter(stream), stream + Invisible(ps), Elements(ps);
            && ClientAfter(r) == Client(c.dim, c.announced - gone, c.held - gone)
            && (SafeStream(stream) && c.dim.Some? ==> SafeStream(r))
    decreases |ps|
  {
    if ps == [] {
      assert stream + Invisible(ps) == stream;
    } else {
      var front, last := ps[..|ps| - 1], ps[|ps| - 1];
      InvisibleRemoves(stream, front);
      LastInvisible(stream, ps);
      hide ClientAfter, SafeStream, Invisible, Elements;
      ClientAppend(stream + Invisible(front), Visibility(last, false));
    }
  }

  lemma LastInvisible(stream: seq<Packet>, ps: seq<Pos>)
    requires ps != []
    ensures var front, last := ps[..|ps| - 1], ps[|ps| - 1];
            && stream + Invisible(ps) == stream + Invisible(front) + [Visibility(last, false)]
            && Elements(ps) == Elements(front) + {last}
  {
    assert ps == ps[..|ps| - 1] + [ps[|ps| - 1]];
  }

  lemma {:induction false} InvisibleCarriesNothing(stream: seq<Packet>, ps: seq<Pos>, p: Pos)
    ensures Stay(stream + Invisible(ps), p) == Stay(stream, p)
    ensures Carried(stream + Invisible(ps), p) == Carried(stream, p)
    decreases |ps|
  {
    if ps == [] {
      assert stream + Invisible(ps) == stream;
    } else {
      var front, last := ps[..|ps| - 1], ps[|ps| - 1];
      InvisibleCarriesNothing(stream, front, p);
      LastInvisible(stream, ps);
      hide Carried, Stay, Invisible, Elements;
      CarriedAppend(stream + Invisible(front), Visibility(last, false), p);
    }
  }

  lemma {:induction false} SubPacketsNeutral(stream: seq<Packet>, q: seq<SubJob>)
    ensures ClientAfter(stream + SubPackets(q)) == ClientAfter(stream)
    ensures SafeStream(stream) ==> SafeStream(stream + SubPackets(q))
    decreases |q|
  {
    if q == [] {
      assert stream + SubPackets(q) == stream;
    } else {
      var front, last := q[..|q| - 1], q[|q| - 1];
      SubPacketsNeutral(stream, front);
      assert stream + SubPackets(q) == (stream + SubPackets(front)) + [SubRegion(last)];
      ClientAppend(stream + SubPackets(front), SubRegion(last));
    }
  }

  lemma {:induction false} OwedFront(q: seq<SubJob>, p: Pos, stay: nat)
    requires q != []
    ensures Owed(q, p, stay) == Share(q[0], p, stay) + Owed(q[1..], p, stay)
    decreases |q|
  {
    hide Owed, Share;
    if |q| == 1 {
      assert q[..0] == [] && q[1..] == [];
      OwedNone(p, stay);
      OwedLast(q, p, stay);
    } else {
      OwedFront(q[..|q| - 1], p, stay);
      OwedLast(q, p, stay);
      OwedLast(q[1..], p, stay);
      assert q[..|q| - 1][1..] == q[1..][..|q[1..]| - 1];
    }
  }

  lemma OwedNone(p: Pos, stay: nat)
    ensures Owed([], p, stay) == []
  {
  }

  lemma OwedLast(q: seq<SubJob>, p: Pos, stay: nat)
    requires q != []
    ensures Owed(q, p, stay) == Owed(q[..|q| - 1], p, stay) + Share(q[|q| - 1], p, stay)
  {
  }

  lemma OwedAppend(q: seq<SubJob>, job: SubJob, p: Pos, stay: nat)
    ensures Owed(q + [job], p, stay) == Owed(q, p, stay) + Share(job, p, stay)
  {
    assert (q + [job])[..|q|] == q;
  }

  // Jobs of earlier stays hold nothing for this one.
  lemma {:induction false} NothingOwedYet(q: seq<SubJob>, p: Pos, stay: nat)
    requires forall i :: 0 <= i < |q| && q[i].pos == p ==> q[i].stay < stay
    ensures Owed(q, p, stay) == []
    decreases |q|
  {
    if q != [] { NothingOwedYet(q[..|q| - 1], p, stay); }
  }

  lemma DrainOne(stream: seq<Packet>, q: seq<SubJob>, p: Pos)
    requires q != []
    ensures Stay(stream + [SubRegion(q[0])], p) == Stay(stream, p)
    ensures Carried(stream + [SubRegion(q[0])], p) + Owed(q[1..], p, Stay(stream, p))
            == Carried(stream, p) + Owed(q, p, Stay(stream, p))
  {
    hide *;
    var stay := Stay(stream, p);
    RegionCarries(stream, q[0], p);
    OwedFront(q, p, stay);
    Regrouped(Carried(stream, p), Share(q[0], p, stay), Owed(q[1..], p, stay));
  }

  lemma RegionCarries(stream: seq<Packet>, job: SubJob, p: Pos)
    ensures Stay(stream + [SubRegion(job)], p) == Stay(stream, p)
    ensures Carried(stream + [SubRegion(job)], p) == Carried(stream, p) + Share(job, p, Stay(stream, p))
  {
    hide Share;
    CarriedAppend(stream, SubRegion(job), p);
  }

  lemma Regrouped(a: seq<Change>, b: seq<Change>, c: seq<Change>)
    ensures (a + b) + c == a + (b + c)
  {
  }

  // Draining moves changes from the jobs to the packets; what the client gets is the same, in the same order.
  lemma {:induction false} DrainKeepsArrivals(stream: seq<Packet>, q: seq<SubJob>, n: nat, p: Pos)
    requires n <= |q|
    ensures Stay(stream + SubPackets(q[..n]), p) == Stay(stream, p)
    ensures Carried(stream + SubPackets(q[..n]), p) + Owed(q[n..], p, Stay(stream, p))
            == Carried(stream, p) + Owed(q, p, Stay(stream, p))
  {
    hide Carried, Stay, Owed;
    if n == 0 {
      assert stream + SubPackets(q[..0]) == stream && q[0..] == q;
    } else {
      DrainKeepsArrivals(stream, q, n - 1, p);
      var before := stream + SubPackets(q[..n - 1]);
      assert stream + SubPackets(q[..n]) == before + [SubRegion(q[n - 1])];
      assert q[n - 1..][1..] == q[n..];
      hide SubPackets;
      DrainOne(before, q[n - 1..], p);
    }
  }

  // ----- preservation -----

  lemma UnloadKeepsSets(s: Session, c: Pos, radius: int, generated: set<Pos>, order: seq<Pos>, dropped: seq<Pos>)
    requires SetsAgree(s) && Schedule(s, c, radius, generated, order, dropped)
    ensures s.Active() ==> SetsAgree(Unload(s, c, radius, dropped))
    ensures forall p :: p in Unload(s, c, radius, dropped).sent <==> p in s.sent && InRange(p, c, radius)
  {
    var t := Unload(s, c, radius, dropped);
    assert forall p :: p in t.sent <==> p in t.flushed || p in t.queue;
  }

  lemma UnloadKeepsClient(s: Session, c: Pos, radius: int, dropped: seq<Pos>)
    requires ClientAgrees(s) && s.Active()
    ensures ClientAgrees(Unload(s, c, radius, dropped))
  {
    InvisibleRemoves(s.stream, dropped);
    hide ClientAfter, SafeStream;
  }

  lemma UnloadArrivals(s: Session, c: Pos, radius: int, dropped: seq<Pos>, p: Pos)
    ensures var t := Unload(s, c, radius, dropped);
            Arrivals(t, p) == Arrivals(s, p) && Stay(t.stream, p) == Stay(s.stream, p) && t.subQueue == s.subQueue
  {
    InvisibleCarriesNothing(s.stream, dropped, p);
    hide Stay, Carried, Owed;
  }

  lemma UnloadKeepsLedger(s: Session, c: Pos, radius: int, dropped: seq<Pos>)
    requires NothingLost(s)
    ensures NothingLost(Unload(s, c, radius, dropped))
  {
    var t := Unload(s, c, radius, dropped);
    forall p ensures Account(t, p) == Account(s, p)
      && Stay(t.stream, p) == Stay(s.stream, p) && t.subQueue == s.subQueue {
      UnloadArrivals(s, c, radius, dropped, p);
    }
    hide Stay, Account;
    assert t.told.Keys == t.sent;
  }

  lemma SubmitKeepsSets(s: Session, ps: seq<Pos>)
    requires SetsAgree(s) && s.Active() && s.registered && NoDup(ps) && forall p :: p in ps ==> p !in s.sent
    ensures SetsAgree(SubmitJobs(s, ps))
  {
    var r := SubmitJobs(s, ps);
    assert forall p :: p in r.queue <==> p in s.queue || p in ps;
    assert forall i :: 0 <= i < |s.queue| ==> s.queue[i] in s.queue;
  }

  lemma SubmitKeepsLedger(s: Session, ps: seq<Pos>)
    requires NothingLost(s) && SetsAgree(s) && forall p :: p in ps ==> p !in s.sent
    ensures NothingLost(SubmitJobs(s, ps))
  {
    var r := SubmitJobs(s, ps);
    assert r == s.(queue := r.queue, sent := s.sent + Elements(ps), told := s.told + Fresh(ps));
    assert Fresh(ps).Keys == Elements(ps) && forall p :: p in Fresh(ps) ==> Fresh(ps)[p] == [];
    assert forall p :: p in ps ==> p !in s.flushed && At(s.pending, p) == [];
    assert forall p :: Account(r, p) == Account(s, p);
    hide *;
    LedgerWith(s, Fresh(ps), r);
  }

  // A ledger with chunks that have just been enqueued.
  lemma LedgerWith(s: Session, empty: map<Pos, LocalChanges>, r: Session)
    requires NothingLost(s) && r == s.(queue := r.queue, sent := s.sent + empty.Keys, told := s.told + empty)
    requires forall p :: p in empty ==> empty[p] == [] && p !in s.flushed && At(s.pending, p) == []
    requires forall p :: Account(r, p) == Account(s, p)
    ensures NothingLost(r)
  {
    hide Account, Stay, At;
  }

  lemma EnqueueKeepsInv(s: Session, c: Pos, radius: int, batch: int, generated: set<Pos>, order: seq<Pos>,
                        dropped: seq<Pos>)
    requires Inv(s) && s.Active() && Schedule(s, c, radius, generated, order, dropped)
    ensures Inv(Enqueue(s, c, radius, batch, order, dropped))
  {
    var t := Unload(s, c, radius, dropped);
    UnloadKeepsSets(s, c, radius, generated, order, dropped);
    UnloadKeepsClient(s, c, radius, dropped);
    UnloadKeepsLedger(s, c, radius, dropped);
    var ps := order[..Room(|t.queue|, batch, |order|)];
    assert forall p :: p in ps ==> p in order;
    hide NothingLost, ClientAfter, SafeStream;
    SubmitKeepsSets(t, ps);
    SubmitKeepsLedger(t, ps);
  }

  // While a flush walks the queue: the jobs still ahead of it and those it passed over.
  ghost predicate FlushSets(s: Session, ahead: seq<Pos>, kept: seq<Pos>)
  {
    && NoDup(ahead) && NoDup(kept)
    && (forall p :: p in ahead ==> p !in kept && p !in s.flushed)
    && (forall p :: p in kept ==> p !in s.flushed)
    && (forall p :: p in s.sent <==> p in s.flushed || p in ahead || p in kept)
    && (forall p :: p in s.pending ==> p in ahead || p in kept)
    && (!s.Active() ==> s.sent == {})
  }

  ghost predicate FlushInv(s: Session, ahead: seq<Pos>, kept: seq<Pos>)
  {
    FlushSets(s, ahead, kept) && ClientAgrees(s) && NothingLost(s)
  }

  // Announce p and send its data.
  function Announce(s: Session, p: Pos): Session
  {
    s.(stream := s.stream + [Visibility(p, true), ChunkData(p)], flushed := s.flushed + {p},
       newlyFlushed := s.newlyFlushed + [p])
  }

  lemma FlushOneKeepsClient(s: Session, p: Pos, live: set<Pos>)
    requires ClientAgrees(s) && s.Active() && p !in s.flushed
    ensures ClientAgrees(FlushOne(s, p, live))
  {
    var r, announced := FlushOne(s, p, live), s.stream + [Visibility(p, true)];
    assert s.stream + [Visibility(p, true), ChunkData(p)] == announced + [ChunkData(p)];
    assert r.stream == announced + [ChunkData(p)] && r.flushed == s.flushed + {p};
    hide FlushOne, SubmitSubRegion, ClientAfter, SafeStream;
    ClientAppend(s.stream, Visibility(p, true));
    ClientAppend(announced, ChunkData(p));
  }

  lemma AnnounceArrivals(s: Session, p: Pos, q: Pos)
    requires NothingLost(s)
    ensures var t := Announce(s, p);
            && Stay(t.stream, q) == Stay(s.stream, q) + (if q == p then 1 else 0)
            && Arrivals(t, q) == if q == p then [] else Arrivals(s, q)
  {
    hide *;
    var t := Announce(s, p);
    AnnounceIs(s, p);
    AnnounceStarts(s.stream, p, q);
    ArrivalsAre(s, q);
    ArrivalsAre(t, q);
    if q == p {
      JobsAreOfStays(s, p);
      NothingOwedYet(s.subQueue, p, Stay(s.stream, p) + 1);
    }
  }

  lemma AnnounceIs(s: Session, p: Pos)
    ensures var t := Announce(s, p);
            t.stream == s.stream + [Visibility(p, true), ChunkData(p)] && t.subQueue == s.subQueue
  {
  }

  lemma ArrivalsAre(s: Session, p: Pos)
    ensures Arrivals(s, p) == Carried(s.stream, p) + Owed(s.subQueue, p, Stay(s.stream, p))
  {
  }

  lemma JobsAreOfStays(s: Session, p: Pos)
    requires NothingLost(s)
    ensures forall i :: 0 <= i < |s.subQueue| && s.subQueue[i].pos == p ==> s.subQueue[i].stay <= Stay(s.stream, p)
  {
    hide Stay, Account, At;
  }

  // An announced chunk starts a stay in which nothing has been carried yet; other chunks do not notice.
  lemma AnnounceStarts(stream: seq<Packet>, p: Pos, q: Pos)
    ensures var r := stream + [Visibility(p, true), ChunkData(p)];
            && Stay(r, q) == Stay(stream, q) + (if q == p then 1 else 0)
            && Carried(r, q) == if q == p then [] else Carried(stream, q)
  {
    var announced := stream + [Visibility(p, true)];
    assert stream + [Visibility(p, true), ChunkData(p)] == announced + [ChunkData(p)];
    hide Stay, Carried;
    CarriedAppend(stream, Visibility(p, true), q);
    CarriedAppend(announced, ChunkData(p), q);
    assert Carried(announced, q) + [] == Carried(announced, q);
  }

  lemma SubmitSubRegionArrivals(s: Session, p: Pos, cs: LocalChanges, hasChunk: bool, q: Pos)
    ensures var r := SubmitSubRegion(s, p, cs, hasChunk);
            && r.stream == s.stream && Arrivals(r, q) == Arrivals(s, q) + if q == p then cs else []
  {
    if cs == [] {
      assert Arrivals(s, q) + [] == Arrivals(s, q);
    } else {
      var job := JobFor(p, cs, hasChunk, Stay(s.stream, p));
      assert SubmitSubRegion(s, p, cs, hasChunk) == s.(subQueue := s.subQueue + [job]);
      hide *;
      JobArrives(s, job, q);
      JobShowsAll(p, cs, hasChunk, Stay(s.stream, p), q, Stay(s.stream, q));
    }
  }

  // The region of a job shows each of the changes that it was made for.
  lemma JobShowsAll(p: Pos, cs: LocalChanges, hasChunk: bool, made: nat, q: Pos, stay: nat)
    requires cs != []
    ensures var job := JobFor(p, cs, hasChunk, made);
            && job.pos == p && job.stay == made && job.changes == cs && (forall c :: c in cs ==> Shows(job, p, c))
            && Share(job, q, stay) == if q == p && stay == made then cs else []
  {
    var job := JobFor(p, cs, hasChunk, made);
    BoxIsFaithful(cs);
    hide BoxOf;
    assert forall c :: c in cs ==> Shows(job, p, c);
    hide Shows, JobFor;
    AllShown(job, p, cs);
  }

  lemma {:induction false} AllShown(job: SubJob, p: Pos, cs: seq<Change>)
    requires forall c :: c in cs ==> Shows(job, p, c)
    ensures ShownOf(job, p, cs) == cs
    decreases |cs|
  {
    if cs != [] {
      AllShown(job, p, cs[..|cs| - 1]);
      assert cs == cs[..|cs| - 1] + [cs[|cs| - 1]];
    }
  }

  // A client reads from a packet the changes that it was made of, in order, for that chunk alone.
  lemma PacketWrites(p: Pos, batch: LocalChanges, q: Pos)
    ensures Written(BlockPacket(p, batch), q) == if q == p then batch else []
  {
    if |batch| == 1 {
      BlockIsIn(p, batch[0]);
    } else {
      forall i | 0 <= i < |batch| ensures Unpacked(Packed(batch[i]), (batch[i].block, batch[i].data)) == batch[i] {
        MultiBlockRoundTrip(batch[i]);
      }
      hide Packed, Unpacked;
    }
  }

  lemma BlockIsIn(p: Pos, c: Change)
    requires Local(c)
    ensures var x, z := c.x + p.x * CHUNK_WIDTH, c.z + p.z * CHUNK_WIDTH;
            ChunkOf(x, z) == p && x % CHUNK_WIDTH == c.x && z % CHUNK_WIDTH == c.z
  {
  }

  // A job queued now brings its changes last.
  lemma JobArrives(s: Session, job: SubJob, p: Pos)
    ensures Arrivals(s.(subQueue := s.subQueue + [job]), p) == Arrivals(s, p) + Share(job, p, Stay(s.stream, p))
  {
    hide Stay, Carried, Owed, Share;
    OwedAppend(s.subQueue, job, p, Stay(s.stream, p));
    Regrouped(Carried(s.stream, p), Owed(s.subQueue, p, Stay(s.stream, p)), Share(job, p, Stay(s.stream, p)));
  }

  // A finished job starts p afresh with what was deferred for it, in order, and touches no other chunk.
  lemma FlushOneArrivals(s: Session, p: Pos, live: set<Pos>, q: Pos)
    requires NothingLost(s)
    ensures var r := FlushOne(s, p, live);
            && Arrivals(r, q) == (if q == p then At(s.pending, p) else Arrivals(s, q))
            && Stay(r.stream, q) >= Stay(s.stream, q)
  {
    hide *;
    var t, cs := Announce(s, p), At(s.pending, p);
    FlushIsAnnounceAndSubmit(s, p, live);
    SameArrivals(SubmitSubRegion(t, p, cs, p in live), FlushOne(s, p, live), q);
    AnnounceArrivals(s, p, q);
    SubmitSubRegionArrivals(t, p, cs, p in live, q);
  }

  lemma FlushIsAnnounceAndSubmit(s: Session, p: Pos, live: set<Pos>)
    ensures var u, r := SubmitSubRegion(Announce(s, p), p, At(s.pending, p), p in live), FlushOne(s, p, live);
            r.stream == u.stream && r.subQueue == u.subQueue
  {
    hide Stay;
  }

  // What arrives depends on the stream and the queued jobs alone.
  lemma SameArrivals(s: Session, r: Session, p: Pos)
    requires r.stream == s.stream && r.subQueue == s.subQueue
    ensures Arrivals(r, p) == Arrivals(s, p)
  {
  }

  // A ledger in which p has just been announced and everything deferred for it handed over.
  lemma LedgerFlushed(s: Session, p: Pos, r: Session)
    requires NothingLost(s) && p in s.sent && p !in s.flushed
    requires r.told == s.told && r.sent == s.sent && r.flushed == s.flushed + {p}
    requires forall q :: q != p ==> At(r.pending, q) == At(s.pending, q)
    requires forall q :: Account(r, q) == if q == p then multiset(At(s.pending, p)) else Account(s, q)
    requires forall i :: 0 <= i < |r.subQueue| ==> r.subQueue[i].stay <= Stay(r.stream, r.subQueue[i].pos)
    ensures NothingLost(r)
  {
    hide Account, Stay, At;
  }

  // A ledger in which nothing has changed but who carries what.
  lemma LedgerSame(s: Session, r: Session)
    requires NothingLost(s) && r.told == s.told && r.sent == s.sent && r.flushed == s.flushed && r.pending == s.pending
    requires forall q :: Account(r, q) == Account(s, q)
    requires forall i :: 0 <= i < |r.subQueue| ==> r.subQueue[i].stay <= Stay(r.stream, r.subQueue[i].pos)
    ensures NothingLost(r)
  {
    hide Account, Stay, At;
  }

  lemma FlushOneKeepsLedger(s: Session, p: Pos, live: set<Pos>)
    requires NothingLost(s) && p in s.sent && p !in s.flushed
    ensures NothingLost(FlushOne(s, p, live))
  {
    var r := FlushOne(s, p, live);
    assert forall q :: q != p ==> At(r.pending, q) == At(s.pending, q);
    JobStays(s, p, live);
    hide *;
    forall q ensures Account(r, q) == if q == p then multiset(At(s.pending, p)) else Account(s, q) {
      FlushOneArrivals(s, p, live, q);
      AccountsAre(s, q);
      AccountsAre(r, q);
    }
    LedgerFlushed(s, p, r);
  }

  lemma AccountsAre(s: Session, p: Pos)
    ensures Account(s, p) == multiset(Arrivals(s, p))
  {
  }

  // Every queued job was made during some stay up to the present one.
  lemma JobStays(s: Session, p: Pos, live: set<Pos>)
    requires NothingLost(s)
    ensures var r := FlushOne(s, p, live);
            && r.told == s.told && r.sent == s.sent && r.flushed == s.flushed + {p}
            && forall i :: 0 <= i < |r.subQueue| ==> r.subQueue[i].stay <= Stay(r.stream, r.subQueue[i].pos)
  {
    var r := FlushOne(s, p, live);
    forall q ensures Stay(r.stream, q) >= Stay(s.stream, q) {
      FlushOneArrivals(s, p, live, q);
    }
    hide Stay, Account;
  }

  lemma FlushOneKeepsSets(s: Session, ahead: seq<Pos>, kept: seq<Pos>, live: set<Pos>)
    requires ahead != [] && FlushSets(s, ahead, kept)
    ensures FlushSets(FlushOne(s, ahead[0], live), ahead[1..], kept)
  {
    FlushOneFrame(s, ahead[0], live);
    hide FlushOne, Stay;
    assert ahead == [ahead[0]] + ahead[1..];
    assert ahead[0] !in ahead[1..];
  }

  lemma FlushOneKeepsInv(s: Session, ahead: seq<Pos>, kept: seq<Pos>, live: set<Pos>)
    requires ahead != [] && FlushInv(s, ahead, kept)
    ensures FlushInv(FlushOne(s, ahead[0], live), ahead[1..], kept)
  {
    assert ahead[0] in s.sent && ahead[0] !in s.flushed;
    hide NothingLost, ClientAgrees, FlushSets, FlushOne;
    FlushOneKeepsSets(s, ahead, kept, live);
    FlushOneKeepsClient(s, ahead[0], live);
    FlushOneKeepsLedger(s, ahead[0], live);
  }

  lemma FlushStepKeepsInv(s: Session, ahead: seq<Pos>, kept: seq<Pos>, ready: set<Pos>, live: set<Pos>)
    requires ahead != [] && FlushInv(s, ahead, kept)
    ensures if ahead[0] in ready then FlushInv(FlushOne(s, ahead[0], live), ahead[1..], kept)
            else FlushInv(s, ahead[1..], kept + [ahead[0]])
  {
    hide NothingLost, ClientAgrees;
    if ahead[0] in ready {
      FlushOneKeepsInv(s, ahead, kept, live);
    } else {
      KeepOneJob(s, ahead, kept);
    }
  }

  lemma {:induction false} FlushChunksKeepsInv(s: Session, jobs: seq<Pos>, k: nat, ready: set<Pos>, live: set<Pos>)
    requires FlushInv(s, jobs, []) && k <= |jobs|
    ensures FlushInv(FlushChunks(s, jobs[..k], ready, live), jobs[k..], NotReady(jobs[..k], ready))
  {
    hide FlushInv, FlushOne;
    if k == 0 {
      assert jobs[..0] == [] && jobs[0..] == jobs;
    } else {
      FlushChunksKeepsInv(s, jobs, k - 1, ready, live);
      assert jobs[..k][..k - 1] == jobs[..k - 1] && jobs[..k][k - 1] == jobs[k - 1];
      assert jobs[k - 1..][1..] == jobs[k..] && jobs[k - 1..][0] == jobs[k - 1];
      FlushStepKeepsInv(FlushChunks(s, jobs[..k - 1], ready, live),
        jobs[k - 1..], NotReady(jobs[..k - 1], ready), ready, live);
    }
  }

  lemma KeepOneJob(s: Session, ahead: seq<Pos>, kept: seq<Pos>)
    requires ahead != [] && FlushSets(s, ahead, kept)
    ensures FlushSets(s, ahead[1..], kept + [ahead[0]])
  {
    assert ahead == [ahead[0]] + ahead[1..];
    assert forall p :: p in ahead <==> p == ahead[0] || p in ahead[1..];
    assert ahead[0] !in ahead[1..];
  }

  lemma FlushOneFrame(s: Session, p: Pos, live: set<Pos>)
    ensures var t := FlushOne(s, p, live);
            && t.dim == s.dim && t.conn == s.conn && t.registered == s.registered && t.queue == s.queue
            && t.sent == s.sent && t.newlyUnloaded == s.newlyUnloaded && t.told == s.told
            && t.flushed == s.flushed + {p} && t.newlyFlushed == s.newlyFlushed + [p]
            && t.pending == Without(s.pending, {p})
  {
    hide JobFor, Stay;
  }

  lemma {:induction false} FlushChunksFrame(s: Session, jobs: seq<Pos>, ready: set<Pos>, live: set<Pos>)
    ensures var t := FlushChunks(s, jobs, ready, live);
            && t.dim == s.dim && t.conn == s.conn && t.registered == s.registered && t.queue == s.queue
            && t.sent == s.sent && t.newlyUnloaded == s.newlyUnloaded && t.told == s.told
            && (forall p :: p in t.flushed <==> p in s.flushed || (p in jobs && p in ready))
            && (forall p :: p in t.newlyFlushed <==> p in s.newlyFlushed || (p in jobs && p in ready))
    decreases |jobs|
  {
    if jobs != [] {
      var front, last := jobs[..|jobs| - 1], jobs[|jobs| - 1];
      FlushChunksFrame(s, front, ready, live);
      assert jobs == front + [last];
      assert forall p :: p in jobs <==> p in front || p == last;
      FlushOneFrame(FlushChunks(s, front, ready, live), last, live);
    }
  }

  lemma DrainArrivals(s: Session, finished: nat, p: Pos)
    ensures var r := DrainSubRegions(s, finished);
            Arrivals(r, p) == Arrivals(s, p) && Stay(r.stream, p) == Stay(s.stream, p)
  {
    hide Carried, Stay, Owed, Drainable, SubPackets;
    DrainKeepsArrivals(s.stream, s.subQueue, Drainable(s.subQueue, finished), p);
  }

  lemma DrainStays(s: Session, finished: nat)
    requires forall i :: 0 <= i < |s.subQueue| ==> s.subQueue[i].stay <= Stay(s.stream, s.subQueue[i].pos)
    ensures var r := DrainSubRegions(s, finished);
            forall i :: 0 <= i < |r.subQueue| ==> r.subQueue[i].stay <= Stay(r.stream, r.subQueue[i].pos)
  {
    var r, n := DrainSubRegions(s, finished), Drainable(s.subQueue, finished);
    assert r.subQueue == s.subQueue[n..];
    hide *;
    forall i | 0 <= i < |r.subQueue| ensures r.subQueue[i].stay <= Stay(r.stream, r.subQueue[i].pos) {
      assert r.subQueue[i] == s.subQueue[n + i];
      DrainArrivals(s, finished, r.subQueue[i].pos);
    }
  }

  lemma DrainKeepsLedger(s: Session, finished: nat)
    requires NothingLost(s)
    ensures NothingLost(DrainSubRegions(s, finished))
  {
    var r := DrainSubRegions(s, finished);
    assert r.told == s.told && r.sent == s.sent && r.flushed == s.flushed && r.pending == s.pending;
    hide *;
    DrainStays(s, finished);
    forall p ensures Account(r, p) == Account(s, p) {
      DrainArrivals(s, finished, p);
      AccountsAre(s, p);
      AccountsAre(r, p);
    }
    LedgerSame(s, r);
  }

  lemma DrainKeepsInv(s: Session, finished: nat)
    requires Inv(s)
    ensures Inv(DrainSubRegions(s, finished))
  {
    hide NothingLost, ClientAfter, SafeStream, SubPackets, Drainable;
    SubPacketsNeutral(s.stream, s.subQueue[..Drainable(s.subQueue, finished)]);
    DrainKeepsLedger(s, finished);
  }

  lemma QueueIsNoAccount(s: Session, queue: seq<Pos>)
    ensures NothingLost(s) ==> NothingLost(s.(queue := queue))
    ensures ClientAgrees(s) ==> ClientAgrees(s.(queue := queue))
  {
    assert forall p :: Account(s.(queue := queue), p) == Account(s, p);
    hide Account, Stay, ClientAfter, SafeStream;
  }

  // The queue is left with the jobs that are not ready.
  lemma FlushedQueueKeepsInv(s: Session, ready: set<Pos>, live: set<Pos>)
    requires Inv(s) && s.registered
    ensures Inv(FlushChunks(s, s.queue, ready, live).(queue := NotReady(s.queue, ready)))
  {
    var u, kept := FlushChunks(s, s.queue, ready, live), NotReady(s.queue, ready);
    assert s.queue[..|s.queue|] == s.queue && s.queue[|s.queue|..] == [];
    InvStartsFlush(s);
    assert Inv(s) ==> !s.Active() ==> s.sent == {};
    hide *;
    FlushChunksFrame(s, s.queue, ready, live);
    FlushChunksKeepsInv(s, s.queue, |s.queue|, ready, live);
    FlushEndsInInv(u, kept);
  }

  lemma InvStartsFlush(s: Session)
    requires Inv(s)
    ensures FlushInv(s, s.queue, []) && (!s.Active() ==> s.sent == {})
  {
    hide ClientAgrees, NothingLost;
  }

  lemma FlushEndsInInv(s: Session, kept: seq<Pos>)
    requires FlushInv(s, [], kept) && s.registered && (!s.Active() ==> s.sent == {})
    ensures Inv(s.(queue := kept))
  {
    QueueIsNoAccount(s, kept);
    hide ClientAgrees, NothingLost;
  }

  lemma FlushKeepsInv(s: Session, ready: set<Pos>, live: set<Pos>, finished: nat)
    requires Inv(s)
    ensures Inv(Flush(s, ready, live, finished))
  {
    hide Inv, FlushChunks, DrainSubRegions, NotReady;
    if s.registered {
      FlushedQueueKeepsInv(s, ready, live);
      DrainKeepsInv(FlushChunks(s, s.queue, ready, live).(queue := NotReady(s.queue, ready)), finished);
    }
  }

  // History: this batch was broadcast for a chunk that the session was sent.
  function Tell(s: Session, p: Pos, batch: LocalChanges): Session
  {
    s.(told := s.told[p := (if p in s.told then s.told[p] else []) + batch])
  }

  lemma DeferKeepsInv(s: Session, p: Pos, batch: LocalChanges)
    requires Inv(s) && p in s.sent && p !in s.flushed
    ensures Inv(Tell(Defer(s, p, batch), p, batch))
  {
    var r := Tell(Defer(s, p, batch), p, batch);
    DeferKeepsSides(s, p, batch);
    assert At(r.pending, p) == At(s.pending, p) + batch;
    assert forall q :: q != p ==> At(r.pending, q) == At(s.pending, q);
    assert r == s.(pending := r.pending, told := s.told[p := s.told[p] + batch]);
    assert forall q :: Account(r, q) == Account(s, q);
    hide *;
    LedgerDeferred(s, p, batch, r);
    InvSides(s);
    InvSides(r);
  }

  lemma DeferKeepsSides(s: Session, p: Pos, batch: LocalChanges)
    requires Inv(s) && p in s.sent && p !in s.flushed
    ensures var r := Tell(Defer(s, p, batch), p, batch); SetsAgree(r) && ClientAgrees(r)
    ensures NothingLost(s) && p in s.told
  {
    hide ClientAfter, SafeStream;
  }

  // A ledger in which one more batch waits for p, which is on its way.
  lemma LedgerDeferred(s: Session, p: Pos, batch: LocalChanges, r: Session)
    requires NothingLost(s) && p in s.told && p !in s.flushed
    requires r == s.(pending := r.pending, told := s.told[p := s.told[p] + batch])
    requires forall q :: At(r.pending, q) == if q == p then At(s.pending, p) + batch else At(s.pending, q)
    requires forall q :: Account(r, q) == Account(s, q)
    ensures NothingLost(r)
  {
    hide Account, Stay, At;
  }

  // A large batch comes last; a small one comes before what still waits in jobs.
  lemma DeliverArrivals(s: Session, p: Pos, batch: LocalChanges, hasChunk: bool, q: Pos)
    ensures var r := Deliver(s, p, batch, hasChunk);
            && Stay(r.stream, q) == Stay(s.stream, q)
            && Arrivals(r, q) == if q != p then Arrivals(s, q)
                                 else if |batch| < 10 then Carried(s.stream, p) + batch + Queued(s, p)
                                 else Arrivals(s, p) + batch
  {
    if |batch| < 10 {
      CarriedAppend(s.stream, BlockPacket(p, batch), q);
      PacketWrites(p, batch, q);
    } else {
      SubmitSubRegionArrivals(s, p, batch, hasChunk, q);
    }
    hide Stay, Carried, Owed, SubmitSubRegion;
  }

  lemma DeliverAccounts(s: Session, p: Pos, batch: LocalChanges, hasChunk: bool, q: Pos)
    ensures var r := Deliver(s, p, batch, hasChunk);
            && Account(r, q) == Account(s, q) + (if q == p then multiset(batch) else multiset{})
            && Stay(r.stream, q) == Stay(s.stream, q)
  {
    DeliverArrivals(s, p, batch, hasChunk, q);
    hide Stay, Carried, Queued, Deliver;
  }

  // A ledger in which p, which the client holds, has got one more batch.
  lemma LedgerDelivered(s: Session, p: Pos, batch: LocalChanges, r: Session)
    requires NothingLost(s) && p in s.flushed && p in s.sent
    requires r.told == s.told[p := s.told[p] + batch] && r.sent == s.sent
             && r.flushed == s.flushed && r.pending == s.pending
    requires forall q :: Account(r, q) == Account(s, q) + if q == p then multiset(batch) else multiset{}
    requires forall i :: 0 <= i < |r.subQueue| ==> r.subQueue[i].stay <= Stay(r.stream, r.subQueue[i].pos)
    ensures NothingLost(r)
  {
    hide Account, Stay, At;
    assert r.told.Keys == r.sent;
    assert multiset(r.told[p]) == multiset(s.told[p]) + multiset(batch);
  }

  lemma DeliverKeepsInv(s: Session, p: Pos, batch: LocalChanges, hasChunk: bool)
    requires Inv(s) && p in s.flushed
    ensures Inv(Tell(Deliver(s, p, batch, hasChunk), p, batch))
  {
    assert p in s.sent;
    hide *;
    DeliverKeepsSides(s, p, batch, hasChunk);
    DeliverKeepsLedger(s, p, batch, hasChunk);
    InvSides(s);
    InvSides(Tell(Deliver(s, p, batch, hasChunk), p, batch));
  }

  lemma InvSides(s: Session)
    ensures Inv(s) <==> SetsAgree(s) && ClientAgrees(s) && NothingLost(s)
  {
  }

  lemma DeliverKeepsSides(s: Session, p: Pos, batch: LocalChanges, hasChunk: bool)
    requires Inv(s) && p in s.flushed
    ensures var r := Tell(Deliver(s, p, batch, hasChunk), p, batch); SetsAgree(r) && ClientAgrees(r)
  {
    InvSides(s);
    var d := Deliver(s, p, batch, hasChunk);
    var r := Tell(d, p, batch);
    assert r == s.(stream := d.stream, subQueue := d.subQueue, told := r.told);
    assert d.stream == s.stream || d.stream == s.stream + [BlockPacket(p, batch)];
    hide Inv, Deliver, Tell, ClientAgrees, SetsAgree;
    WriteKeepsClient(s, p, batch, r);
    SetsAgreeOnly(s, d.stream, d.subQueue, r.told);
  }

  lemma SetsAgreeOnly(s: Session, stream: seq<Packet>, subQueue: seq<SubJob>, told: map<Pos, LocalChanges>)
    requires SetsAgree(s)
    ensures SetsAgree(s.(stream := stream, subQueue := subQueue, told := told))
  {
  }

  // Block changes may be written to a chunk held.
  lemma WriteKeepsClient(s: Session, p: Pos, batch: LocalChanges, r: Session)
    requires ClientAgrees(s) && p in s.flushed && r.flushed == s.flushed
    requires r.stream == s.stream || r.stream == s.stream + [BlockPacket(p, batch)]
    requires r.conn == s.conn && r.dim == s.dim
    ensures ClientAgrees(r)
  {
    hide ClientAfter, SafeStream;
    ClientAppend(s.stream, BlockPacket(p, batch));
    if |batch| == 1 { BlockIsIn(p, batch[0]); }
  }

  lemma DeliverFrame(s: Session, p: Pos, batch: LocalChanges, hasChunk: bool)
    requires NothingLost(s) && p in s.sent
    ensures var d := Deliver(s, p, batch, hasChunk); var r := Tell(d, p, batch);
            && p in s.told && r.told == s.told[p := s.told[p] + batch]
            && r.stream == d.stream && r.subQueue == d.subQueue
            && r.sent == s.sent && r.flushed == s.flushed && r.pending == s.pending
  {
    assert s.told.Keys == s.sent;
    hide NothingLost, Stay;
  }

  lemma DeliverKeepsLedger(s: Session, p: Pos, batch: LocalChanges, hasChunk: bool)
    requires NothingLost(s) && p in s.flushed && p in s.sent
    ensures NothingLost(Tell(Deliver(s, p, batch, hasChunk), p, batch))
  {
    hide *;
    var d := Deliver(s, p, batch, hasChunk);
    var r := Tell(d, p, batch);
    DeliverFrame(s, p, batch, hasChunk);
    DeliverStays(s, p, batch, hasChunk);
    forall q ensures Account(r, q) == Account(s, q) + if q == p then multiset(batch) else multiset{} {
      DeliverAccounts(s, p, batch, hasChunk, q);
      TellIsNoAccount(d, p, batch, q);
    }
    LedgerDelivered(s, p, batch, r);
  }

  lemma TellIsNoAccount(s: Session, p: Pos, batch: LocalChanges, q: Pos)
    ensures Account(Tell(s, p, batch), q) == Account(s, q)
  {
  }

  lemma DeliverStays(s: Session, p: Pos, batch: LocalChanges, hasChunk: bool)
    requires NothingLost(s)
    ensures var r := Deliver(s, p, batch, hasChunk);
            forall i :: 0 <= i < |r.subQueue| ==> r.subQueue[i].stay <= Stay(r.stream, r.subQueue[i].pos)
  {
    var r := Deliver(s, p, batch, hasChunk);
    forall q ensures Stay(r.stream, q) == Stay(s.stream, q) {
      DeliverAccounts(s, p, batch, hasChunk, q);
    }
    hide Stay;
  }

  // A dimension change leaves no trace of the old dimension's chunks: nothing sent, queued, deferred or
  // listed, and the client holds none.
  lemma ChangeDimensionKeepsInv(s: Session, dim: int)
    requires Inv(s)
    ensures var r := ChangeDimension(s, dim);
            && Inv(r) && r.dim == dim && r.conn.WaitingForSpawnChunks?
            && r.sent == {} && r.queue == [] && r.subQueue == [] && r.pending == map[]
            && r.newlyFlushed == [] && r.newlyUnloaded == [] && ClientChunks(r.stream) == {}
  {
    ClientAppend(s.stream, Respawn(dim));
  }

  // ----- the two change lists that the server drains into its index -----

  // Between two drains the flushed set is the old one without what was unloaded and with what was
  // flushed, and no chunk is in both lists.
  ghost predicate ListsExplain(before: set<Pos>, s: Session)
  {
    && Elements(s.newlyFlushed) !! Elements(s.newlyUnloaded)
    && s.flushed == (before - Elements(s.newlyUnloaded)) + Elements(s.newlyFlushed)
  }

  lemma VisitExplainsLists(s: Session, c: Pos, radius: int, batch: int, generated: set<Pos>, order: seq<Pos>,
                           dropped: seq<Pos>, ready: set<Pos>, live: set<Pos>, finished: nat)
    requires Inv(s) && s.Active() && s.newlyFlushed == [] && s.newlyUnloaded == []
    requires Schedule(s, c, radius, generated, order, dropped)
    ensures var r := Flush(Enqueue(s, c, radius, batch, order, dropped), ready, live, finished);
            && ListsExplain(s.flushed, r) && r.newlyUnloaded == dropped && r.dim == s.dim && r.conn == s.conn
  {
    var t := Enqueue(s, c, radius, batch, order, dropped);
    EnqueueLists(s, c, radius, batch, generated, order, dropped);
    FlushChunksFrame(t, t.queue, ready, live);
    hide Inv, Enqueue, FlushChunks, NotReady, Schedule, SubPackets, Drainable;
  }

  // Of an enqueue: what is queued is in view, what is dropped is not, and only the unload list grows.
  lemma EnqueueLists(s: Session, c: Pos, radius: int, batch: int,
      generated: set<Pos>, order: seq<Pos>, dropped: seq<Pos>)
    requires s.newlyFlushed == [] && s.newlyUnloaded == [] && Schedule(s, c, radius, generated, order, dropped)
    ensures var t := Enqueue(s, c, radius, batch, order, dropped);
            && t.registered && Elements(t.queue) !! Elements(dropped)
            && t.newlyUnloaded == dropped && t.newlyFlushed == []
            && t.flushed == s.flushed - Elements(dropped) && t.dim == s.dim && t.conn == s.conn
  {
    var t := Enqueue(s, c, radius, batch, order, dropped);
    var n := Room(|Unload(s, c, radius, dropped).queue|, batch, |order|);
    assert forall p :: p in order[..n] ==> p in order;
    assert forall p :: p in t.queue ==> InRange(p, c, radius);
    assert [] + dropped == dropped;
  }
}
