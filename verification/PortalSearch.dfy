// The Teleporter's search for the nearest portal: a scan clipped to chunks, with tie-breaks, against a
// plain scan of the whole square. Distances are over reals.
module PortalSearch {
  import opened Sequences

  const CHUNK_WIDTH := 16
  const CHUNK_HEIGHT := 128
  const AIR := 0
  const OBSIDIAN := 49
  const NETHER_PORTAL := 90
  const EXISTING_PORTAL_SEARCH_RADIUS := 128

  datatype Int2 = Int2(x: int, z: int)

  datatype Int3 = Int3(x: int, y: int, z: int)

  datatype Vec3 = Vec3(x: real, y: real, z: real)

  // One chunk's blocks by local position; what is not listed is air.
  type Chunk = map<Int3, int>

  // The generated chunks and the ids of solid materials.
  datatype World = World(chunks: map<Int2, Chunk>, solid: set<int>)

  function ChunkOf(p: Int3): Int2 { Int2(p.x / CHUNK_WIDTH, p.z / CHUNK_WIDTH) }

  function Local(p: Int3): Int3 { Int3(p.x % CHUNK_WIDTH, p.y, p.z % CHUNK_WIDTH) }

  predicate InBounds(y: int) { 0 <= y < CHUNK_HEIGHT }

  function ChunkBlock(c: Chunk, local: Int3): int
  {
    if InBounds(local.y) && local in c then c[local] else AIR
  }

  function GetBlockId(w: World, p: Int3): int
  {
    if ChunkOf(p) in w.chunks then ChunkBlock(w.chunks[ChunkOf(p)], Local(p)) else AIR
  }

  predicate HasBlock(c: Chunk, id: int) { id in c.Values }

  predicate IsPortal(w: World, p: Int3) { GetBlockId(w, p) == NETHER_PORTAL }

  // The lowest block of a vertical run of portal blocks.
  predicate Bottom(w: World, p: Int3)
  {
    IsPortal(w, p) && !IsPortal(w, Int3(p.x, p.y - 1, p.z))
  }

  // To the middle of the block.
  function DistSq(pos: Vec3, p: Int3): (d: real)
    ensures d >= 0.0
    ensures d == (p.x as real + 0.5 - pos.x) * (p.x as real + 0.5 - pos.x)
                 + (p.y as real + 0.5 - pos.y) * (p.y as real + 0.5 - pos.y)
                 + (p.z as real + 0.5 - pos.z) * (p.z as real + 0.5 - pos.z)
  {
    var dx, dy, dz := p.x as real + 0.5 - pos.x, p.y as real + 0.5 - pos.y, p.z as real + 0.5 - pos.z;
    Square(dx) + Square(dy) + Square(dz)
  }

  function Square(r: real): (s: real)
    ensures s >= 0.0
  {
    r * r
  }

  predicate Scanned(a: Int3, b: Int3)
  {
    a.x < b.x || (a.x == b.x && (a.z < b.z || (a.z == b.z && a.y > b.y)))
  }

  // Nearer, or as near and earlier in x, then z, then from the top down.
  predicate Before(pos: Vec3, a: Int3, b: Int3)
  {
    DistSq(pos, a) < DistSq(pos, b) || (DistSq(pos, a) == DistSq(pos, b) && Scanned(a, b))
  }

  // `best` is the first of `c` in that order; a negative distance means that there is none.
  ghost predicate IsBest(pos: Vec3, closest: real, best: Int3, c: iset<Int3>)
  {
    if closest < 0.0 then c == iset{}
    else best in c && closest == DistSq(pos, best) && forall q :: q in c ==> q == best || Before(pos, best, q)
  }

  lemma BestIsUnique(pos: Vec3, closest: real, best: Int3, closest': real, best': Int3, c: iset<Int3>)
    requires IsBest(pos, closest, best, c) && IsBest(pos, closest', best', c)
    ensures (closest < 0.0) == (closest' < 0.0)
    ensures closest >= 0.0 ==> best == best'
  {
  }

  // ----- the chunk-clipped scan -----

  ghost function Column(w: World, x: int, z: int): iset<Int3>
  {
    iset p: Int3 | p.x == x && p.z == z && Bottom(w, p)
  }

  ghost function ColumnFrom(w: World, x: int, z: int, y: int): iset<Int3>
  {
    iset p: Int3 | p.x == x && p.z == z && p.y >= y && Bottom(w, p)
  }

  ghost function Columns(w: World, x0: int, x1: int, z0: int, z1: int): iset<Int3>
  {
    iset p: Int3 | x0 <= p.x < x1 && z0 <= p.z < z1 && Bottom(w, p)
  }

  predicate Better(pos: Vec3, closest: real, best: Int3, p: Int3)
  {
    var d := DistSq(pos, p);
    closest < 0.0 || d < closest
    || (d == closest && (p.x < best.x || (p.x == best.x && (p.z < best.z || (p.z == best.z && p.y > best.y)))))
  }

  lemma BetterSpec(pos: Vec3, closest: real, best: Int3, c: iset<Int3>, p: Int3)
    requires IsBest(pos, closest, best, c)
    ensures if Better(pos, closest, best, p) then IsBest(pos, DistSq(pos, p), p, c + iset{p})
            else IsBest(pos, closest, best, c + iset{p})
  {
    hide DistSq;
  }

  // Drop to the lowest block of the run of portal blocks at y0.
  method BottomOfRun(w: World, x: int, z: int, chunk: Chunk, y0: int) returns (y: int)
    requires ChunkOf(Int3(x, 0, z)) in w.chunks && chunk == w.chunks[ChunkOf(Int3(x, 0, z))]
    requires InBounds(y0) && IsPortal(w, Int3(x, y0, z))
    ensures 0 <= y <= y0 && Bottom(w, Int3(x, y, z))
    ensures forall k :: y < k <= y0 ==> !Bottom(w, Int3(x, k, z))
  {
    y := y0;
    hide IsPortal, Bottom, ChunkBlock, ChunkOf;
    while y > 0 && ChunkBlock(chunk, Int3(x % CHUNK_WIDTH, y - 1, z % CHUNK_WIDTH)) == NETHER_PORTAL
      invariant 0 <= y <= y0 && IsPortal(w, Int3(x, y, z))
      invariant forall k :: y < k <= y0 ==> !Bottom(w, Int3(x, k, z))
    {
      PortalAt(w, x, z, chunk, y - 1);
      BottomMeans(w, x, z, y);
      y := y - 1;
    }
    PortalAt(w, x, z, chunk, y - 1);
    BottomMeans(w, x, z, y);
    BottomMeans(w, x, z, y - 1);
  }

  method ScanColumn(w: World, pos: Vec3, x: int, z: int, chunk: Chunk, closest0: real, best0: Int3, ghost c: iset<Int3>)
    returns (closest: real, best: Int3)
    requires ChunkOf(Int3(x, 0, z)) in w.chunks && chunk == w.chunks[ChunkOf(Int3(x, 0, z))]
    requires IsBest(pos, closest0, best0, c)
    ensures IsBest(pos, closest, best, c + Column(w, x, z))
  {
    closest, best := closest0, best0;
    var y := CHUNK_HEIGHT - 1;
    NoBottomsAbove(w, x, z, c);
    hide IsBest, Better, DistSq, ColumnFrom, Bottom, IsPortal, ChunkBlock;
    while y >= 0
      invariant -1 <= y < CHUNK_HEIGHT
      invariant IsBest(pos, closest, best, c + ColumnFrom(w, x, z, y + 1))
    {
      ghost var seen := c + ColumnFrom(w, x, z, y + 1);
      PortalAt(w, x, z, chunk, y);
      if ChunkBlock(chunk, Int3(x % CHUNK_WIDTH, y, z % CHUNK_WIDTH)) != NETHER_PORTAL {
        NoBottomHere(w, x, z, y);
        y := y - 1;
        continue;
      }
      ghost var top := y;
      y := BottomOfRun(w, x, z, chunk, y);
      var p := Int3(x, y, z);
      BetterSpec(pos, closest, best, seen, p);
      BottomHere(w, x, z, top, y, c);
      if Better(pos, closest, best, p) {
        closest, best := DistSq(pos, p), p;
      }
      y := y - 1;
    }
    WholeColumn(w, x, z);
  }

  lemma NoBottomsAbove(w: World, x: int, z: int, c: iset<Int3>)
    ensures c + ColumnFrom(w, x, z, CHUNK_HEIGHT) == c
  {
  }

  lemma WholeColumn(w: World, x: int, z: int)
    ensures ColumnFrom(w, x, z, 0) == Column(w, x, z)
  {
  }

  lemma NoBottomHere(w: World, x: int, z: int, y: int)
    requires !IsPortal(w, Int3(x, y, z))
    ensures ColumnFrom(w, x, z, y) == ColumnFrom(w, x, z, y + 1)
  {
    hide IsPortal;
  }

  lemma BottomHere(w: World, x: int, z: int, top: int, y: int, c: iset<Int3>)
    requires y <= top && Bottom(w, Int3(x, y, z)) && forall k :: y < k <= top ==> !Bottom(w, Int3(x, k, z))
    ensures c + ColumnFrom(w, x, z, top + 1) + iset{Int3(x, y, z)} == c + ColumnFrom(w, x, z, y)
  {
    hide Bottom;
    forall p | p in ColumnFrom(w, x, z, y) ensures p in ColumnFrom(w, x, z, top + 1) || p == Int3(x, y, z) {
      assert p == Int3(x, p.y, z);
    }
  }

  lemma PortalAt(w: World, x: int, z: int, chunk: Chunk, y: int)
    requires ChunkOf(Int3(x, 0, z)) in w.chunks && chunk == w.chunks[ChunkOf(Int3(x, 0, z))]
    ensures IsPortal(w, Int3(x, y, z))
            <==> ChunkBlock(chunk, Int3(x % CHUNK_WIDTH, y, z % CHUNK_WIDTH)) == NETHER_PORTAL
  {
  }

  lemma BottomMeans(w: World, x: int, z: int, y: int)
    ensures Bottom(w, Int3(x, y, z)) <==> IsPortal(w, Int3(x, y, z)) && !IsPortal(w, Int3(x, y - 1, z))
    ensures y < 0 ==> !IsPortal(w, Int3(x, y, z))
  {
  }

  function Max(a: int, b: int): int { if a < b then b else a }

  function Min(a: int, b: int): int { if a < b then a else b }

  function FloorOf(r: real): int { r.Floor }

  // Columns of chunk (cx, cz) inside the search square.
  method ScanChunk(w: World, pos: Vec3, cx: int, cz: int, sq: Square2, closest0: real, best0: Int3, ghost c: iset<Int3>)
    returns (closest: real, best: Int3)
    requires IsBest(pos, closest0, best0, c)
    ensures IsBest(pos, closest, best, c + InChunk(w, cx, cz, sq))
  {
    closest, best := closest0, best0;
    if Int2(cx, cz) !in w.chunks || !HasBlock(w.chunks[Int2(cx, cz)], NETHER_PORTAL) {
      assert c + InChunk(w, cx, cz, sq) == c;
      return;
    }
    var chunk := w.chunks[Int2(cx, cz)];
    var x0, x1 := Max(sq.minX, cx * CHUNK_WIDTH), Min(sq.maxX, cx * CHUNK_WIDTH + (CHUNK_WIDTH - 1));
    var z0, z1 := Max(sq.minZ, cz * CHUNK_WIDTH), Min(sq.maxZ, cz * CHUNK_WIDTH + (CHUNK_WIDTH - 1));
    ClippedInChunk(cx, cz, sq);
    ClipIsChunk(w, cx, cz, sq);
    closest, best := ScanRows(w, pos, x0, x1, z0, z1, chunk, closest, best, c);
  }

  // The clipped square lies in its chunk.
  lemma ClippedInChunk(cx: int, cz: int, sq: Square2)
    ensures forall x, z :: Max(sq.minX, cx * CHUNK_WIDTH) <= x <= Min(sq.maxX, cx * CHUNK_WIDTH + (CHUNK_WIDTH - 1))
                           && Max(sq.minZ, cz * CHUNK_WIDTH) <= z
                           && z <= Min(sq.maxZ, cz * CHUNK_WIDTH + (CHUNK_WIDTH - 1)) ==>
                           ChunkOf(Int3(x, 0, z)) == Int2(cx, cz)
  {
  }

  method ScanRows(w: World, pos: Vec3, x0: int, x1: int, z0: int, z1: int, chunk: Chunk, closest0: real, best0: Int3,
                  ghost c: iset<Int3>)
    returns (closest: real, best: Int3)
    requires IsBest(pos, closest0, best0, c)
    requires forall x, z :: x0 <= x <= x1 && z0 <= z <= z1 ==>
               ChunkOf(Int3(x, 0, z)) in w.chunks && chunk == w.chunks[ChunkOf(Int3(x, 0, z))]
    ensures IsBest(pos, closest, best, c + Columns(w, x0, x1 + 1, z0, z1 + 1))
  {
    closest, best := closest0, best0;
    var x := x0;
    NoColumns(w, x0, x0, z0, z1 + 1, c);
    NoColumns(w, x0, x1 + 1, z0, z1 + 1, c);
    hide *;
    while x <= x1
      invariant x0 <= x && (x <= x1 + 1 || x == x0)
      invariant IsBest(pos, closest, best, c + Columns(w, x0, x, z0, z1 + 1))
    {
      ghost var seen := c + Columns(w, x0, x, z0, z1 + 1);
      closest, best := ScanRow(w, pos, x, z0, z1, chunk, closest, best, seen);
      MoreColumns(w, x0, x, z0, z1 + 1, c);
      x := x + 1;
    }
  }

  lemma NoColumns(w: World, x0: int, x1: int, z0: int, z1: int, c: iset<Int3>)
    ensures x1 <= x0 ==> Columns(w, x0, x1, z0, z1) == iset{} && c + Columns(w, x0, x1, z0, z1) == c
  {
  }

  lemma MoreColumns(w: World, x0: int, x: int, z0: int, z1: int, c: iset<Int3>)
    requires x0 <= x
    ensures c + Columns(w, x0, x, z0, z1) + Columns(w, x, x + 1, z0, z1) == c + Columns(w, x0, x + 1, z0, z1)
  {
    hide Bottom;
  }

  lemma ClipIsChunk(w: World, cx: int, cz: int, sq: Square2)
    ensures Columns(w, Max(sq.minX, cx * CHUNK_WIDTH), Min(sq.maxX, cx * CHUNK_WIDTH + (CHUNK_WIDTH - 1)) + 1,
                    Max(sq.minZ, cz * CHUNK_WIDTH), Min(sq.maxZ, cz * CHUNK_WIDTH + (CHUNK_WIDTH - 1)) + 1)
            == InChunk(w, cx, cz, sq)
  {
    hide Bottom;
  }

  // Blocks x, z0 to x, z1 of one chunk.
  method ScanRow(w: World, pos: Vec3, x: int, z0: int, z1: int,
      chunk: Chunk, closest0: real, best0: Int3, ghost c: iset<Int3>)
    returns (closest: real, best: Int3)
    requires IsBest(pos, closest0, best0, c)
    requires forall z :: z0 <= z <= z1 ==>
             ChunkOf(Int3(x, 0, z)) in w.chunks && chunk == w.chunks[ChunkOf(Int3(x, 0, z))]
    ensures IsBest(pos, closest, best, c + Columns(w, x, x + 1, z0, z1 + 1))
  {
    closest, best := closest0, best0;
    var z := z0;
    hide IsBest, Bottom;
    assert c + Columns(w, x, x + 1, z0, z) == c;
    while z <= z1
      invariant z0 <= z <= Max(z0, z1 + 1)
      invariant IsBest(pos, closest, best, c + Columns(w, x, x + 1, z0, z))
    {
      closest, best := ScanColumn(w, pos, x, z, chunk, closest, best, c + Columns(w, x, x + 1, z0, z));
      assert c + Columns(w, x, x + 1, z0, z) + Column(w, x, z) == c + Columns(w, x, x + 1, z0, z + 1);
      z := z + 1;
    }
    assert c + Columns(w, x, x + 1, z0, z) == c + Columns(w, x, x + 1, z0, z1 + 1);
  }

  // The square that is searched.
  datatype Square2 = Square2(minX: int, maxX: int, minZ: int, maxZ: int) {
    predicate Has(p: Int3) { minX <= p.x <= maxX && minZ <= p.z <= maxZ }
  }

  function SquareAround(pos: Vec3): Square2
  {
    var ex, ez := FloorOf(pos.x), FloorOf(pos.z);
    Square2(ex - EXISTING_PORTAL_SEARCH_RADIUS, ex + EXISTING_PORTAL_SEARCH_RADIUS,
            ez - EXISTING_PORTAL_SEARCH_RADIUS, ez + EXISTING_PORTAL_SEARCH_RADIUS)
  }

  ghost function InChunk(w: World, cx: int, cz: int, sq: Square2): iset<Int3>
  {
    iset p: Int3 | sq.Has(p) && ChunkOf(p) == Int2(cx, cz) && Bottom(w, p)
  }

  ghost function InChunks(w: World, cx0: int, cx1: int, cz0: int, cz1: int, sq: Square2): iset<Int3>
  {
    iset p: Int3 | sq.Has(p) && cx0 <= ChunkOf(p).x < cx1 && cz0 <= ChunkOf(p).z < cz1 && Bottom(w, p)
  }

  ghost function Candidates(w: World, sq: Square2): iset<Int3> { iset p: Int3 | sq.Has(p) && Bottom(w, p) }

  // The search of PlaceInExistingPortal.
  method FindExisting(w: World, pos: Vec3) returns (closest: real, best: Int3)
    ensures IsBest(pos, closest, best, Candidates(w, SquareAround(pos)))
    ensures FlatScan(w, pos) == if closest < 0.0 then None else Some(best)
  {
    var sq := SquareAround(pos);
    closest, best := -1.0, Int3(0, 0, 0);
    var cx0, cx1 := sq.minX / CHUNK_WIDTH, sq.maxX / CHUNK_WIDTH;
    var cz0, cz1 := sq.minZ / CHUNK_WIDTH, sq.maxZ / CHUNK_WIDTH;
    NoChunks(w, cx0, cz0, cz1 + 1, sq);
    var cx := cx0;
    hide IsBest, InChunks, SquareAround, Candidates, FlatScan;
    while cx <= cx1
      invariant cx0 <= cx <= cx1 + 1
      invariant IsBest(pos, closest, best, InChunks(w, cx0, cx, cz0, cz1 + 1, sq))
    {
      closest, best := ScanChunkColumn(w, pos, cx, cz0, cz1, sq, closest, best, InChunks(w, cx0, cx, cz0, cz1 + 1, sq));
      MoreChunkColumns(w, cx0, cx, cz0, cz1 + 1, sq);
      cx := cx + 1;
    }
    ChunksCoverSquare(w, sq);
    FlatScanAgrees(w, pos, closest, best);
  }

  method ScanChunkColumn(w: World, pos: Vec3, cx: int, cz0: int, cz1: int, sq: Square2, closest0: real, best0: Int3,
                         ghost seen: iset<Int3>)
    returns (closest: real, best: Int3)
    requires IsBest(pos, closest0, best0, seen) && cz0 <= cz1 + 1
    ensures IsBest(pos, closest, best, seen + InChunks(w, cx, cx + 1, cz0, cz1 + 1, sq))
  {
    closest, best := closest0, best0;
    NoChunkRows(w, cx, cz0, sq, seen);
    hide IsBest, InChunks;
    var cz := cz0;
    while cz <= cz1
      invariant cz0 <= cz <= cz1 + 1
      invariant IsBest(pos, closest, best, seen + InChunks(w, cx, cx + 1, cz0, cz, sq))
    {
      closest, best := ScanChunk(w, pos, cx, cz, sq, closest, best, seen + InChunks(w, cx, cx + 1, cz0, cz, sq));
      MoreChunkRows(w, cx, cz0, cz, sq, seen);
      cz := cz + 1;
    }
  }

  lemma NoChunks(w: World, cx: int, cz0: int, cz1: int, sq: Square2)
    ensures InChunks(w, cx, cx, cz0, cz1, sq) == iset{}
  {
  }

  lemma NoChunkRows(w: World, cx: int, cz: int, sq: Square2, seen: iset<Int3>)
    ensures seen + InChunks(w, cx, cx + 1, cz, cz, sq) == seen
  {
  }

  lemma MoreChunkRows(w: World, cx: int, cz0: int, cz: int, sq: Square2, seen: iset<Int3>)
    requires cz0 <= cz
    ensures seen + InChunks(w, cx, cx + 1, cz0, cz, sq)
            + InChunk(w, cx, cz, sq) == seen + InChunks(w, cx, cx + 1, cz0, cz + 1, sq)
  {
    hide Bottom;
  }

  lemma MoreChunkColumns(w: World, cx0: int, cx: int, cz0: int, cz1: int, sq: Square2)
    requires cx0 <= cx
    ensures InChunks(w, cx0, cx, cz0, cz1, sq)
            + InChunks(w, cx, cx + 1, cz0, cz1, sq) == InChunks(w, cx0, cx + 1, cz0, cz1, sq)
  {
    hide Bottom;
  }

  // The clipped chunks make up the square.
  lemma ChunksCoverSquare(w: World, sq: Square2)
    ensures InChunks(w, sq.minX / CHUNK_WIDTH, sq.maxX / CHUNK_WIDTH + 1,
            sq.minZ / CHUNK_WIDTH, sq.maxZ / CHUNK_WIDTH + 1, sq)
            == Candidates(w, sq)
  {
  }

  // ----- the plain scan -----

  // The strict comparison of a scan in order keeps the best.
  lemma StrictSpec(pos: Vec3, closest: real, best: Int3, c: iset<Int3>, p: Int3)
    requires IsBest(pos, closest, best, c) && forall q :: q in c ==> Scanned(q, p)
    ensures if closest < 0.0 || DistSq(pos, p) < closest then IsBest(pos, DistSq(pos, p), p, c + iset{p})
            else IsBest(pos, closest, best, c + iset{p})
  {
    hide DistSq;
  }

  // Strictly nearer than the best so far, over x and z upwards and y downwards.
  function FlatStep(w: World, pos: Vec3, p: Int3, best: Option<Int3>): Option<Int3>
  {
    if Bottom(w, p) && (best.None? || DistSq(pos, p) < DistSq(pos, best.value)) then Some(p) else best
  }

  function FlatColumn(w: World, pos: Vec3, x: int, z: int, y: int, best: Option<Int3>): Option<Int3>
    decreases y
  {
    if y < 0 then best else FlatColumn(w, pos, x, z, y - 1, FlatStep(w, pos, Int3(x, y, z), best))
  }

  function FlatRow(w: World, pos: Vec3, x: int, z: int, z1: int, best: Option<Int3>): Option<Int3>
    decreases z1 - z
  {
    if z > z1 then best else FlatRow(w, pos, x, z + 1, z1, FlatColumn(w, pos, x, z, CHUNK_HEIGHT - 1, best))
  }

  function FlatRows(w: World, pos: Vec3, x: int, sq: Square2, best: Option<Int3>): Option<Int3>
    decreases sq.maxX - x
  {
    if x > sq.maxX then best else FlatRows(w, pos, x + 1, sq, FlatRow(w, pos, x, sq.minZ, sq.maxZ, best))
  }

  function FlatScan(w: World, pos: Vec3): Option<Int3>
  {
    FlatRows(w, pos, SquareAround(pos).minX, SquareAround(pos), None)
  }

  ghost predicate IsFirst(pos: Vec3, best: Option<Int3>, c: iset<Int3>)
  {
    if best.None? then c == iset{} else IsBest(pos, DistSq(pos, best.value), best.value, c)
  }

  lemma FlatStepSpec(w: World, pos: Vec3, p: Int3, best: Option<Int3>, c: iset<Int3>)
    requires IsFirst(pos, best, c) && forall q :: q in c ==> Scanned(q, p)
    ensures IsFirst(pos, FlatStep(w, pos, p, best), if Bottom(w, p) then c + iset{p} else c)
  {
    hide DistSq, Bottom;
    StrictSpec(pos, if best.None? then -1.0 else DistSq(pos, best.value), if best.None? then p else best.value, c, p);
  }

  lemma {:induction false} FlatColumnSpec(w: World, pos: Vec3,
      x: int, z: int, y: int, best: Option<Int3>, c: iset<Int3>)
    requires y < CHUNK_HEIGHT && IsFirst(pos, best, c + ColumnFrom(w, x, z, y + 1))
    requires forall q :: q in c ==> q.x < x || (q.x == x && q.z < z)
    ensures IsFirst(pos, FlatColumn(w, pos, x, z, y, best), c + Column(w, x, z))
    decreases y
  {
    hide IsFirst, FlatStep;
    var seen := c + ColumnFrom(w, x, z, y + 1);
    if y < 0 {
      assert seen == c + Column(w, x, z);
    } else {
      hide Bottom;
      var p := Int3(x, y, z);
      FlatStepSpec(w, pos, p, best, seen);
      assert (if Bottom(w, p) then seen + iset{p} else seen) == c + ColumnFrom(w, x, z, y);
      FlatColumnSpec(w, pos, x, z, y - 1, FlatStep(w, pos, p, best), c);
    }
  }

  lemma {:induction false} FlatRowSpec(w: World, pos: Vec3, x: int,
      z0: int, z: int, z1: int, best: Option<Int3>, c: iset<Int3>)
    requires z0 <= z <= z1 + 1 && IsFirst(pos, best, c + Columns(w, x, x + 1, z0, z)) && forall q :: q in c ==> q.x < x
    ensures IsFirst(pos, FlatRow(w, pos, x, z, z1, best), c + Columns(w, x, x + 1, z0, z1 + 1))
    decreases z1 - z
  {
    hide IsFirst, Bottom;
    if z <= z1 {
      var seen := c + Columns(w, x, x + 1, z0, z);
      assert seen + ColumnFrom(w, x, z, CHUNK_HEIGHT) == seen by { NothingAbove(w, x, z); }
      FlatColumnSpec(w, pos, x, z, CHUNK_HEIGHT - 1, best, seen);
      assert seen + Column(w, x, z) == c + Columns(w, x, x + 1, z0, z + 1);
      FlatRowSpec(w, pos, x, z0, z + 1, z1, FlatColumn(w, pos, x, z, CHUNK_HEIGHT - 1, best), c);
    }
  }

  lemma NothingAbove(w: World, x: int, z: int)
    ensures ColumnFrom(w, x, z, CHUNK_HEIGHT) == iset{}
  {
  }

  lemma {:induction false} FlatRowsSpec(w: World, pos: Vec3, x: int, sq: Square2, best: Option<Int3>)
    requires sq.minX <= x <= sq.maxX + 1 && sq.minZ <= sq.maxZ + 1
    requires IsFirst(pos, best, Columns(w, sq.minX, x, sq.minZ, sq.maxZ + 1))
    ensures IsFirst(pos, FlatRows(w, pos, x, sq, best), Candidates(w, sq))
    decreases sq.maxX - x
  {
    hide IsFirst, Bottom;
    var seen := Columns(w, sq.minX, x, sq.minZ, sq.maxZ + 1);
    if x <= sq.maxX {
      assert seen + Columns(w, x, x + 1, sq.minZ, sq.minZ) == seen;
      FlatRowSpec(w, pos, x, sq.minZ, sq.minZ, sq.maxZ, best, seen);
      assert seen + Columns(w, x, x + 1, sq.minZ, sq.maxZ + 1) == Columns(w, sq.minX, x + 1, sq.minZ, sq.maxZ + 1);
      FlatRowsSpec(w, pos, x + 1, sq, FlatRow(w, pos, x, sq.minZ, sq.maxZ, best));
    } else {
      assert seen == Candidates(w, sq);
    }
  }

  // Whatever search keeps the best of the candidates finds what the plain scan finds.
  lemma FlatScanAgrees(w: World, pos: Vec3, closest: real, best: Int3)
    requires IsBest(pos, closest, best, Candidates(w, SquareAround(pos)))
    ensures FlatScan(w, pos) == if closest < 0.0 then None else Some(best)
  {
    var sq := SquareAround(pos);
    assert Columns(w, sq.minX, sq.minX, sq.minZ, sq.maxZ + 1) == iset{};
    FlatRowsSpec(w, pos, sq.minX, sq, None);
    var flat := FlatScan(w, pos);
    if flat.Some? {
      BestIsUnique(pos, closest, best, DistSq(pos, flat.value), flat.value, Candidates(w, sq));
    }
  }
}
