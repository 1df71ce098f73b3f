// The Teleporter's choice of a site for a new portal, what building it writes, and the promise that an
// entity ends up in a portal. Neighbour updates and queued writes to chunks that are not generated are
// not part of this model.
module PortalCreation {
  import opened Sequences
  import opened PortalSearch

  const NEW_PORTAL_SEARCH_RADIUS := 16

  datatype Facing = North | South | East | West

  function PortalFacings(i: int): Facing
  {
    if i == 0 then South else if i == 1 then East else if i == 2 then North else West
  }

  function ToLeft(f: Facing): Facing
  {
    match f case North => West case South => East case East => North case West => South
  }

  function WithOffset(p: Int3, f: Facing, n: int): Int3
  {
    match f
    case North => p.(z := p.z - n)
    case South => p.(z := p.z + n)
    case East => p.(x := p.x + n)
    case West => p.(x := p.x - n)
  }

  // Along the doorway, then to its left, then up.
  function PortalPoint(base: Int3, axis: Facing, across: int, h: int, depth: int): (p: Int3)
    ensures match axis
            case South => p == Int3(base.x + depth, base.y + h, base.z + across - 1)
            case East => p == Int3(base.x + across - 1, base.y + h, base.z - depth)
            case North => p == Int3(base.x - depth, base.y + h, base.z - across + 1)
            case West => p == Int3(base.x - across + 1, base.y + h, base.z + depth)
  {
    var p := WithOffset(WithOffset(base, axis, across - 1), ToLeft(axis), depth);
    p.(y := p.y + h)
  }

  // The coordinates that PortalPoint would need for p.
  function Across(base: Int3, axis: Facing, p: Int3): int
  {
    match axis
    case North => base.z - p.z + 1
    case South => p.z - base.z + 1
    case East => p.x - base.x + 1
    case West => base.x - p.x + 1
  }

  function Depth(base: Int3, axis: Facing, p: Int3): int
  {
    match axis
    case North => base.x - p.x
    case South => p.x - base.x
    case East => base.z - p.z
    case West => p.z - base.z
  }

  lemma PortalPointIsOneToOne(base: Int3, axis: Facing, across: int, h: int, depth: int, p: Int3)
    ensures PortalPoint(base, axis, across, h, depth) == p
      <==> Across(base, axis, p) == across && Depth(base, axis, p) == depth && p.y - base.y == h
  {
  }

  predicate IsAirBlock(w: World, p: Int3) { GetBlockId(w, p) == AIR }

  predicate IsSolid(w: World, p: Int3) { GetBlockId(w, p) in w.solid }

  // ----- the site -----

  predicate Fits(w: World, base: Int3, axis: Facing, across: int, h: int, depth: int)
  {
    var p := PortalPoint(base, axis, across, h, depth);
    if h < 0 then IsSolid(w, p) else IsAirBlock(w, p)
  }

  predicate Room(w: World, base: Int3, axis: Facing, depth: int)
  {
    forall d, a, h :: 0 <= d < depth && 0 <= a < 4 && -1 <= h < 4 ==> Fits(w, base, axis, a, h, d)
  }

  method HasRoomForPortal(w: World, base: Int3, axis: Facing, depth: nat) returns (room: bool)
    ensures room == Room(w, base, axis, depth)
  {
    hide Fits;
    var d: nat := 0;
    while d < depth
      invariant d <= depth && Room(w, base, axis, d)
    {
      var a := 0;
      while a < 4
        invariant 0 <= a <= 4 && forall b, h :: 0 <= b < a && -1 <= h < 4 ==> Fits(w, base, axis, b, h, d)
      {
        var h := -1;
        while h < 4
          invariant -1 <= h <= 4 && forall g :: -1 <= g < h ==> Fits(w, base, axis, a, g, d)
        {
          if !Fits(w, base, axis, a, h, d) {
            return false;
          }
          h := h + 1;
        }
        a := a + 1;
      }
      d := d + 1;
    }
    return true;
  }

  // The lowest air block of a pocket.
  predicate PocketFloor(w: World, p: Int3)
  {
    InBounds(p.y) && IsAirBlock(w, p) && !(p.y > 0 && IsAirBlock(w, Int3(p.x, p.y - 1, p.z)))
  }

  predicate Site(w: World, facing: Facing, depth: int, p: Int3) { PocketFloor(w, p) && Room(w, p, facing, depth) }

  ghost function Sites(w: World, facing: Facing, depth: int, x0: int, x1: int, z0: int, z1: int): iset<Int3>
  {
    iset p: Int3 | x0 <= p.x < x1 && z0 <= p.z < z1 && Site(w, facing, depth, p)
  }

  ghost function SitesFrom(w: World, facing: Facing, depth: int, x: int, z: int, y: int): iset<Int3>
  {
    iset p: Int3 | p.x == x && p.z == z && p.y >= y && Site(w, facing, depth, p)
  }

  method FloorOfPocket(w: World, x: int, z: int, y0: int) returns (y: int)
    requires InBounds(y0) && IsAirBlock(w, Int3(x, y0, z))
    ensures 0 <= y <= y0 && PocketFloor(w, Int3(x, y, z))
    ensures forall k :: y < k <= y0 ==> !PocketFloor(w, Int3(x, k, z))
  {
    hide IsAirBlock;
    y := y0;
    while y > 0 && IsAirBlock(w, Int3(x, y - 1, z))
      invariant 0 <= y <= y0 && IsAirBlock(w, Int3(x, y, z))
      invariant forall k :: y < k <= y0 ==> !PocketFloor(w, Int3(x, k, z))
    {
      y := y - 1;
    }
  }

  // Which facing is tried at turn f.
  function FacingAt(f: int, facingCount: int): (facing: Facing)
    ensures facingCount == 4 ==> facing == [South, East, North, West][f % 4]
    ensures facingCount != 4 ==> facing == if f % 2 == 0 then South else East
  {
    if facingCount == 4 then PortalFacings(f % 4) else PortalFacings(f % 2)
  }

  // The best site so far, and the way it faces.
  datatype Choice = Choice(closest: real, pos: Int3, facing: Facing)

  ghost predicate Chosen(origin: Vec3, t: Choice, first: Facing, before: Choice, c: iset<Int3>)
  {
    && IsBest(origin, t.closest, t.pos, c)
    && (if t.closest < 0.0 then t == before else t.facing == first)
  }

  // Because a blocked facing ends the turn and an equal distance never wins, only the first facing can
  // ever be chosen.
  method TryFacings(w: World, origin: Vec3, p: Int3, startFacing: nat, facingCount: nat, depth: nat, t0: Choice,
                    ghost before: Choice, ghost c: iset<Int3>) returns (t: Choice)
    requires facingCount > 0
    requires Chosen(origin, t0, FacingAt(startFacing, facingCount), before, c) && forall q :: q in c ==> Scanned(q, p)
    ensures var first := FacingAt(startFacing, facingCount);
            Chosen(origin, t, first, before, if Room(w, p, first, depth) then c + iset{p} else c)
  {
    t := t0;
    StrictSpec(origin, t.closest, t.pos, c, p);
    hide IsBest, DistSq, Room, FacingAt;
    var f := startFacing;
    while f < startFacing + facingCount
      invariant startFacing <= f <= startFacing + facingCount
      invariant f == startFacing ==> t == t0
      invariant f > startFacing ==>
        && Room(w, p, FacingAt(startFacing, facingCount), depth)
        && Chosen(origin, t, FacingAt(startFacing, facingCount), before, c + iset{p})
        && t.closest >= 0.0 && t.closest <= DistSq(origin, p)
    {
      var room := HasRoomForPortal(w, p, FacingAt(f, facingCount), depth);
      if !room {
        break;
      }
      var distSq := DistSq(origin, p);
      if t.closest < 0.0 || distSq < t.closest {
        t := Choice(distSq, p, FacingAt(f, facingCount));
      }
      f := f + 1;
    }
  }

  method SiteInPocket(w: World, origin: Vec3, x: int, z: int, y0: int,
      startFacing: nat, facingCount: nat, depth: nat, t0: Choice,
                      ghost before: Choice, ghost c: iset<Int3>) returns (t: Choice, y: int)
    requires facingCount > 0 && InBounds(y0) && IsAirBlock(w, Int3(x, y0, z))
    requires Chosen(origin, t0, FacingAt(startFacing, facingCount), before,
             c + SitesFrom(w, FacingAt(startFacing, facingCount), depth, x, z, y0 + 1))
    requires forall q :: q in c ==> q.x < x || (q.x == x && q.z < z)
    ensures 0 <= y <= y0
    ensures Chosen(origin, t, FacingAt(startFacing, facingCount), before,
            c + SitesFrom(w, FacingAt(startFacing, facingCount), depth, x, z, y))
  {
    hide Chosen, Room, FacingAt, IsAirBlock;
    ghost var first := FacingAt(startFacing, facingCount);
    ghost var seen := c + SitesFrom(w, first, depth, x, z, y0 + 1);
    y := FloorOfPocket(w, x, z, y0);
    var p := Int3(x, y, z);
    t := TryFacings(w, origin, p, startFacing, facingCount, depth, t0, before, seen);
    assert (if Room(w, p, first, depth) then seen + iset{p} else seen) == c + SitesFrom(w, first, depth, x, z, y);
  }

  method SiteInColumn(w: World, origin: Vec3, x: int, z: int,
      startFacing: nat, facingCount: nat, depth: nat, t0: Choice,
                      ghost before: Choice, ghost c: iset<Int3>) returns (t: Choice)
    requires facingCount > 0 && Chosen(origin, t0, FacingAt(startFacing, facingCount), before, c)
    requires forall q :: q in c ==> q.x < x || (q.x == x && q.z < z)
    ensures var first := FacingAt(startFacing, facingCount);
            Chosen(origin, t, first, before, c + Sites(w, first, depth, x, x + 1, z, z + 1))
  {
    ghost var first := FacingAt(startFacing, facingCount);
    t := t0;
    var y := CHUNK_HEIGHT - 1;
    assert c + SitesFrom(w, first, depth, x, z, y + 1) == c;
    hide Chosen, Room, FacingAt, IsAirBlock;
    while y >= 0
      invariant -1 <= y < CHUNK_HEIGHT
      invariant Chosen(origin, t, first, before, c + SitesFrom(w, first, depth, x, z, y + 1))
    {
      if !IsAirBlock(w, Int3(x, y, z)) {
        assert SitesFrom(w, first, depth, x, z, y) == SitesFrom(w, first, depth, x, z, y + 1);
      } else {
        t, y := SiteInPocket(w, origin, x, z, y, startFacing, facingCount, depth, t, before, c);
      }
      y := y - 1;
    }
    assert SitesFrom(w, first, depth, x, z, y + 1) == Sites(w, first, depth, x, x + 1, z, z + 1);
  }

  method SiteInRow(w: World, origin: Vec3, x: int, z0: int, z1: int,
      startFacing: nat, facingCount: nat, depth: nat, t0: Choice,
                   ghost before: Choice, ghost c: iset<Int3>) returns (t: Choice)
    requires facingCount > 0 && Chosen(origin, t0, FacingAt(startFacing, facingCount), before, c)
    requires z0 <= z1 && forall q :: q in c ==> q.x < x
    ensures var first := FacingAt(startFacing, facingCount);
            Chosen(origin, t, first, before, c + Sites(w, first, depth, x, x + 1, z0, z1 + 1))
  {
    ghost var first := FacingAt(startFacing, facingCount);
    t := t0;
    var z := z0;
    hide Chosen, Site, FacingAt;
    assert c + Sites(w, first, depth, x, x + 1, z0, z) == c;
    while z <= z1
      invariant z0 <= z <= z1 + 1
      invariant Chosen(origin, t, first, before, c + Sites(w, first, depth, x, x + 1, z0, z))
    {
      ghost var seen := c + Sites(w, first, depth, x, x + 1, z0, z);
      t := SiteInColumn(w, origin, x, z, startFacing, facingCount, depth, t, before, seen);
      assert seen + Sites(w, first, depth, x, x + 1, z, z + 1) == c + Sites(w, first, depth, x, x + 1, z0, z + 1);
      z := z + 1;
    }
  }

  ghost function SitesAround(w: World, origin: Vec3, facing: Facing, depth: int): iset<Int3>
  {
    var cx, cz := FloorOf(origin.x), FloorOf(origin.z);
    Sites(w, facing, depth, cx - NEW_PORTAL_SEARCH_RADIUS, cx + NEW_PORTAL_SEARCH_RADIUS + 1,
          cz - NEW_PORTAL_SEARCH_RADIUS, cz + NEW_PORTAL_SEARCH_RADIUS + 1)
  }

  // The nearest site for the first facing alone, whatever the facing count; ties go to the lower x, then
  // z, then the higher y. Without a site the caller's position and facing stay.
  method FindPortalSite(w: World, origin: Vec3, startFacing: nat,
      facingCount: nat, depth: nat, pos0: Int3, facing0: Facing)
    returns (found: bool, pos: Int3, facing: Facing)
    requires facingCount > 0
    ensures var sites := SitesAround(w, origin, FacingAt(startFacing, facingCount), depth);
            if found then facing == FacingAt(startFacing, facingCount)
              && IsBest(origin, DistSq(origin, pos), pos, sites)
            else sites == iset{} && pos == pos0 && facing == facing0
  {
    var cx, cz := FloorOf(origin.x), FloorOf(origin.z);
    ghost var first := FacingAt(startFacing, facingCount);
    var t := Choice(-1.0, pos0, facing0);
    ghost var before := t;
    var x0, x1 := cx - NEW_PORTAL_SEARCH_RADIUS, cx + NEW_PORTAL_SEARCH_RADIUS;
    var z0, z1 := cz - NEW_PORTAL_SEARCH_RADIUS, cz + NEW_PORTAL_SEARCH_RADIUS;
    var x := x0;
    assert Sites(w, first, depth, x0, x, z0, z1 + 1) == iset{};
    hide Site, FacingAt;
    while x <= x1
      invariant x0 <= x <= x1 + 1
      invariant Chosen(origin, t, first, before, Sites(w, first, depth, x0, x, z0, z1 + 1))
    {
      hide Chosen;
      ghost var seen := Sites(w, first, depth, x0, x, z0, z1 + 1);
      t := SiteInRow(w, origin, x, z0, z1, startFacing, facingCount, depth, t, before, seen);
      assert seen + Sites(w, first, depth, x, x + 1, z0, z1 + 1) == Sites(w, first, depth, x0, x + 1, z0, z1 + 1);
      x := x + 1;
    }
    return t.closest >= 0.0, t.pos, t.facing;
  }

  // ----- building -----

  predicate Settable(w: World, p: Int3) { InBounds(p.y) && ChunkOf(p) in w.chunks }

  function WithBlock(w: World, p: Int3, id: int): (r: World)
    ensures r.chunks.Keys == w.chunks.Keys && r.solid == w.solid
  {
    if Settable(w, p) then w.(chunks := w.chunks[ChunkOf(p) := w.chunks[ChunkOf(p)][Local(p) := id]]) else w
  }

  lemma WithBlockSpec(w: World, p: Int3, id: int, q: Int3)
    ensures GetBlockId(WithBlock(w, p, id), q) == if q == p && Settable(w, p) then id else GetBlockId(w, q)
  {
    if ChunkOf(q) == ChunkOf(p) && Local(q) == Local(p) {
      assert p.x == CHUNK_WIDTH * (p.x / CHUNK_WIDTH) + p.x % CHUNK_WIDTH;
      assert q == p;
    }
  }

  predicate IsFrame(across: int, h: int) { across == 0 || across == 3 || h == -1 || h == 3 }

  function PortalBlock(across: int, h: int): int { if IsFrame(across, h) then OBSIDIAN else NETHER_PORTAL }

  function PlatformBlock(h: int): int { if h < 0 then OBSIDIAN else AIR }

  // Positions of the doorway up to, but not including, (across, h) in building order.
  predicate InDoorway(base: Int3, axis: Facing, p: Int3, across: int, h: int)
  {
    var a, g := Across(base, axis, p), p.y - base.y;
    Depth(base, axis, p) == 0 && -1 <= g < 4 && 0 <= a && (a < across || (a == across && g < h))
  }

  // The 4 by 5 doorway is what BuildDoorway writes, where it can be written, and nothing else changes.
  ghost predicate BuiltTo(w: World, r: World, base: Int3, axis: Facing, across: int, h: int)
  {
    && r.chunks.Keys == w.chunks.Keys && r.solid == w.solid
    && forall p :: GetBlockId(r, p) == if InDoorway(base, axis, p, across, h) && Settable(w, p)
       then PortalBlock(Across(base, axis, p), p.y - base.y) else GetBlockId(w, p)
  }

  lemma SameSettable(w: World, r: World, p: Int3)
    requires r.chunks.Keys == w.chunks.Keys
    ensures Settable(r, p) == Settable(w, p)
  {
  }

  lemma BuildOne(w: World, r: World, base: Int3, axis: Facing, across: nat, h: int)
    requires across < 4 && -1 <= h < 4 && BuiltTo(w, r, base, axis, across, h)
    ensures BuiltTo(w, WithBlock(r, PortalPoint(base, axis, across, h, 0), PortalBlock(across, h)),
            base, axis, across, h + 1)
  {
    var q := PortalPoint(base, axis, across, h, 0);
    var r' := WithBlock(r, q, PortalBlock(across, h));
    hide GetBlockId, WithBlock, PortalPoint, Across, Depth, PortalBlock, Settable;
    forall p ensures GetBlockId(r', p) == if InDoorway(base, axis, p, across, h + 1) && Settable(w, p)
      then PortalBlock(Across(base, axis, p), p.y - base.y) else GetBlockId(w, p) {
      WithBlockSpec(r, q, PortalBlock(across, h), p);
      PortalPointIsOneToOne(base, axis, across, h, 0, p);
      SameSettable(w, r, p);
    }
  }

  // The platform cleared under and around a doorway for which there was no site, in building order.
  predicate InPlatform(base: Int3, axis: Facing, p: Int3, side: int, across: int, h: int)
  {
    var d, a, g := Depth(base, axis, p), Across(base, axis, p), p.y - base.y;
    -1 <= d && 1 <= a < 3 && -1 <= g < 3 && (d < side || (d == side && (a < across || (a == across && g < h))))
  }

  ghost predicate ClearedTo(w: World, r: World, base: Int3, axis: Facing, side: int, across: int, h: int)
  {
    && r.chunks.Keys == w.chunks.Keys && r.solid == w.solid
    && forall p :: GetBlockId(r, p) == if InPlatform(base, axis, p, side, across, h) && Settable(w, p)
       then PlatformBlock(p.y - base.y) else GetBlockId(w, p)
  }

  lemma PileIsCleared(w: World, r: World, base: Int3, axis: Facing, side: int, across: int)
    requires ClearedTo(w, r, base, axis, side, across, 3)
    ensures ClearedTo(w, r, base, axis, side, across + 1, -1)
  {
    hide GetBlockId, Settable, PlatformBlock, Across, Depth;
  }

  lemma ClearOne(w: World, r: World, base: Int3, axis: Facing, side: int, across: int, h: int)
    requires -1 <= side < 2 && 1 <= across < 3 && -1 <= h < 3 && ClearedTo(w, r, base, axis, side, across, h)
    ensures ClearedTo(w, WithBlock(r, PortalPoint(base, axis, across, h, side), PlatformBlock(h)),
            base, axis, side, across, h + 1)
  {
    var q := PortalPoint(base, axis, across, h, side);
    var r' := WithBlock(r, q, PlatformBlock(h));
    hide GetBlockId, WithBlock, PortalPoint, Across, Depth, PlatformBlock, Settable;
    forall p ensures GetBlockId(r', p) == if InPlatform(base, axis, p, side, across, h + 1) && Settable(w, p)
      then PlatformBlock(p.y - base.y) else GetBlockId(w, p) {
      WithBlockSpec(r, q, PlatformBlock(h), p);
      PortalPointIsOneToOne(base, axis, across, h, side, p);
      SameSettable(w, r, p);
    }
  }

  // What building puts at p.
  function Created(w: World, base: Int3, axis: Facing, site: bool, p: Int3): int
  {
    if !Settable(w, p) then GetBlockId(w, p)
    else if InDoorway(base, axis, p, 4, -1) then PortalBlock(Across(base, axis, p), p.y - base.y)
    else if !site && InPlatform(base, axis, p, 2, 1, -1) then PlatformBlock(p.y - base.y)
    else GetBlockId(w, p)
  }

  function Clamp(v: int, lo: int, hi: int): int { if v < lo then lo else if v > hi then hi else v }

  // Where a portal goes when there is no site.
  function Fallback(pos: Vec3): Int3 { Int3(FloorOf(pos.x), Clamp(FloorOf(pos.y), 70, 118), FloorOf(pos.z)) }

  // What CreatePortal promises of the place it picks.
  ghost predicate Picked(w: World, pos: Vec3, startFacing: nat, base: Int3, axis: Facing, site: bool)
  {
    var roomy, narrow := SitesAround(w, pos, FacingAt(startFacing, 4), 3),
      SitesAround(w, pos, FacingAt(startFacing, 2), 1);
    if roomy != iset{} then site && axis == FacingAt(startFacing, 4) && IsBest(pos, DistSq(pos, base), base, roomy)
    else if narrow != iset{} then site && axis == FacingAt(startFacing, 2)
      && IsBest(pos, DistSq(pos, base), base, narrow)
    else !site && axis == South && base == Fallback(pos)
  }

  class WorldManager {
    var world: World

    constructor (world: World)
      ensures this.world == world
    {
      this.world := world;
    }

    method SetBlock(p: Int3, id: int)
      modifies this
      ensures world == WithBlock(old(world), p, id)
    {
      world := WithBlock(world, p, id);
    }

    method BuildDoorway(base: Int3, axis: Facing)
      modifies this
      ensures BuiltTo(old(world), world, base, axis, 4, -1)
    {
      hide GetBlockId, Settable, PortalBlock, WithBlock, Across, Depth, PortalPoint;
      var across := 0;
      while across < 4
        invariant 0 <= across <= 4 && BuiltTo(old(world), world, base, axis, across, -1)
      {
        var h := -1;
        while h < 4
          invariant -1 <= h <= 4 && BuiltTo(old(world), world, base, axis, across, h)
        {
          BuildOne(old(world), world, base, axis, across, h);
          hide BuiltTo;
          SetBlock(PortalPoint(base, axis, across, h, 0), PortalBlock(across, h));
          h := h + 1;
        }
        across := across + 1;
      }
    }

    // The blocks above one another of the platform.
    method ClearPile(base: Int3, axis: Facing, side: int, across: int, ghost start: World)
      requires -1 <= side < 2 && 1 <= across < 3 && ClearedTo(start, world, base, axis, side, across, -1)
      modifies this
      ensures ClearedTo(start, world, base, axis, side, across + 1, -1)
    {
      hide GetBlockId, Settable, PlatformBlock, WithBlock, Across, Depth, PortalPoint, ClearedTo;
      var h := -1;
      while h < 3
        invariant -1 <= h <= 3 && ClearedTo(start, world, base, axis, side, across, h)
      {
        ClearOne(start, world, base, axis, side, across, h);
        SetBlock(PortalPoint(base, axis, across, h, side), PlatformBlock(h));
        h := h + 1;
      }
      PileIsCleared(start, world, base, axis, side, across);
    }

    method ClearPlatform(base: Int3, axis: Facing)
      modifies this
      ensures ClearedTo(old(world), world, base, axis, 2, 1, -1)
    {
      hide GetBlockId, Settable, PlatformBlock, WithBlock, Across, Depth, PortalPoint;
      var side := -1;
      while side <= 1
        invariant -1 <= side <= 2 && ClearedTo(old(world), world, base, axis, side, 1, -1)
      {
        var across := 1;
        while across < 3
          invariant 1 <= across <= 3 && ClearedTo(old(world), world, base, axis, side, across, -1)
        {
          ClearPile(base, axis, side, across, old(world));
          across := across + 1;
        }
        side := side + 1;
      }
    }

    // The doorway goes to the nearest roomy site for the facing drawn, else to the nearest narrow one, else
    // to where the entity is; there a platform is cleared first. Nothing else changes.
    method CreatePortal(pos: Vec3, startFacing: nat) returns (base: Int3, axis: Facing, site: bool)
      requires startFacing < 4
      modifies this
      ensures world.chunks.Keys == old(world.chunks.Keys)
      ensures forall p :: GetBlockId(world, p) == Created(old(world), base, axis, site, p)
      ensures Picked(old(world), pos, startFacing, base, axis, site)
    {
      base, axis := Int3(FloorOf(pos.x), FloorOf(pos.y), FloorOf(pos.z)), PortalFacings(0);
      site, base, axis := FindPortalSite(world, pos, startFacing, 4, 3, base, axis);
      if !site {
        site, base, axis := FindPortalSite(world, pos, startFacing, 2, 1, base, axis);
      }
      assert site ==>
        base in SitesAround(world, pos, FacingAt(startFacing, 4), 3)
        || base in SitesAround(world, pos, FacingAt(startFacing, 2), 1);
      hide SitesAround, IsBest, GetBlockId, FacingAt, InDoorway, InPlatform, Across, Depth;
      if !site {
        base := base.(y := Clamp(base.y, 70, 118));
        ClearPlatform(base, axis);
      }
      BuildDoorway(base, axis);
    }
  }

  // ----- in coordinates -----

  // The doorway that is built, block by block: an obsidian frame, four wide and five high with its lower
  // left corner to one side of and below the base, around two by three portal blocks.
  lemma DoorwayStands(w: World, base: Int3, axis: Facing, site: bool, across: int, h: int)
    requires 0 <= across < 4 && -1 <= h < 4
    ensures var p := PortalPoint(base, axis, across, h, 0);
            Created(w, base, axis, site, p) ==
              if !(0 <= p.y < CHUNK_HEIGHT && ChunkOf(p) in w.chunks) then GetBlockId(w, p)
              else if 1 <= across <= 2 && 0 <= h <= 2 then NETHER_PORTAL else OBSIDIAN
  {
    PortalPointIsOneToOne(base, axis, across, h, 0, PortalPoint(base, axis, across, h, 0));
    hide GetBlockId, PortalPoint, Across, Depth;
  }

  // Without a site, the two columns before and the two behind the doorway's inside are cleared, with
  // obsidian to stand on.
  lemma PlatformStands(w: World, base: Int3, axis: Facing, side: int, across: int, h: int)
    requires (side == -1 || side == 1) && 1 <= across <= 2 && -1 <= h <= 2
    ensures var p := PortalPoint(base, axis, across, h, side);
            Created(w, base, axis, false, p) ==
              if !(0 <= p.y < CHUNK_HEIGHT && ChunkOf(p) in w.chunks) then GetBlockId(w, p)
              else if h == -1 then OBSIDIAN else AIR
  {
    PortalPointIsOneToOne(base, axis, across, h, side, PortalPoint(base, axis, across, h, side));
    hide GetBlockId, PortalPoint, Across, Depth;
  }

  // Every other block stays.
  lemma RestStays(w: World, base: Int3, axis: Facing, site: bool, p: Int3)
    requires forall a, h :: 0 <= a < 4 && -1 <= h < 4 ==> p != PortalPoint(base, axis, a, h, 0)
    requires !site ==> forall a, h, side :: 1 <= a <= 2 && -1 <= h <= 2 && (side == -1 || side == 1) ==>
                         p != PortalPoint(base, axis, a, h, side)
    ensures Created(w, base, axis, site, p) == GetBlockId(w, p)
  {
    var a, h, d := Across(base, axis, p), p.y - base.y, Depth(base, axis, p);
    PortalPointIsOneToOne(base, axis, a, h, d, p);
    hide GetBlockId, PortalPoint, Across, Depth;
    assert p == PortalPoint(base, axis, a, h, d);
  }

  // Where a portal goes: a site is at most 16 blocks away in x and in z, and without one it is where the
  // entity stands, at a height from 70 to 118.
  lemma PickedPlace(w: World, pos: Vec3, startFacing: nat, base: Int3, axis: Facing, site: bool)
    requires Picked(w, pos, startFacing, base, axis, site)
    ensures -17.0 < base.x as real - pos.x <= 16.0 && -17.0 < base.z as real - pos.z <= 16.0
    ensures !site ==>
              && axis == South && -1.0 < base.x as real - pos.x <= 0.0 && -1.0 < base.z as real - pos.z <= 0.0
              && 70 <= base.y <= 118
              && (70.0 <= pos.y < 119.0 ==> -1.0 < base.y as real - pos.y <= 0.0)
              && (pos.y < 70.0 ==> base.y == 70) && (pos.y >= 119.0 ==> base.y == 118)
  {
    hide IsBest, DistSq, Site;
    assert FloorOf(pos.x) as real <= pos.x < (FloorOf(pos.x) + 1) as real;
    assert FloorOf(pos.y) as real <= pos.y < (FloorOf(pos.y) + 1) as real;
    assert FloorOf(pos.z) as real <= pos.z < (FloorOf(pos.z) + 1) as real;
    if site {
      assert base in SitesAround(w, pos, axis, 3) || base in SitesAround(w, pos, axis, 1) by {
        PickedIsSite(w, pos, startFacing, base, axis, site);
      }
    }
  }

  lemma PickedIsSite(w: World, pos: Vec3, startFacing: nat, base: Int3, axis: Facing, site: bool)
    requires Picked(w, pos, startFacing, base, axis, site) && site
    ensures base in SitesAround(w, pos, axis, 3) || base in SitesAround(w, pos, axis, 1)
  {
    hide SitesAround, FacingAt;
  }

  // Solid blocks under the whole doorway and air above them, to that depth.
  ghost predicate Roomy(w: World, axis: Facing, depth: int, p: Int3)
  {
    && (forall d, a :: 0 <= d < depth && 0 <= a < 4 ==> GetBlockId(w, PortalPoint(p, axis, a, -1, d)) in w.solid)
    && (forall d, a, h :: 0 <= d < depth && 0 <= a < 4 && 0 <= h < 4 ==>
          GetBlockId(w, PortalPoint(p, axis, a, h, d)) == AIR)
  }

  // The sites are the places in the world's height with that room.
  lemma SiteExactly(w: World, axis: Facing, depth: int, p: Int3)
    requires depth > 0 && AIR !in w.solid
    ensures Site(w, axis, depth, p) <==> 0 <= p.y < CHUNK_HEIGHT && Roomy(w, axis, depth, p)
  {
    RoomExactly(w, axis, depth, p);
    if Roomy(w, axis, depth, p) {
      assert GetBlockId(w, PortalPoint(p, axis, 1, -1, 0)) in w.solid;
      assert GetBlockId(w, PortalPoint(p, axis, 1, 0, 0)) == AIR;
      assert PortalPoint(p, axis, 1, 0, 0) == p && PortalPoint(p, axis, 1, -1, 0) == Int3(p.x, p.y - 1, p.z);
    }
    hide Room, Roomy, GetBlockId, PortalPoint;
  }

  lemma RoomExactly(w: World, axis: Facing, depth: int, p: Int3)
    ensures Room(w, p, axis, depth) <==> Roomy(w, axis, depth, p)
  {
    hide GetBlockId, PortalPoint;
    if Room(w, p, axis, depth) {
      forall d, a | 0 <= d < depth && 0 <= a < 4 ensures GetBlockId(w, PortalPoint(p, axis, a, -1, d)) in w.solid {
        assert Fits(w, p, axis, a, -1, d);
      }
      forall d, a, h | 0 <= d < depth && 0 <= a < 4 && 0 <= h < 4
        ensures GetBlockId(w, PortalPoint(p, axis, a, h, d)) == AIR
      {
        assert Fits(w, p, axis, a, h, d);
      }
    }
    if Roomy(w, axis, depth, p) {
      forall d, a, h | 0 <= d < depth && 0 <= a < 4 && -1 <= h < 4 ensures Fits(w, p, axis, a, h, d) {
      }
    }
  }

  // At most 16 blocks from the entity's block in x and in z.
  predicate Near(pos: Vec3, p: Int3)
  {
    -17.0 < p.x as real - pos.x <= 16.0 && -17.0 < p.z as real - pos.z <= 16.0
  }

  lemma SitesExactly(w: World, pos: Vec3, axis: Facing, depth: int, p: Int3)
    requires depth > 0 && AIR !in w.solid
    ensures p in SitesAround(w, pos, axis, depth) <==>
            Near(pos, p) && 0 <= p.y < CHUNK_HEIGHT && Roomy(w, axis, depth, p)
  {
    SiteExactly(w, axis, depth, p);
    assert FloorOf(pos.x) as real <= pos.x < (FloorOf(pos.x) + 1) as real;
    assert FloorOf(pos.z) as real <= pos.z < (FloorOf(pos.z) + 1) as real;
    hide Site, Roomy;
  }

  // Which place is picked: for the facing drawn, the nearest with room to a depth of three; if there is none,
  // for that facing or its neighbour of the first two, the nearest with room to a depth of one.
  lemma PickedIsNearest(w: World, pos: Vec3, startFacing: nat, base: Int3, axis: Facing, site: bool, q: Int3)
    requires AIR !in w.solid && Picked(w, pos, startFacing, base, axis, site)
    requires Near(pos, q) && 0 <= q.y < CHUNK_HEIGHT
    ensures var wide, narrow := [South, East, North, West][startFacing % 4], [South, East][startFacing % 2];
            && (Roomy(w, wide, 3, q) ==>
                  site && axis == wide && Roomy(w, wide, 3, base) && DistSq(pos, base) <= DistSq(pos, q))
            && (Roomy(w, narrow, 1, q) ==>
                  site && ((axis == wide && Roomy(w, wide, 3, base))
                           || (axis == narrow && Roomy(w, narrow, 1, base) && DistSq(pos, base) <= DistSq(pos, q))))
  {
    var wide, narrow := FacingAt(startFacing, 4), FacingAt(startFacing, 2);
    SitesExactly(w, pos, wide, 3, q);
    SitesExactly(w, pos, wide, 3, base);
    SitesExactly(w, pos, narrow, 1, q);
    SitesExactly(w, pos, narrow, 1, base);
    hide FacingAt, SitesAround, DistSq, Roomy, Near;
  }
}
