// The promise of the Teleporter: an entity that comes through a portal ends in the nearest portal, or in
// one that is built for it.
module PortalArrival {
  import opened Sequences
  import opened PortalSearch
  import opened PortalCreation

  // The order of HORIZONTAL_DIRS.
  function HorizontalDirs(): seq<Facing> { [West, East, North, South] }

  function Nudge(v: Vec3, f: Facing): Vec3
  {
    match f
    case North => v.(z := v.z - 0.5)
    case South => v.(z := v.z + 0.5)
    case East => v.(x := v.x + 0.5)
    case West => v.(x := v.x - 0.5)
  }

  // The middle of the portal block, half a block towards each of the first n directions in which there is
  // another portal block.
  function Nudged(w: World, p: Int3, n: nat): Vec3
    requires n <= 4
  {
    if n == 0 then Vec3(p.x as real + 0.5, p.y as real + 0.5, p.z as real + 0.5)
    else
      var f := HorizontalDirs()[n - 1];
      if IsPortal(w, WithOffset(p, f, 1)) then Nudge(Nudged(w, p, n - 1), f) else Nudged(w, p, n - 1)
  }

  function Target(w: World, p: Int3): Vec3 { Nudged(w, p, 4) }

  predicate Beside(p: Int3, q: Int3)
  {
    && q.y == p.y
    && ((q.z == p.z && (q.x == p.x - 1 || q.x == p.x + 1)) || (q.x == p.x && (q.z == p.z - 1 || q.z == p.z + 1)))
  }

  // An entity that finds portal block p ends in the middle of the block, moved by half a block towards each
  // portal block beside it.
  lemma TargetExactly(w: World, p: Int3)
    ensures var t := Target(w, p);
            && t.x == p.x as real + 0.5 + (if IsPortal(w, Int3(p.x + 1, p.y, p.z)) then 0.5 else 0.0)
                      - (if IsPortal(w, Int3(p.x - 1, p.y, p.z)) then 0.5 else 0.0)
            && t.y == p.y as real + 0.5
            && t.z == p.z as real + 0.5 + (if IsPortal(w, Int3(p.x, p.y, p.z + 1)) then 0.5 else 0.0)
                      - (if IsPortal(w, Int3(p.x, p.y, p.z - 1)) then 0.5 else 0.0)
  {
    hide IsPortal;
    var dirs := HorizontalDirs();
    assert Nudged(w, p, 1) ==
           if IsPortal(w, WithOffset(p, dirs[0], 1)) then Nudge(Nudged(w, p, 0), dirs[0]) else Nudged(w, p, 0);
    assert Nudged(w, p, 2) ==
           if IsPortal(w, WithOffset(p, dirs[1], 1)) then Nudge(Nudged(w, p, 1), dirs[1]) else Nudged(w, p, 1);
    assert Nudged(w, p, 3) ==
           if IsPortal(w, WithOffset(p, dirs[2], 1)) then Nudge(Nudged(w, p, 2), dirs[2]) else Nudged(w, p, 2);
    hide HorizontalDirs;
  }

  // With one portal block beside it, that is the middle of the two; with none, the middle of the block.
  lemma TargetIsMiddle(w: World, p: Int3, q: Int3)
    requires Beside(p, q) && forall r :: Beside(p, r) && IsPortal(w, r) ==> r == q
    ensures var t := Target(w, p); var two := IsPortal(w, q);
            && 2.0 * t.x == (p.x + (if two then q.x else p.x) + 1) as real && 2.0 * t.y == (2 * p.y + 1) as real
            && 2.0 * t.z == (p.z + (if two then q.z else p.z) + 1) as real
  {
    TargetExactly(w, p);
    hide Target, IsPortal;
    assert Beside(p, Int3(p.x + 1, p.y, p.z)) && Beside(p, Int3(p.x - 1, p.y, p.z));
    assert Beside(p, Int3(p.x, p.y, p.z + 1)) && Beside(p, Int3(p.x, p.y, p.z - 1));
  }

  class Entity {
    var position: Vec3
    var velocity: Vec3

    constructor (position: Vec3, velocity: Vec3)
      ensures this.position == position && this.velocity == velocity
    {
      this.position, this.velocity := position, velocity;
    }
  }

  method PlaceInExistingPortal(m: WorldManager, e: Entity) returns (ok: bool)
    modifies e
    ensures var there := FlatScan(m.world, old(e.position));
            && ok == there.Some?
            && e.position == (if ok then Target(m.world, there.value) else old(e.position))
            && e.velocity == (if ok then Vec3(0.0, 0.0, 0.0) else old(e.velocity))
  {
    var closest, p := FindExisting(m.world, e.position);
    if closest < 0.0 {
      return false;
    }
    var target := Vec3(p.x as real + 0.5, p.y as real + 0.5, p.z as real + 0.5);
    var n := 0;
    while n < 4
      invariant 0 <= n <= 4 && target == Nudged(m.world, p, n)
      invariant e.position == old(e.position) && e.velocity == old(e.velocity)
    {
      var dir := HorizontalDirs()[n];
      if IsPortal(m.world, WithOffset(p, dir, 1)) {
        target := Nudge(target, dir);
      }
      n := n + 1;
    }
    e.velocity := Vec3(0.0, 0.0, 0.0);
    e.position := target;
    return true;
  }

  lemma {:induction false} RunHasBottom(w: World, p: Int3)
    requires IsPortal(w, p)
    ensures exists q: Int3 :: q.x == p.x && q.z == p.z && Bottom(w, q)
    decreases p.y
  {
    var below := Int3(p.x, p.y - 1, p.z);
    if IsPortal(w, below) {
      RunHasBottom(w, below);
      var q: Int3 :| q.x == below.x && q.z == below.z && Bottom(w, q);
    } else {
      assert Bottom(w, p);
    }
  }

  // At most 128 blocks from the entity's block in x and in z.
  predicate Within(pos: Vec3, p: Int3)
  {
    -129.0 < p.x as real - pos.x <= 128.0 && -129.0 < p.z as real - pos.z <= 128.0
  }

  lemma SquareIsWithin(pos: Vec3, p: Int3)
    ensures SquareAround(pos).Has(p) <==> Within(pos, p)
  {
    assert FloorOf(pos.x) as real <= pos.x < (FloorOf(pos.x) + 1) as real;
    assert FloorOf(pos.z) as real <= pos.z < (FloorOf(pos.z) + 1) as real;
  }

  // What the plain scan finds is the foot of a column of portal blocks in the square, and no other is
  // nearer; of those as near, it is the first in x, then in z, then from above.
  lemma ScanFindsTheNearest(w: World, pos: Vec3, p: Int3)
    requires FlatScan(w, pos) == Some(p)
    ensures Within(pos, p) && IsPortal(w, p) && !IsPortal(w, Int3(p.x, p.y - 1, p.z))
    ensures forall q :: Within(pos, q) && IsPortal(w, q) && !IsPortal(w, Int3(q.x, q.y - 1, q.z)) ==>
              || DistSq(pos, p) < DistSq(pos, q)
              || (DistSq(pos, p) == DistSq(pos, q)
                  && (p.x < q.x || (p.x == q.x && (p.z < q.z || (p.z == q.z && p.y >= q.y)))))
  {
    ScanIsBest(w, pos);
    hide *;
    NearestOfCandidates(w, pos, p);
  }

  lemma ScanIsBest(w: World, pos: Vec3)
    ensures var r := FlatScan(w, pos); var c := Candidates(w, SquareAround(pos));
            if r.Some? then IsBest(pos, DistSq(pos, r.value), r.value, c) else c == iset{}
  {
    var sq := SquareAround(pos);
    assert Columns(w, sq.minX, sq.minX, sq.minZ, sq.maxZ + 1) == iset{};
    hide GetBlockId, DistSq, Candidates, Columns, IsBest;
    FlatRowsSpec(w, pos, sq.minX, sq, None);
  }

  lemma NearestOfCandidates(w: World, pos: Vec3, p: Int3)
    requires IsBest(pos, DistSq(pos, p), p, Candidates(w, SquareAround(pos)))
    ensures Within(pos, p) && IsPortal(w, p) && !IsPortal(w, Int3(p.x, p.y - 1, p.z))
    ensures forall q :: Within(pos, q) && IsPortal(w, q) && !IsPortal(w, Int3(q.x, q.y - 1, q.z)) ==>
              || DistSq(pos, p) < DistSq(pos, q)
              || (DistSq(pos, p) == DistSq(pos, q)
                  && (p.x < q.x || (p.x == q.x && (p.z < q.z || (p.z == q.z && p.y >= q.y)))))
  {
    var sq := SquareAround(pos);
    hide IsPortal, SquareAround, Within;
    SquareIsWithin(pos, p);
    assert p in Candidates(w, sq);
    forall q | Within(pos, q) && IsPortal(w, q) && !IsPortal(w, Int3(q.x, q.y - 1, q.z))
      ensures q == p || Before(pos, p, q)
    {
      SquareIsWithin(pos, q);
      assert q in Candidates(w, sq);
    }
    hide DistSq;
  }

  // It finds something if and only if the square holds a portal block.
  lemma ScanFindsPortals(w: World, pos: Vec3)
    ensures FlatScan(w, pos).Some? <==> exists p :: Within(pos, p) && IsPortal(w, p)
  {
    var sq := SquareAround(pos);
    ScanIsBest(w, pos);
    hide FlatScan, GetBlockId, SquareAround, Within, DistSq, Before;
    if p :| Within(pos, p) && IsPortal(w, p) {
      SquareIsWithin(pos, p);
      RunHasBottom(w, p);
      var q: Int3 :| q.x == p.x && q.z == p.z && Bottom(w, q);
      assert q in Candidates(w, sq);
    }
    if FlatScan(w, pos).Some? {
      var p :| p in Candidates(w, sq);
      SquareIsWithin(pos, p);
      assert Within(pos, p) && IsPortal(w, p);
    }
  }

  // Whether a new portal can hold a portal block: at a site always, and without one if and only if one of
  // the two chunks that the doorway's inside lies in is generated.
  ghost predicate CanBuild(w: World, pos: Vec3, startFacing: nat)
  {
    || SitesAround(w, pos, FacingAt(startFacing, 4), 3) != iset{}
    || SitesAround(w, pos, FacingAt(startFacing, 2), 1) != iset{}
    || ChunkOf(Fallback(pos)) in w.chunks
    || ChunkOf(WithOffset(Fallback(pos), South, 1)) in w.chunks
  }

  lemma SiteIsSettable(w: World, axis: Facing, depth: nat, base: Int3)
    requires depth > 0 && AIR !in w.solid && Site(w, axis, depth, base)
    ensures Settable(w, base)
  {
    assert Fits(w, base, axis, 1, -1, 0);
    assert PortalPoint(base, axis, 1, -1, 0) == Int3(base.x, base.y - 1, base.z);
  }

  lemma InsideIsPortal(w: World, base: Int3, axis: Facing, site: bool, p: Int3)
    ensures Created(w, base, axis, site, p) == NETHER_PORTAL <==>
            if Settable(w, p) && InDoorway(base, axis, p, 4, -1)
              then 1 <= Across(base, axis, p) <= 2 && 0 <= p.y - base.y <= 2
            else GetBlockId(w, p) == NETHER_PORTAL && !(Settable(w, p) && !site && InPlatform(base, axis, p, 2, 1, -1))
  {
  }

  // Where the doorway's inside goes in a world without portals in the square.
  lemma DoorwayIsFound(w: World, w': World, pos: Vec3, startFacing: nat, base: Int3, axis: Facing, site: bool)
    requires AIR !in w.solid && FlatScan(w, pos).None? && Picked(w, pos, startFacing, base, axis, site)
    requires forall p :: GetBlockId(w', p) == Created(w, base, axis, site, p)
    ensures FlatScan(w', pos).Some? <==> CanBuild(w, pos, startFacing)
  {
    ScanFindsPortals(w, pos);
    ScanFindsPortals(w', pos);
    PickedIsNear(w, pos, startFacing, base, axis, site);
    hide FlatScan, GetBlockId, Created;
    if CanBuild(w, pos, startFacing) {
      BuiltIsPortal(w, pos, startFacing, base, axis, site);
      hide CanBuild, Picked;
      assert exists p :: SquareAround(pos).Has(p) && IsPortal(w', p);
    }
    if p :| SquareAround(pos).Has(p) && IsPortal(w', p) {
    }
  }

  lemma BuiltIsPortal(w: World, pos: Vec3, startFacing: nat, base: Int3, axis: Facing, site: bool)
    requires AIR !in w.solid && Picked(w, pos, startFacing, base, axis, site) && CanBuild(w, pos, startFacing)
    ensures || Created(w, base, axis, site, base) == NETHER_PORTAL
            || Created(w, base, axis, site, WithOffset(base, axis, 1)) == NETHER_PORTAL
  {
    var beside := WithOffset(base, axis, 1);
    InsideIsPortal(w, base, axis, site, base);
    InsideIsPortal(w, base, axis, site, beside);
    hide Created, SitesAround, IsBest;
    if site {
      PickedSiteIsSettable(w, pos, startFacing, base, axis, site);
    } else {
      assert Settable(w, base) || Settable(w, beside);
    }
  }

  lemma PickedIsNear(w: World, pos: Vec3, startFacing: nat, base: Int3, axis: Facing, site: bool)
    requires Picked(w, pos, startFacing, base, axis, site)
    ensures SquareAround(pos).Has(base) && SquareAround(pos).Has(WithOffset(base, axis, 1))
  {
    hide Site, IsBest;
    if site {
      assert base in SitesAround(w, pos, axis, 3) || base in SitesAround(w, pos, axis, 1) by {
        PickedIsSite(w, pos, startFacing, base, axis, site);
      }
    }
  }

  lemma PickedSiteIsSettable(w: World, pos: Vec3, startFacing: nat, base: Int3, axis: Facing, site: bool)
    requires AIR !in w.solid && Picked(w, pos, startFacing, base, axis, site) && site
    ensures Settable(w, base)
  {
    PickedIsSite(w, pos, startFacing, base, axis, site);
    if base in SitesAround(w, pos, axis, 3) {
      SiteIsSettable(w, axis, 3, base);
    } else {
      SiteIsSettable(w, axis, 1, base);
    }
  }

  // The two columns inside the doorway, at their feet.
  function Inside(base: Int3, axis: Facing, column: int): Int3
    requires column == 1 || column == 2
  {
    PortalPoint(base, axis, column, 0, 0)
  }

  // Halfway between the middles of two blocks.
  predicate Midway(t: Vec3, a: Int3, b: Int3)
  {
    && 2.0 * t.x == (a.x + b.x + 1) as real && 2.0 * t.y == (a.y + b.y + 1) as real
    && 2.0 * t.z == (a.z + b.z + 1) as real
  }

  predicate CanHold(w: World, p: Int3) { 0 <= p.y < CHUNK_HEIGHT && ChunkOf(p) in w.chunks }

  // After building in a square without portals, the portal blocks in it are those of the doorway, as far as
  // they could be written.
  lemma OnlyTheDoorway(w: World, w': World, pos: Vec3, startFacing: nat, base: Int3, axis: Facing, site: bool, p: Int3)
    requires FlatScan(w, pos).None? && Picked(w, pos, startFacing, base, axis, site)
    requires forall p :: GetBlockId(w', p) == Created(w, base, axis, site, p)
    requires Within(pos, p)
    ensures IsPortal(w', p) <==> CanHold(w, p) && exists a, h ::
            1 <= a <= 2 && 0 <= h <= 2 && p == PortalPoint(base, axis, a, h, 0)
  {
    hide FlatScan, Picked;
    ScanFindsPortals(w, pos);
    assert !IsPortal(w, p);
    hide Within;
    InsideIsPortal(w, base, axis, site, p);
    assert GetBlockId(w', p) == Created(w, base, axis, site, p);
    var a, h := Across(base, axis, p), p.y - base.y;
    PortalPointIsOneToOne(base, axis, a, h, 0, p);
    hide GetBlockId, Created, FlatScan, Picked, PortalPoint;
    if IsPortal(w', p) {
      assert p == PortalPoint(base, axis, a, h, 0);
    }
    if CanHold(w, p) && exists a, h :: 1 <= a <= 2 && 0 <= h <= 2 && p == PortalPoint(base, axis, a, h, 0) {
      var a', h' :| 1 <= a' <= 2 && 0 <= h' <= 2 && p == PortalPoint(base, axis, a', h', 0);
      PortalPointIsOneToOne(base, axis, a', h', 0, p);
    }
  }

  // An entity for which a doorway was built ends midway between the two columns inside it; in the middle of
  // one of them if the other could not be written.
  lemma EndsInTheDoorway(w: World, w': World, pos: Vec3, startFacing: nat, base: Int3, axis: Facing, site: bool,
                         column: int)
    requires FlatScan(w, pos).None? && Picked(w, pos, startFacing, base, axis, site)
    requires forall p :: GetBlockId(w', p) == Created(w, base, axis, site, p)
    requires (column == 1 || column == 2) && CanHold(w, Inside(base, axis, column))
    ensures FlatScan(w', pos).Some?
    ensures var t := Target(w', FlatScan(w', pos).value);
            var a, o := Inside(base, axis, column), Inside(base, axis, 3 - column);
            var b := if CanHold(w, o) then o else a;
            Midway(t, a, b)
  {
    var a, o := Inside(base, axis, column), Inside(base, axis, 3 - column);
    hide *;
    FeetOfTheDoorway(w, w', pos, startFacing, base, axis, site);
    ScanFindsPortals(w', pos);
    assert Within(pos, a) && IsPortal(w', a);
    var p := FlatScan(w', pos).value;
    ScanFindsTheNearest(w', pos, p);
    FootOfTheDoorway(w, w', pos, startFacing, base, axis, site, p);
    var q := if p == a then o else a;
    forall r | Beside(p, r) && IsPortal(w', r) ensures r == q {
      NextToAFoot(w, w', pos, startFacing, base, axis, site, p, r);
    }
    TargetIsMiddle(w', p, q);
    MidwayMeans(Target(w', p), a, if CanHold(w, o) then o else a);
  }

  lemma MidwayMeans(t: Vec3, a: Int3, b: Int3)
    ensures Midway(t, a, b) <==> 2.0 * t.x == (a.x + b.x + 1) as real && 2.0 * t.y == (a.y + b.y + 1) as real
                                 && 2.0 * t.z == (a.z + b.z + 1) as real
  {
  }

  // The feet of the two columns are next to one another and in the square; a foot is a portal block if and
  // only if it could be written.
  lemma FeetOfTheDoorway(w: World, w': World, pos: Vec3, startFacing: nat, base: Int3, axis: Facing, site: bool)
    requires FlatScan(w, pos).None? && Picked(w, pos, startFacing, base, axis, site)
    requires forall p :: GetBlockId(w', p) == Created(w, base, axis, site, p)
    ensures var a, o := Inside(base, axis, 1), Inside(base, axis, 2);
            && a != o && a.y == o.y == base.y && Beside(a, o) && Beside(o, a) && Within(pos, a) && Within(pos, o)
            && (IsPortal(w', a) <==> CanHold(w, a)) && (IsPortal(w', o) <==> CanHold(w, o))
  {
    var a, o := Inside(base, axis, 1), Inside(base, axis, 2);
    PickedPlace(w, pos, startFacing, base, axis, site);
    hide FlatScan, GetBlockId, Created, Picked, IsPortal, CanHold;
    OnlyTheDoorway(w, w', pos, startFacing, base, axis, site, a);
    OnlyTheDoorway(w, w', pos, startFacing, base, axis, site, o);
  }

  lemma NextToAFoot(w: World, w': World, pos: Vec3, startFacing: nat,
      base: Int3, axis: Facing, site: bool, p: Int3, r: Int3)
    requires FlatScan(w, pos).None? && Picked(w, pos, startFacing, base, axis, site)
    requires forall p :: GetBlockId(w', p) == Created(w, base, axis, site, p)
    requires p == Inside(base, axis, 1) || p == Inside(base, axis, 2)
    requires Beside(p, r) && IsPortal(w', r)
    ensures r != p && (r == Inside(base, axis, 1) || r == Inside(base, axis, 2))
  {
    hide *;
    BesideIsNear(w, pos, startFacing, base, axis, site, p, r);
    OnlyTheDoorway(w, w', pos, startFacing, base, axis, site, r);
    var a, h :| 1 <= a <= 2 && 0 <= h <= 2 && r == PortalPoint(base, axis, a, h, 0);
    BesideIsAFoot(base, axis, p, a, h);
  }

  lemma BesideIsNear(w: World, pos: Vec3, startFacing: nat, base: Int3, axis: Facing, site: bool, p: Int3, r: Int3)
    requires Picked(w, pos, startFacing, base, axis, site) && Beside(p, r)
    requires p == Inside(base, axis, 1) || p == Inside(base, axis, 2)
    ensures Within(pos, r)
  {
    PickedPlace(w, pos, startFacing, base, axis, site);
    hide Picked;
  }

  lemma BesideIsAFoot(base: Int3, axis: Facing, p: Int3, a: int, h: int)
    requires 1 <= a <= 2 && 0 <= h <= 2 && Beside(p, PortalPoint(base, axis, a, h, 0))
    requires p == Inside(base, axis, 1) || p == Inside(base, axis, 2)
    ensures h == 0 && PortalPoint(base, axis, a, h, 0) == Inside(base, axis, a) != p
  {
  }

  lemma FootOfTheDoorway(w: World, w': World, pos: Vec3,
      startFacing: nat, base: Int3, axis: Facing, site: bool, p: Int3)
    requires FlatScan(w, pos).None? && Picked(w, pos, startFacing, base, axis, site)
    requires forall p :: GetBlockId(w', p) == Created(w, base, axis, site, p)
    requires Within(pos, p) && IsPortal(w', p) && !IsPortal(w', Int3(p.x, p.y - 1, p.z))
    ensures CanHold(w, p) && (p == Inside(base, axis, 1) || p == Inside(base, axis, 2))
  {
    hide FlatScan, GetBlockId, Created, Picked, IsPortal, Within;
    OnlyTheDoorway(w, w', pos, startFacing, base, axis, site, p);
    var a, h :| 1 <= a <= 2 && 0 <= h <= 2 && p == PortalPoint(base, axis, a, h, 0);
    if h > 0 {
      BelowIsPortal(w, w', pos, startFacing, base, axis, site, a, h - 1);
      assert false;
    }
  }

  lemma BelowIsPortal(w: World, w': World, pos: Vec3, startFacing: nat, base: Int3, axis: Facing, site: bool,
                      a: int, h: int)
    requires FlatScan(w, pos).None? && Picked(w, pos, startFacing, base, axis, site)
    requires forall p :: GetBlockId(w', p) == Created(w, base, axis, site, p)
    requires 1 <= a <= 2 && 0 <= h <= 1
    requires var p := PortalPoint(base, axis, a, h + 1, 0); CanHold(w, p) && Within(pos, p)
    ensures var p := PortalPoint(base, axis, a, h + 1, 0); IsPortal(w', Int3(p.x, p.y - 1, p.z))
  {
    BaseIsInTheWorld(w, pos, startFacing, base, axis, site);
    hide FlatScan, GetBlockId, Created, Picked, IsPortal;
    OnlyTheDoorway(w, w', pos, startFacing, base, axis, site, PortalPoint(base, axis, a, h, 0));
  }

  lemma BaseIsInTheWorld(w: World, pos: Vec3, startFacing: nat, base: Int3, axis: Facing, site: bool)
    requires Picked(w, pos, startFacing, base, axis, site)
    ensures base.y >= 0
  {
    hide IsBest, DistSq, Room, FacingAt;
    if site {
      PickedIsSite(w, pos, startFacing, base, axis, site);
    } else {
      PickedPlace(w, pos, startFacing, base, axis, site);
    }
  }

  // At a site both columns can be written.
  lemma SiteHoldsTheDoorway(w: World, pos: Vec3, startFacing: nat, base: Int3, axis: Facing, site: bool)
    requires AIR !in w.solid && Picked(w, pos, startFacing, base, axis, site) && site
    ensures CanHold(w, Inside(base, axis, 1)) && CanHold(w, Inside(base, axis, 2))
  {
    PickedIsSite(w, pos, startFacing, base, axis, site);
    var depth := if base in SitesAround(w, pos, axis, 3) then 3 else 1;
    SiteExactly(w, axis, depth, base);
    hide Site;
    assert GetBlockId(w, PortalPoint(base, axis, 1, -1, 0)) in w.solid;
    assert GetBlockId(w, PortalPoint(base, axis, 2, -1, 0)) in w.solid;
  }

  // What was built for an entity, and in which world.
  datatype Doorway = Doorway(base: Int3, axis: Facing, site: bool)

  ghost predicate StandsIn(was: World, now: World, pos: Vec3, startFacing: nat, d: Doorway)
  {
    && Picked(was, pos, startFacing, d.base, d.axis, d.site)
    && forall p :: GetBlockId(now, p) == Created(was, d.base, d.axis, d.site, p)
  }

  // An entity placed at t for which doorway d was built is midway between the two columns inside it, or in
  // the middle of the one that could be written.
  ghost predicate EndsIn(was: World, d: Doorway, t: Vec3)
  {
    var a, o := Inside(d.base, d.axis, 1), Inside(d.base, d.axis, 2);
    && (d.site ==> CanHold(was, a) && CanHold(was, o)) && (CanHold(was, a) || CanHold(was, o))
    && Midway(t, if CanHold(was, a) then a else o, if CanHold(was, o) then o else a)
  }

  lemma PlacedInDoorway(w: World, w': World, pos: Vec3, startFacing: nat, d: Doorway)
    requires AIR !in w.solid && FlatScan(w, pos).None? && StandsIn(w, w', pos, startFacing, d)
    ensures FlatScan(w', pos).Some? <==> CanBuild(w, pos, startFacing)
    ensures FlatScan(w', pos).Some? ==> EndsIn(w, d, Target(w', FlatScan(w', pos).value))
  {
    hide FlatScan, GetBlockId, Created, Picked, CanBuild, Target, CanHold, Midway, Inside, IsPortal, DistSq, Within;
    DoorwayIsFound(w, w', pos, startFacing, d.base, d.axis, d.site);
    if d.site { SiteHoldsTheDoorway(w, pos, startFacing, d.base, d.axis, d.site); }
    if FlatScan(w', pos).Some? {
      SomeFootIsHeld(w, w', pos, startFacing, d.base, d.axis, d.site, FlatScan(w', pos).value);
      EndsInTheDoorway(w, w', pos, startFacing, d.base, d.axis, d.site,
                       if CanHold(w, Inside(d.base, d.axis, 1)) then 1 else 2);
    }
  }

  lemma SomeFootIsHeld(w: World, w': World, pos: Vec3, startFacing: nat, base: Int3, axis: Facing, site: bool, p: Int3)
    requires FlatScan(w, pos).None? && Picked(w, pos, startFacing, base, axis, site) && FlatScan(w', pos) == Some(p)
    requires forall p :: GetBlockId(w', p) == Created(w, base, axis, site, p)
    ensures CanHold(w, Inside(base, axis, 1)) || CanHold(w, Inside(base, axis, 2))
  {
    hide *;
    ScanFindsTheNearest(w', pos, p);
    FootOfTheDoorway(w, w', pos, startFacing, base, axis, site, p);
  }

  // The entity ends up in the nearest portal of its square, an old one or else the one just built; it
  // stays where it is if and only if there is no old one and nowhere to build.
  method PlaceAtValidTransferSpot(m: WorldManager, e: Entity, startFacing: nat)
    returns (placed: bool, ghost built: Option<Doorway>)
    requires startFacing < 4 && AIR !in m.world.solid
    modifies m, e
    ensures built.None? <==> old(FlatScan(m.world, e.position)).Some?
    ensures built.None? ==> placed && m.world == old(m.world)
    ensures built.Some? ==> StandsIn(old(m.world), m.world, old(e.position), startFacing, built.value)
    ensures built.Some? ==> placed == CanBuild(old(m.world), old(e.position), startFacing)
    ensures built.Some? && placed ==> EndsIn(old(m.world), built.value, e.position)
    ensures var there := FlatScan(m.world, old(e.position));
            && placed == there.Some?
            && e.position == (if placed then Target(m.world, there.value) else old(e.position))
  {
    built := None;
    placed := PlaceInExistingPortal(m, e);
    if !placed {
      ghost var w := m.world;
      var base, axis, site := m.CreatePortal(e.position, startFacing);
      built := Some(Doorway(base, axis, site));
      PlacedInDoorway(w, m.world, e.position, startFacing, built.value);
      placed := PlaceInExistingPortal(m, e);
    }
  }
}
