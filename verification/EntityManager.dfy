// EntityManager on objects: the master list, the bucket index beside it, the dead-entity sweep, box
// queries, and the tick that walks ride chains. Proved against modules EntityIndex and Riding.
module EntityManaging {
  import opened Sequences
  import opened EntityIndex
  import Riding
  import RideDeaths

  // ----- agreement of the index with the master list, as values -----

  // Every indexed pointer is a managed entity in the bucket recorded for it.
  ghost predicate Placed<E>(m: Index<E>, pos: map<E, BucketPos>)
  {
    forall k, y, i :: k in m && 0 <= y < |m[k]| && 0 <= i < |m[k][y].entities| ==>
      m[k][y].entities[i] in pos && pos[m[k][y].entities[i]] == BucketPos(k.x, k.z, y)
  }

  // `pos` gives every managed entity its recorded bucket. Nothing is indexed anywhere else or twice,
  // all of `must` is indexed, and the collider lists hold the indexed members of `solid`.
  ghost predicate Agree<E>(m: Index<E>, pos: map<E, BucketPos>, must: set<E>, solid: set<E>)
  {
    && WellFormed(m)
    && Placed(m, pos)
    && (forall e :: e in pos ==> 0 <= pos[e].y < BUCKETS)
    && (forall e :: e in must ==> e in pos && InBucket(m, pos[e], e))
    && (forall b, e :: e in pos ==> (InColliders(m, b, e) <==> InBucket(m, b, e) && e in solid))
  }

  lemma PlacedSpec<E>(m: Index<E>, pos: map<E, BucketPos>)
    ensures Placed(m, pos) <==> forall b, e :: InBucket(m, b, e) ==> e in pos && pos[e] == b
  {
    if forall b, e :: InBucket(m, b, e) ==> e in pos && pos[e] == b {
      forall k, y, i | k in m && 0 <= y < |m[k]| && 0 <= i < |m[k][y].entities|
        ensures m[k][y].entities[i] in pos && pos[m[k][y].entities[i]] == BucketPos(k.x, k.z, y)
      {
        assert InBucket(m, BucketPos(k.x, k.z, y), m[k][y].entities[i]);
      }
    }
  }

  lemma EraseAgrees<E>(m: Index<E>, pos: map<E, BucketPos>, must: set<E>, solid: set<E>, e: E)
    requires Agree(m, pos, must, solid) && e in pos
    ensures Agree(Erase(m, pos[e], e), pos - {e}, must - {e}, solid)
  {
    EraseSpec(m, pos[e], e);
    PlacedSpec(m, pos);
    PlacedSpec(Erase(m, pos[e], e), pos - {e});
    hide WellFormed, InBucket, InColliders, Erase, Placed;
  }

  lemma InsertAgrees<E>(m: Index<E>, pos: map<E, BucketPos>, must: set<E>, solid: set<E>, e: E, b: BucketPos)
    requires Agree(m, pos, must, solid) && e !in pos && 0 <= b.y < BUCKETS
    ensures Agree(Insert(m, b, e, e in solid), pos[e := b], must + {e}, solid)
  {
    hide WellFormed, InBucket, InColliders, Insert, Placed;
    PlacedSpec(m, pos);
    CollidersAreMembers(m, e);
    InsertSpec(m, b, e, e in solid);
    PlacedSpec(Insert(m, b, e, e in solid), pos[e := b]);
  }

  lemma CollidersAreMembers<E>(m: Index<E>, e: E)
    requires WellFormed(m)
    ensures forall b :: InColliders(m, b, e) ==> InBucket(m, b, e)
  {
  }

  lemma MoveAgrees<E>(m: Index<E>, pos: map<E, BucketPos>, must: set<E>, solid: set<E>, e: E, b: BucketPos)
    requires Agree(m, pos, must, solid) && e in pos && 0 <= b.y < BUCKETS
    ensures Agree(Insert(Erase(m, pos[e], e), b, e, e in solid), pos[e := b], must, solid)
  {
    EraseAgrees(m, pos, must, solid, e);
    var gone := pos - {e};
    InsertAgrees(Erase(m, pos[e], e), gone, must - {e}, solid, e, b);
    assert gone[e := b] == pos[e := b];
    hide WellFormed, InBucket, InColliders, Insert, Erase, Placed;
    assert must <= must - {e} + {e};
  }

  // Erasing a whole column is safe for exactly the entities outside it.
  lemma DropColumnAgrees<E>(m: Index<E>, pos: map<E, BucketPos>, must: set<E>, solid: set<E>, k: Column)
    requires Agree(m, pos, must, solid)
    ensures Agree(m - {k}, pos, must, solid) <==> forall e :: e in must ==> ColumnOf(pos[e]) != k
  {
    assert forall b, e :: InBucket(m - {k}, b, e) <==> InBucket(m, b, e) && ColumnOf(b) != k;
    assert forall b, e :: InColliders(m - {k}, b, e) <==> InColliders(m, b, e) && ColumnOf(b) != k;
    assert WellFormed(m - {k});
    PlacedSpec(m, pos);
    PlacedSpec(m - {k}, pos);
    hide WellFormed, InBucket, InColliders, Placed;
  }

  lemma FewerMust<E>(m: Index<E>, pos: map<E, BucketPos>, must: set<E>, less: set<E>, solid: set<E>)
    requires Agree(m, pos, must, solid) && less <= must
    ensures Agree(m, pos, less, solid)
  {
  }

  // Only the managed part of `solid` matters.
  lemma FewerSolid<E>(m: Index<E>, pos: map<E, BucketPos>, must: set<E>, solid: set<E>, solid': set<E>)
    requires Agree(m, pos, must, solid) && forall e :: e in pos ==> (e in solid <==> e in solid')
    ensures Agree(m, pos, must, solid')
  {
  }

  lemma AddAgrees<E>(m: Index<E>, pos: map<E, BucketPos>, must: set<E>, solid: set<E>, e: E, b: BucketPos,
                     isSolid: bool, must': set<E>)
    requires Agree(m, pos, must, solid) && e !in pos && e !in solid && 0 <= b.y < BUCKETS && must' <= must + {e}
    ensures Agree(Insert(m, b, e, isSolid), pos[e := b], must', if isSolid then solid + {e} else solid)
  {
    var solid' := if isSolid then solid + {e} else solid;
    FewerSolid(m, pos, must, solid, solid');
    InsertAgrees(m, pos, must, solid', e, b);
  }

  // ----- objects -----

  class Entity {
    const isPlayer: bool
    const actsAsWorldCollider: bool
    // Whether SerializeToNbt has a form for this type.
    const hasNbt: bool
    const height: real
    var id: int
    var position: Vec3
    var collider: Aabb
    var bucketPos: BucketPos
    var isDead: bool
    // Weak pointers: an expired one behaves like one to a dead entity.
    var vehicle: Entity?
    var passenger: Entity?

    constructor (isPlayer: bool, solid: bool, hasNbt: bool, height: real, position: Vec3, collider: Aabb)
      ensures !isDead && vehicle == null && passenger == null
    {
      this.isPlayer, this.actsAsWorldCollider, this.hasNbt, this.height := isPlayer, solid, hasNbt, height;
      this.id, this.position, this.collider, this.bucketPos := -1, position, collider, BucketPos(0, 0, 0);
      isDead, vehicle, passenger := false, null, null;
    }

    // The recorded bucket is that of the present position.
    predicate Current()
      reads this`bucketPos, this`position
    {
      bucketPos == ComputeBucketPos(position)
    }

    // ... and the collider is within the query margin.
    predicate Near()
      reads this`bucketPos, this`position, this`collider
    {
      Current() && ColliderWithin(position, collider, 2.0)
    }
  }

  // The place of the first entity with this id, or the length if there is none.
  function FirstWith(q: seq<Entity>, id: int): (k: nat)
    reads q`id
    ensures k <= |q| && (k < |q| ==> q[k].id == id) && forall j :: 0 <= j < k ==> q[j].id != id
  {
    if q == [] then 0 else if q[0].id == id then 0 else 1 + FirstWith(q[1..], id)
  }

  predicate DistinctIds(q: seq<Entity>)
    reads q`id
  {
    forall i, j :: 0 <= i < j < |q| ==> q[i].id != q[j].id
  }

  function Items(q: seq<Entity>): (r: seq<Item>)
    reads q`id, q`isDead
    ensures |r| == |q| && forall i :: 0 <= i < |q| ==> r[i] == Item(q[i].id, q[i].isDead)
  {
    if q == [] then [] else [Item(q[0].id, q[0].isDead)] + Items(q[1..])
  }

  lemma RemoveFirstItem(q: seq<Entity>, k: nat)
    requires k < |q| && k == FirstWith(q, q[k].id)
    ensures RemoveFirst(Items(q), q[k].id) == Items(q[..k] + q[k + 1..])
  {
    var f := RemoveFirstAt(Items(q), k);
    hide RemoveFirst, FirstWith, Items;
    assert Items(q)[f].id == q[f].id;
    assert f == k;
    SplitItems(q, k);
  }

  lemma SplitItems(q: seq<Entity>, k: nat)
    requires k < |q|
    ensures Items(q)[..k] + Items(q)[k + 1..] == Items(q[..k] + q[k + 1..])
  {
    hide Items;
  }

  method ScanBucket(list: seq<Entity>, box: Aabb, acc: seq<Entity>) returns (r: seq<Entity>)
    requires NoDup(list) && NoDup(acc) && forall e :: e in list ==> e !in acc
    ensures NoDup(r) && forall e :: e in r <==> e in acc || (e in list && Intersects(e.collider, box))
  {
    r := acc;
    var i := 0;
    while i < |list|
      invariant 0 <= i <= |list| && NoDup(r)
      invariant forall e :: e in r <==> e in acc || (e in list[..i] && Intersects(e.collider, box))
    {
      assert list[..i + 1] == list[..i] + [list[i]];
      assert list[i] !in list[..i];
      if Intersects(list[i].collider, box) {
        r := r + [list[i]];
      }
      i := i + 1;
    }
    assert list[..i] == list;
  }

  method CollectBucket(list: seq<Entity>, clear: bool, acc: seq<Entity>) returns (r: seq<Entity>)
    requires NoDup(list) && NoDup(acc) && forall e :: e in list ==> e !in acc
    modifies (set e | e in list)`isDead
    ensures NoDup(r)
    ensures forall e :: e in r <==> e in acc || (e in list && old(!e.isDead) && !e.isPlayer && e.hasNbt)
    ensures forall e :: e in list ==> e.isDead == (old(e.isDead) || (clear && !e.isPlayer))
  {
    r := acc;
    var i := 0;
    while i < |list|
      invariant 0 <= i <= |list| && NoDup(r)
      invariant forall e :: e in r <==> e in acc || (e in list[..i] && old(!e.isDead) && !e.isPlayer && e.hasNbt)
      invariant forall e :: e in list[..i] ==> e.isDead == (old(e.isDead) || (clear && !e.isPlayer))
      invariant forall e :: e in list[i..] ==> e.isDead == old(e.isDead)
    {
      var e := list[i];
      assert list[..i + 1] == list[..i] + [e] && list[i..] == [e] + list[i + 1..];
      assert e !in list[..i] && e !in list[i + 1..];
      i := i + 1;
      if e.isDead || e.isPlayer {
        continue;
      }
      if clear {
        e.isDead := true;
      }
      if e.hasNbt {
        r := r + [e];
      }
    }
    assert list[..i] == list;
  }

  class EntityManager {
    var entities: seq<Entity>
    var containers: Index<Entity>
    var nextEntityId: int
    // Every entity whose Tick ran, in order.
    ghost var ticked: seq<Entity>

    constructor (firstId: int)
      ensures Valid() && entities == []
    {
      entities, containers, nextEntityId, ticked := [], map[], firstId, [];
    }

    function Pos(): map<Entity, BucketPos>
      reads this`entities, entities`bucketPos
    {
      map e | e in entities :: e.bucketPos
    }

    function Live(): set<Entity>
      reads this`entities, entities`isDead
    {
      set e | e in entities && !e.isDead
    }

    function Solid(): set<Entity>
      reads this`entities
    {
      set e | e in entities && e.actsAsWorldCollider
    }

    ghost predicate Valid()
      reads this`entities, this`containers, entities`bucketPos, entities`isDead
    {
      NoDup(entities) && Agree(containers, Pos(), Live(), Solid())
    }

    predicate Indexed(e: Entity)
      reads this`containers, e`bucketPos
    {
      InBucket(containers, e.bucketPos, e)
    }

    // Links lead to managed entities or to dead ones.
    ghost predicate LinksInside()
      reads this`entities, entities`vehicle, entities`passenger
      reads (set e | e in entities && e.vehicle != null :: e.vehicle)`isDead
      reads (set e | e in entities && e.passenger != null :: e.passenger)`isDead
    {
      && (forall e :: e in entities && e.vehicle != null && e.vehicle !in entities ==> e.vehicle.isDead)
      && (forall e :: e in entities && e.passenger != null && e.passenger !in entities ==> e.passenger.isDead)
    }

    // Between live entities no link points one way only.
    ghost predicate Paired()
      reads this`entities, entities`isDead, entities`vehicle, entities`passenger
    {
      forall a, b :: a in Live() && b in Live() ==> (a.vehicle == b <==> b.passenger == a)
    }

    // What riding needs of the links: both of the above.
    ghost predicate Linked()
      reads this`entities, entities`isDead, entities`vehicle, entities`passenger
      reads (set e | e in entities && e.vehicle != null :: e.vehicle)`isDead
      reads (set e | e in entities && e.passenger != null :: e.passenger)`isDead
    {
      LinksInside() && Paired()
    }

    // e rides nothing, carries nothing, and nobody here points at it.
    ghost predicate Loose(e: Entity)
      reads e`vehicle, e`passenger, this`entities, entities`vehicle, entities`passenger
    {
      e.vehicle == null && e.passenger == null && forall a :: a in entities ==> a.vehicle != e && a.passenger != e
    }

    // Fewer live entities with the same links, all others dead, are as well linked.
    twostate lemma StillLinked()
      requires old(Linked())
      requires forall e :: e in entities ==>
               e in old(entities) && e.vehicle == old(e.vehicle) && e.passenger == old(e.passenger)
      requires forall e :: e in old(entities) ==> (e in entities || e.isDead) && (old(e.isDead) ==> e.isDead)
      requires forall e :: e in entities && old(e.vehicle) != null && old(e.vehicle.isDead) ==> old(e.vehicle).isDead
      requires forall e :: e in entities && old(e.passenger) != null && old(e.passenger.isDead) ==>
               old(e.passenger).isDead
      ensures Linked()
    {
      assert forall e :: e in Live() ==> e in old(Live());
    }

    method AddEntity(e: Entity, forceEntityId: int, allowed: bool)
      requires Valid() && e !in entities
      modifies this`entities, this`containers, this`nextEntityId, e`id, e`bucketPos
      ensures Valid()
      ensures !allowed ==> entities == old(entities) && containers == old(containers)
      ensures allowed ==> entities == old(entities) + [e] && e.Current()
      ensures allowed ==> e.id == if forceEntityId == -1 then old(nextEntityId) else forceEntityId
      ensures nextEntityId == old(nextEntityId) + if allowed && forceEntityId == -1 then 1 else 0
      ensures old(Linked()) && (allowed ==> old(Loose(e))) ==> Linked()
    {
      if !allowed {
        return;
      }
      hide *;
      if forceEntityId == -1 {
        e.id := nextEntityId;
        nextEntityId := nextEntityId + 1;
      } else {
        e.id := forceEntityId;
      }
      Register(e);
      if old(Linked() && Loose(e)) {
        LooseFits(e);
      }
    }

    twostate lemma LooseFits(e: Entity)
      requires old(Linked()) && old(Loose(e)) && entities == old(entities) + [e]
      requires e.vehicle == null && e.passenger == null && e.isDead == old(e.isDead)
      requires forall a :: a in old(entities) ==>
        a.vehicle == old(a.vehicle) && a.passenger == old(a.passenger) && a.isDead == old(a.isDead)
      requires forall a :: a in old(entities) && a.vehicle != null ==> a.vehicle.isDead == old(a.vehicle.isDead)
      requires forall a :: a in old(entities) && a.passenger != null ==> a.passenger.isDead == old(a.passenger.isDead)
      ensures Linked()
    {
      assert forall a :: a in Live() <==> a in old(Live()) || (a == e && !e.isDead);
    }

    // The tail of AddEntity: into the first bucket and onto the master list.
    method Register(e: Entity)
      requires Valid() && e !in entities
      modifies this`entities, this`containers, e`bucketPos
      ensures Valid()
      ensures entities == old(entities) + [e] && e.Current()
    {
      ghost var pos, must, solid := Pos(), Live(), Solid();
      hide Agree, Insert, Erase;
      e.bucketPos := ComputeBucketPos(e.position);
      AddAgrees(containers, pos, must, solid, e, e.bucketPos,
        e.actsAsWorldCollider, must + if e.isDead then {} else {e});
      containers := Insert(containers, e.bucketPos, e, e.actsAsWorldCollider);
      entities := entities + [e];
      assert Pos() == pos[e := e.bucketPos];
      assert Solid() == if e.actsAsWorldCollider then solid + {e} else solid;
      assert Live() == must + if e.isDead then {} else {e};
    }

    method RemoveEntity(id: int)
      requires Valid()
      modifies this`entities, this`containers, (set e | e in entities)`isDead
      ensures Valid()
      ensures var k := old(FirstWith(entities, id));
              if k == |old(entities)| then
                entities == old(entities) && containers == old(containers)
                && forall e :: e in old(entities) ==> e.isDead == old(e.isDead)
              else
                var gone := old(entities)[k];
                entities == old(entities)[..k] + old(entities)[k + 1..]
                && containers == old(Erase(containers, gone.bucketPos, gone))
                && forall e :: e in old(entities) ==> e.isDead == (old(e.isDead) || e == gone)
      ensures old(Linked()) ==> Linked()
    {
      hide Valid, Linked;
      var k := 0;
      while k < |entities| && entities[k].id != id
        invariant k <= |entities| && forall j :: 0 <= j < k ==> entities[j].id != id
      {
        k := k + 1;
      }
      assert k == FirstWith(entities, id);
      if k < |entities| {
        hide *;
        RemoveAt(k, entities[k]);
        if old(Linked()) {
          StillLinked();
        }
      }
    }

    // The rest of RemoveEntity, for the entity found.
    method RemoveAt(k: nat, e: Entity)
      requires Valid() && k < |entities| && entities[k] == e
      modifies this`entities, this`containers, e`isDead
      ensures Valid()
      ensures entities == old(entities)[..k] + old(entities)[k + 1..] && e.isDead
      ensures containers == old(Erase(containers, e.bucketPos, e))
    {
      ghost var pos, must, solid := Pos(), Live(), Solid();
      hide Agree, Erase;
      assert e in pos && pos[e] == e.bucketPos;
      EraseAgrees(containers, pos, must, solid, e);
      FewerSolid(Erase(containers, e.bucketPos, e), pos - {e}, must - {e}, solid, solid - {e});
      hide NoDup;
      containers := Erase(containers, e.bucketPos, e);
      entities := entities[..k] + entities[k + 1..];
      e.isDead := true;
      assert Pos() == pos - {e};
      assert Live() == must - {e};
      assert Solid() == solid - {e};
    }

    // ----- the box query -----

    ghost predicate Hit(e: Entity, box: Aabb)
      reads this`containers, e`bucketPos, e`collider
    {
      Indexed(e) && Intersects(e.collider, box) && SpanOf(box).Contains(e.bucketPos)
    }

    // Every indexed entity of the column's visited buckets that the box meets, each once.
    method ScanColumn(x: int, z: int, box: Aabb, acc: seq<Entity>) returns (r: seq<Entity>)
      requires Valid() && NoDup(acc) && forall e :: e in acc ==> e in entities && ColumnOf(e.bucketPos) != Column(x, z)
      requires SpanOf(box).minX <= x <= SpanOf(box).maxX && SpanOf(box).minZ <= z <= SpanOf(box).maxZ
      ensures NoDup(r)
      ensures forall e ::
                e in r <==> e in acc || (e in entities && Hit(e, box) && ColumnOf(e.bucketPos) == Column(x, z))
    {
      r := acc;
      if Column(x, z) !in containers {
        return;
      }
      var y := SpanOf(box).minY;
      while y <= SpanOf(box).maxY
        invariant SpanOf(box).minY <= y && NoDup(r)
        invariant forall e ::
                    e in r <==> e in acc || (e in entities && Hit(e, box) && ColumnOf(e.bucketPos) == Column(x, z)
                                            && e.bucketPos.y < y)
      {
        BucketSpec(BucketPos(x, z, y));
        r := ScanBucket(containers[Column(x, z)][y].entities, box, r);
        y := y + 1;
      }
    }

    lemma BucketSpec(b: BucketPos)
      requires Valid() && ColumnOf(b) in containers && 0 <= b.y < BUCKETS
      ensures |containers[ColumnOf(b)]| == BUCKETS && NoDup(containers[ColumnOf(b)][b.y].entities)
      ensures forall e ::
                e in containers[ColumnOf(b)][b.y].entities <==> e in entities && Indexed(e) && e.bucketPos == b
    {
      PlacedSpec(containers, Pos());
      assert GoodBucket(containers[ColumnOf(b)][b.y]);
      forall e ensures e in containers[ColumnOf(b)][b.y].entities <==> e in entities && Indexed(e) && e.bucketPos == b {
        assert e in containers[ColumnOf(b)][b.y].entities <==> InBucket(containers, b, e);
      }
    }

    method GetEntitiesWithinAabb(box: Aabb) returns (r: seq<Entity>)
      requires Valid()
      ensures NoDup(r) && forall e :: e in r <==> e in entities && Hit(e, box)
      ensures (forall e :: e in entities && Indexed(e) ==> e.Near()) ==>
        forall e :: e in r <==> e in entities && Indexed(e) && Intersects(e.collider, box)
    {
      r := [];
      var span := SpanOf(box);
      var x := span.minX;
      while x <= span.maxX
        invariant span.minX <= x && NoDup(r)
        invariant forall e :: e in r <==> e in entities && Hit(e, box) && e.bucketPos.x < x
      {
        r := ScanRow(x, box, r);
        x := x + 1;
      }
      forall e | e in entities && e.Near() && Intersects(e.collider, box) ensures span.Contains(e.bucketPos) {
        QueryVisitsBucket(e.position, e.collider, box);
      }
    }

    method ScanRow(x: int, box: Aabb, acc: seq<Entity>) returns (r: seq<Entity>)
      requires Valid() && NoDup(acc) && forall e :: e in acc ==> e in entities && e.bucketPos.x != x
      requires SpanOf(box).minX <= x <= SpanOf(box).maxX
      ensures NoDup(r) && forall e :: e in r <==> e in acc || (e in entities && Hit(e, box) && e.bucketPos.x == x)
    {
      r := acc;
      var span := SpanOf(box);
      var z := span.minZ;
      while z <= span.maxZ
        invariant span.minZ <= z && NoDup(r)
        invariant forall e ::
                    e in r <==> e in acc || (e in entities && Hit(e, box) && e.bucketPos.x == x && e.bucketPos.z < z)
      {
        r := ScanColumn(x, z, box, r);
        z := z + 1;
      }
    }

    // ----- saving a column -----

    // Whether collecting column k picks this entity.
    predicate Saves(k: Column, e: Entity)
      reads this`containers, e`bucketPos, e`isDead
    {
      Indexed(e) && ColumnOf(e.bucketPos) == k && !e.isDead && !e.isPlayer
    }

    ghost predicate LiveIn(k: Column)
      reads this`entities, entities`bucketPos, entities`isDead
    {
      exists e :: e in entities && !e.isDead && ColumnOf(e.bucketPos) == k
    }

    ghost predicate LivePlayerIn(k: Column)
      reads this`entities, entities`bucketPos, entities`isDead
    {
      exists e :: e in entities && !e.isDead && e.isPlayer && ColumnOf(e.bucketPos) == k
    }

    // With `clear` the collected entities die, whether or not they had a form to be saved in, and the
    // column goes. That keeps the index right if and only if no live player is in the column.
    method CollectEntitiesForSave(k: Column, clear: bool) returns (saved: seq<Entity>)
      requires Valid()
      modifies this`containers, (set e | e in entities)`isDead
      ensures NoDup(saved) && forall e :: e in saved <==> e in entities && old(Saves(k, e)) && e.hasNbt
      ensures forall e :: e in entities ==> e.isDead == (old(e.isDead) || (clear && old(Saves(k, e))))
      ensures containers == if clear then old(containers) - {k} else old(containers)
      ensures Valid() <==> !(clear && old(LivePlayerIn(k)))
      ensures old(Linked()) ==> Linked()
    {
      hide *;
      saved := CollectIfPresent(k, clear);
      DropKeepsValid(k);
      if clear {
        containers := containers - {k};
      }
      ValidMeans();
    }

    lemma ValidMeans()
      ensures Valid() <==> NoDup(entities) && Agree(containers, Pos(), Live(), Solid())
    {
      hide NoDup, Agree;
    }

    method CollectIfPresent(k: Column, clear: bool) returns (saved: seq<Entity>)
      requires Valid()
      modifies (set e | e in entities)`isDead
      ensures Valid()
      ensures NoDup(saved) && forall e :: e in saved <==> e in entities && old(Saves(k, e)) && e.hasNbt
      ensures forall e :: e in entities ==> e.isDead == (old(e.isDead) || (clear && old(Saves(k, e))))
      ensures clear ==> (LiveIn(k) <==> old(LivePlayerIn(k)))
      ensures old(Linked()) ==> Linked()
    {
      LiveIsIndexed();
      saved := [];
      if k in containers {
        hide *;
        saved := CollectColumn(k, clear);
      }
    }

    lemma DropKeepsValid(k: Column)
      requires Valid()
      ensures (NoDup(entities) && Agree(containers - {k}, Pos(), Live(), Solid()))
        <==> !LiveIn(k)
      ensures k !in containers ==> containers - {k} == containers
    {
      hide Agree, NoDup;
      var pos, live := Pos(), Live();
      DropColumnAgrees(containers, pos, live, Solid(), k);
      LiveInMeans(k);
    }

    lemma LiveInMeans(k: Column)
      ensures LiveIn(k) <==> exists e :: e in Live() && ColumnOf(Pos()[e]) == k
    {
      if LiveIn(k) {
        var e :| e in entities && !e.isDead && ColumnOf(e.bucketPos) == k;
        assert e in Live() && Pos()[e] == e.bucketPos;
      }
    }

    method CollectColumn(k: Column, clear: bool) returns (saved: seq<Entity>)
      requires Valid() && k in containers
      modifies (set e | e in entities)`isDead
      ensures Valid()
      ensures NoDup(saved) && forall e :: e in saved <==> e in entities && old(Saves(k, e)) && e.hasNbt
      ensures forall e :: e in entities ==> e.isDead == (old(e.isDead) || (clear && old(Saves(k, e))))
      ensures old(Linked()) ==> Linked()
    {
      LiveIsIndexed();
      saved := [];
      hide *;
      var y := 0;
      while y < BUCKETS
        invariant 0 <= y <= BUCKETS && NoDup(saved) && Valid()
        invariant forall e :: e in saved <==> e in entities && old(Saves(k, e)) && e.hasNbt && e.bucketPos.y < y
        invariant forall e :: e in entities ==>
                  e.isDead == (old(e.isDead) || (clear && old(Saves(k, e)) && e.bucketPos.y < y))
      {
        saved := CollectNext(k, y, clear, saved);
        y := y + 1;
      }
      if old(Linked()) {
        StillLinked();
      }
    }

    method CollectNext(k: Column, y: nat, clear: bool, acc: seq<Entity>) returns (saved: seq<Entity>)
      requires Valid() && k in containers && y < BUCKETS
      requires NoDup(acc) && forall e :: e in acc ==> e in entities && e.bucketPos.y < y
      modifies (set e | e in entities)`isDead
      ensures Valid() && NoDup(saved)
      ensures forall e ::
                e in saved <==> e in acc || (e in entities && old(Saves(k, e)) && e.hasNbt && e.bucketPos.y == y)
      ensures forall e :: e in entities ==>
              e.isDead == (old(e.isDead) || (clear && old(Saves(k, e)) && e.bucketPos.y == y))
    {
      BucketSpec(BucketPos(k.x, k.z, y));
      hide Agree, NoDup, InBucket;
      ghost var live := Live();
      saved := CollectBucket(containers[k][y].entities, clear, acc);
      FewerMust(containers, Pos(), live, Live(), Solid());
    }

    lemma NoneTwice()
      requires Valid()
      ensures NoDup(entities)
    {
    }

    lemma LiveIsIndexed()
      requires Valid()
      ensures forall e :: e in Live() ==> e in entities && Indexed(e) && ColumnOf(e.bucketPos) in containers
      ensures forall e :: e in entities ==> 0 <= e.bucketPos.y < BUCKETS
    {
      assert forall e :: e in entities ==> Pos()[e] == e.bucketPos;
    }

    // The middle of TickEntityAndPassenger: follow the entity into the bucket of its new position.
    method UpdateBucket(e: Entity)
      requires Valid() && e in entities
      modifies this`containers, e`bucketPos
      ensures Valid() && e.Current()
    {
      var newBucketPos := ComputeBucketPos(e.position);
      if newBucketPos != e.bucketPos {
        ManagedColliders();
        hide *;
        containers := Insert(Erase(containers, e.bucketPos, e), newBucketPos, e, e.actsAsWorldCollider);
        e.bucketPos := newBucketPos;
        Rebucketed((e, newBucketPos));
      }
    }

    twostate lemma Rebucketed(move: (Entity, BucketPos))
      requires old(Valid()) && entities == old(entities) && move.0 in entities
      requires move.1 == ComputeBucketPos(move.0.position)
      requires containers ==
        old(Insert(Erase(containers, move.0.bucketPos, move.0), move.1, move.0, move.0.actsAsWorldCollider))
      requires forall a :: a in entities ==> a.isDead == old(a.isDead)
      requires forall a :: a in entities ==> a.bucketPos == if a == move.0 then move.1 else old(a.bucketPos)
      ensures Valid()
    {
      hide Agree, NoDup, Insert, Erase;
      ghost var pos, must, solid := old(Pos()), old(Live()), old(Solid());
      assert 0 <= move.1.y < BUCKETS;
      hide ComputeBucketPos;
      assert pos[move.0] == old(move.0.bucketPos) && (move.0 in solid) == move.0.actsAsWorldCollider;
      MoveAgrees(old(containers), pos, must, solid, move.0, move.1);
      assert Pos() == pos[move.0 := move.1];
      assert Live() == must && Solid() == solid;
    }

    lemma ManagedColliders()
      ensures forall e :: e in Solid() <==> e in entities && e.actsAsWorldCollider
    {
    }

    // ----- riding -----

    // The rides on which both ends agree, between live managed entities.
    function Up(): map<Entity, Entity>
      reads this`entities, entities`isDead, entities`vehicle, entities`passenger
    {
      map e | e in entities && !e.isDead && e.vehicle != null && e.vehicle in entities && !e.vehicle.isDead
              && e.vehicle.passenger == e :: var v: Entity := e.vehicle; v
    }

    function Dn(): map<Entity, Entity>
      reads this`entities, entities`isDead, entities`vehicle, entities`passenger
    {
      map v | v in entities && !v.isDead && v.passenger != null && v.passenger in entities && !v.passenger.isDead
              && v.passenger.vehicle == v :: var p: Entity := v.passenger; p
    }

    lemma LinksAreMutual()
      ensures Riding.Mutual(Up(), Dn()) && Up().Values <= Live() && Dn().Values <= Live()
    {
    }

    ghost predicate AllCurrent(xs: seq<Entity>)
      reads this`entities, entities`bucketPos, entities`position
    {
      forall x :: x in xs && x in entities ==> x.Current()
    }

    // e gets off. It is put where its vehicle is, so its bucket is out of date until it ticks.
    method UnmountEntity(e: Entity)
      requires Valid() && Linked() && e in Live()
      modifies e`vehicle, e`position, e`collider
      modifies (if e.vehicle == null then {} else {e.vehicle})`passenger
      ensures Valid() && Linked() && e.vehicle == null
      ensures Up() == old(Up()) - {e}
      ensures e.position == if old(e.vehicle) == null then old(e.position)
                            else Vec3(old(e.vehicle.position.x), old(e.vehicle.collider.minY) + old(e.vehicle.height),
                                      old(e.vehicle.position.z))
    {
      hide *;
      LiveMeansAlive();
      if e.vehicle != null {
        e.position := Vec3(e.vehicle.position.x, e.vehicle.collider.minY + e.vehicle.height, e.vehicle.position.z);
        e.collider := *;
      }
      Leave(e);
    }

    method Leave(e: Entity)
      requires Linked() && e in Live()
      modifies e`vehicle, (if e.vehicle == null then {} else {e.vehicle})`passenger
      ensures Linked() && e.vehicle == null && Up() == old(Up()) - {e}
    {
      PairedMeans();
      hide *;
      Unlink(e);
      AfterUnmount(e);
    }

    method Unlink(e: Entity)
      requires LinksInside() && e in entities
      modifies e`vehicle, (if e.vehicle == null then {} else {e.vehicle})`passenger
      ensures LinksInside() && e.vehicle == null
      ensures forall a :: a in entities ==> a.vehicle == if a == e then null else old(a.vehicle)
      ensures forall a :: a in entities ==> a.passenger == if a == old(e.vehicle) then null else old(a.passenger)
    {
      hide *;
      if e.vehicle != null {
        e.vehicle.passenger := null;
      }
      e.vehicle := null;
      StillInside();
    }

    twostate lemma AfterUnmount(e: Entity)
      requires forall a, b :: a in old(Live()) && b in old(Live()) ==> (old(a.vehicle) == b <==> old(b.passenger) == a)
      requires entities == old(entities) && e in old(Live()) && forall a :: a in entities ==> a.isDead == old(a.isDead)
      requires forall a :: a in entities ==> a.vehicle == if a == e then null else old(a.vehicle)
      requires forall a :: a in entities ==> a.passenger == if a == old(e.vehicle) then null else old(a.passenger)
      ensures Paired() && Up() == old(Up()) - {e}
    {
    }

    // The entity that is found under e's id: e itself unless a twin comes first.
    function Self(e: Entity): Entity
      reads this`entities, entities`id, e`id
    {
      if FirstWith(entities, e.id) < |entities| then entities[FirstWith(entities, e.id)] else e
    }

    // e gets on v, or off if it is on v already or v is nothing. The vehicle is given the entity found
    // under e's id; if that is a twin, e sits on a vehicle that does not carry it, and the links no
    // longer agree.
    method MountEntity(e: Entity, v: Entity?)
      requires Valid() && Linked() && e in Live() && (v != null ==> v in Live())
      modifies entities`vehicle, entities`passenger, e`position, e`collider
      modifies (if e.vehicle == null then {} else {e.vehicle})`passenger
      modifies (if v == null || v.passenger == null then {} else {v.passenger})`vehicle
      ensures Valid() && LinksInside()
      ensures var boards := v != null && v != old(e.vehicle);
              && (Linked() <==> boards ==> Self(e) == e)
              && Up() == if !boards then old(Up()) - {e}
                         else if Self(e) == e then Riding.Mounted<Entity>(old(Up()), e, v)
                         else Riding.Mounted<Entity>(old(Up()), e, v) - {e}
      ensures v != null && v != old(e.vehicle) ==> e.vehicle == v && v.passenger == Self(e)
      ensures e.position == if old(e.vehicle) == null then old(e.position)
                            else Vec3(old(e.vehicle.position.x), old(e.vehicle.collider.minY) + old(e.vehicle.height),
                                      old(e.vehicle.position.z))
    {
      hide *;
      LiveMeansAlive();
      LinkedMeans();
      if v != null && v != e.vehicle {
        Riding.MountedForgets<Entity>(Up(), e, v);
        UnmountEntity(e);
        SeatOn(e, v);
      } else {
        UnmountEntity(e);
        LinkedMeans();
      }
    }

    lemma LinkedMeans()
      ensures Linked() <==> LinksInside() && Paired()
    {
    }

    // The middle of MountEntity: put v's rider off and join the two.
    method SeatOn(e: Entity, v: Entity)
      requires Linked() && e in Live() && v in Live() && e.vehicle == null
      modifies e`vehicle, v`passenger
      modifies (if v.passenger == null then {} else {v.passenger})`vehicle
      ensures LinksInside() && (Linked() <==> Self(e) == e)
      ensures Up() == if Self(e) == e then Riding.Mounted<Entity>(old(Up()), e, v)
                      else Riding.Mounted<Entity>(old(Up()), e, v) - {e}
      ensures e.vehicle == v && v.passenger == Self(e)
    {
      PairedMeans();
      hide *;
      LinkedMeans();
      LiveMeansAlive();
      var self := Join(e, v);
      LiveMeansAlive();
      SeatedMeans((e, v, self));
      AfterSeat((e, v, self));
      LinkedMeans();
    }

    method Join(e: Entity, v: Entity) returns (self: Entity)
      requires LinksInside() && e in entities && v in entities
      modifies e`vehicle, v`passenger
      modifies (if v.passenger == null then {} else {v.passenger})`vehicle
      ensures LinksInside() && self == Self(e) && self in entities
      ensures forall a :: a in entities ==>
        a.vehicle == if a == e then v else if a == old(v.passenger) then null else old(a.vehicle)
      ensures forall a :: a in entities ==> a.passenger == if a == v then self else old(a.passenger)
    {
      FindsItself(e);
      self := GetEntityById(e.id);
      assert self == Self(e);
      hide *;
      Point(e, v, self);
    }

    method Point(e: Entity, v: Entity, self: Entity)
      requires LinksInside() && e in entities && v in entities && self in entities
      modifies e`vehicle, v`passenger
      modifies (if v.passenger == null then {} else {v.passenger})`vehicle
      ensures LinksInside()
      ensures forall a :: a in entities ==>
        a.vehicle == if a == e then v else if a == old(v.passenger) then null else old(a.vehicle)
      ensures forall a :: a in entities ==> a.passenger == if a == v then self else old(a.passenger)
    {
      hide *;
      if v.passenger != null {
        v.passenger.vehicle := null;
      }
      v.passenger := self;
      e.vehicle := v;
      StillInside();
    }

    // The rider, the vehicle, and the entity that the vehicle was given in the rider's place.
    ghost predicate Seated(ends: (Entity, Entity, Entity))
      reads this`entities, entities`isDead, entities`vehicle, entities`passenger
    {
      && ends.0 in Live() && ends.1 in Live() && ends.2 in entities
      && ends.0.vehicle == ends.1 && ends.1.passenger == ends.2
    }

    lemma SeatedMeans(ends: (Entity, Entity, Entity))
      requires ends.0 in Live() && ends.1 in Live() && ends.2 in entities
      requires ends.0.vehicle == ends.1 && ends.1.passenger == ends.2
      ensures Seated(ends)
    {
    }

    twostate lemma AfterSeat(ends: (Entity, Entity, Entity))
      requires entities == old(entities) && Seated(ends) && ends.0 in old(Live()) && ends.1 in old(Live())
      requires old(ends.0.vehicle) == null
      requires forall a, b :: a in old(Live()) && b in old(Live()) ==> (old(a.vehicle) == b <==> old(b.passenger) == a)
      requires forall a :: a in entities ==> a.isDead == old(a.isDead)
      requires forall a :: a in entities ==>
        a.vehicle == if a == ends.0 then ends.1 else if a == old(ends.1.passenger) then null else old(a.vehicle)
      requires forall a :: a in entities ==> a.passenger == if a == ends.1 then ends.2 else old(a.passenger)
      ensures Paired() <==> ends.2 == ends.0
      ensures Up() == if ends.2 == ends.0 then Riding.Mounted<Entity>(old(Up()), ends.0, ends.1)
                      else Riding.Mounted<Entity>(old(Up()), ends.0, ends.1) - {ends.0}
    {
      if ends.2 == ends.0 {
        SeatPairs(ends);
      } else {
        SeatStrands(ends);
      }
    }

    twostate lemma SeatPairs(ends: (Entity, Entity, Entity))
      requires entities == old(entities) && ends.0 in old(Live())
               && ends.1 in old(Live()) && old(ends.0.vehicle) == null
      requires ends.2 == ends.0
      requires forall a, b :: a in old(Live()) && b in old(Live()) ==> (old(a.vehicle) == b <==> old(b.passenger) == a)
      requires forall a :: a in entities ==> a.isDead == old(a.isDead)
      requires forall a :: a in entities ==>
        a.vehicle == if a == ends.0 then ends.1 else if a == old(ends.1.passenger) then null else old(a.vehicle)
      requires forall a :: a in entities ==> a.passenger == if a == ends.1 then ends.0 else old(a.passenger)
      ensures Paired() && Up() == Riding.Mounted<Entity>(old(Up()), ends.0, ends.1)
    {
    }

    twostate lemma SeatStrands(ends: (Entity, Entity, Entity))
      requires entities == old(entities) && Seated(ends) && ends.0 in old(Live()) && ends.1 in old(Live())
      requires old(ends.0.vehicle) == null && ends.2 != ends.0
      requires forall a, b :: a in old(Live()) && b in old(Live()) ==> (old(a.vehicle) == b <==> old(b.passenger) == a)
      requires forall a :: a in entities ==> a.isDead == old(a.isDead)
      requires forall a :: a in entities ==>
        a.vehicle == if a == ends.0 then ends.1 else if a == old(ends.1.passenger) then null else old(a.vehicle)
      requires forall a :: a in entities ==> a.passenger == if a == ends.1 then ends.2 else old(a.passenger)
      ensures !Paired() && Up() == Riding.Mounted<Entity>(old(Up()), ends.0, ends.1) - {ends.0}
    {
      StrandedIsUnpaired(ends);
      StrandedSeats(ends);
      hide *;
      Riding.MountedWithoutRider<Entity>(old(Up()), ends.0, ends.1);
    }

    /** The pairs left: those of before without the mounting entity and the rider it displaced. */
    twostate lemma StrandedSeats(ends: (Entity, Entity, Entity))
      requires entities == old(entities) && Seated(ends) && ends.0 in old(Live()) && ends.1 in old(Live())
      requires ends.2 != ends.0
      requires forall a, b :: a in old(Live()) && b in old(Live()) ==> (old(a.vehicle) == b <==> old(b.passenger) == a)
      requires forall a :: a in entities ==> a.isDead == old(a.isDead)
      requires forall a :: a in entities ==>
        a.vehicle == if a == ends.0 then ends.1 else if a == old(ends.1.passenger) then null else old(a.vehicle)
      requires forall a :: a in entities ==> a.passenger == if a == ends.1 then ends.2 else old(a.passenger)
      ensures Up() == map x | x in old(Up()) && x != ends.0 && old(Up())[x] != ends.1 :: old(Up())[x]
    {
      hide Paired;
      assert forall a :: a in entities && a.vehicle == ends.1 && a != ends.0 ==> a.isDead;
    }

    lemma StrandedIsUnpaired(ends: (Entity, Entity, Entity))
      requires Seated(ends) && ends.2 != ends.0
      ensures !Paired() && ends.0 !in Up()
    {
    }

    lemma PairedMeans()
      requires Paired()
      ensures forall a, b :: a in Live() && b in Live() ==> (a.vehicle == b <==> b.passenger == a)
      ensures forall e :: e in Live() <==> e in entities && !e.isDead
    {
    }

    lemma FindsItself(e: Entity)
      requires e in entities
      ensures FirstWith(entities, e.id) < |entities| && (DistinctIds(entities) ==> Self(e) == e)
    {
      var i :| 0 <= i < |entities| && entities[i] == e;
      assert FirstWith(entities, e.id) <= i;
    }

    // Links stay inside when they are kept, dropped or led to managed entities, and the dead stay dead.
    twostate lemma StillInside()
      requires old(LinksInside())
      requires forall e :: e in entities ==> e in old(entities)
      requires forall e :: e in old(entities) ==> (e in entities || e.isDead) && (old(e.isDead) ==> e.isDead)
      requires forall e :: e in entities ==> e.vehicle == null || e.vehicle in entities || e.vehicle == old(e.vehicle)
      requires forall e :: e in entities ==>
               e.passenger == null || e.passenger in entities || e.passenger == old(e.passenger)
      requires forall e :: e in entities && old(e.vehicle) != null && old(e.vehicle.isDead) ==> old(e.vehicle).isDead
      requires forall e :: e in entities && old(e.passenger) != null && old(e.passenger.isDead) ==>
               old(e.passenger).isDead
      ensures LinksInside()
    {
    }

    method GetEntityById(id: int) returns (r: Entity?)
      ensures r == null <==> forall e :: e in entities ==> e.id != id
      ensures r != null ==> r in entities && r.id == id && r == entities[FirstWith(entities, id)]
    {
      var k := 0;
      while k < |entities|
        invariant 0 <= k <= |entities| && forall j :: 0 <= j < k ==> entities[j].id != id
      {
        if entities[k].id == id {
          return entities[k];
        }
        k := k + 1;
      }
      return null;
    }

    // The live entities are `alive`, and their rides are those of the maps between two of them.
    ghost predicate Rides(up: map<Entity, Entity>, dn: map<Entity, Entity>, alive: set<Entity>)
      reads this`entities, entities`isDead, entities`vehicle, entities`passenger
    {
      Live() == alive && Up() == RideDeaths.Among<Entity>(up, alive) && Dn() == RideDeaths.Among<Entity>(dn, alive)
    }

    // One entity's own Tick: it may move and it may die, and its links stay. Then it changes buckets.
    method VisitEntity(e: Entity, dies: set<Entity>, ghost done: seq<Entity>)
      requires Valid() && Linked() && e in Live() && AllCurrent(done)
      modifies this`containers, this`ticked, e`position, e`collider, e`bucketPos, e`isDead
      ensures Valid() && Linked() && ticked == old(ticked) + [e]
      ensures e.isDead == (e in dies)
      ensures Rides(old(Up()), old(Dn()), old(Live()) - if e in dies then {e} else {})
      ensures AllCurrent(done + [e])
    {
      hide *;
      LiveMeansAlive();
      CurrentOnes(done);
      e.position := *;
      e.collider := *;
      ticked := ticked + [e];
      MayDie(e, dies);
      UpdateBucket(e);
      CurrentOnes(done + [e]);
    }

    method MayDie(e: Entity, dies: set<Entity>)
      requires Valid() && Linked() && e in Live()
      modifies e`isDead
      ensures Valid() && Linked() && e.isDead == (e in dies)
      ensures Rides(old(Up()), old(Dn()), old(Live()) - if e in dies then {e} else {})
    {
      ghost var pos, must, solid := Pos(), Live(), Solid();
      if e in dies {
        e.isDead := true;
      }
      assert Live() == must - if e in dies then {e} else {};
      FewerRide();
      hide *;
      FewerStillValid(pos, must, solid);
      StillLinked();
    }

    lemma FewerStillValid(pos: map<Entity, BucketPos>, must: set<Entity>, solid: set<Entity>)
      requires NoDup(entities) && Agree(containers, pos, must, solid)
      requires Pos() == pos && Solid() == solid && Live() <= must
      ensures Valid()
    {
      hide Agree, NoDup;
      FewerMust(containers, pos, must, Live(), solid);
    }

    twostate lemma FewerRide()
      requires entities == old(entities) && Live() <= old(Live())
      requires forall a :: a in entities ==> a.vehicle == old(a.vehicle) && a.passenger == old(a.passenger)
      requires forall a :: a in entities && old(a.isDead) ==> a.isDead
      ensures Rides(old(Up()), old(Dn()), Live())
    {
      FewerUp();
      FewerDown();
      hide EntityManager.Live, EntityManager.Up, EntityManager.Dn, RideDeaths.Among;
    }

    twostate lemma FewerUp()
      requires entities == old(entities) && Live() <= old(Live())
      requires forall a :: a in entities ==> a.vehicle == old(a.vehicle) && a.passenger == old(a.passenger)
      requires forall a :: a in entities && old(a.isDead) ==> a.isDead
      ensures Up() == RideDeaths.Among<Entity>(old(Up()), Live())
    {
    }

    twostate lemma FewerDown()
      requires entities == old(entities) && Live() <= old(Live())
      requires forall a :: a in entities ==> a.vehicle == old(a.vehicle) && a.passenger == old(a.passenger)
      requires forall a :: a in entities && old(a.isDead) ==> a.isDead
      ensures Dn() == RideDeaths.Among<Entity>(old(Dn()), Live())
    {
    }

    // Visit e and then whoever rides it; `trail` is the walk down that led to e, and the maps are the
    // rides when it began. A death on the way does not end it.
    method TickEntityAndPassenger(e: Entity, dies: set<Entity>, ghost trail: seq<Entity>, ghost done: seq<Entity>,
                                  ghost up: map<Entity, Entity>, ghost dn: map<Entity, Entity>, ghost live: set<Entity>)
      requires Valid() && AllCurrent(done) && Linked()
      requires Riding.Mutual<Entity>(up, dn) && dn.Values <= live && Riding.OnTrail<Entity>(up, dn, live, trail, e)
      requires Rides(up, dn, live - RideDeaths.Dying<Entity>(dies, trail[..|trail| - 1]))
      modifies this`containers, this`ticked
      modifies entities`position, entities`collider, entities`bucketPos, entities`passenger, entities`isDead
      ensures Valid() && Linked() && ticked == old(ticked) + Riding.Below<Entity>(dn, live, trail)
      ensures Rides(up, dn, live - RideDeaths.Dying<Entity>(dies,
              trail[..|trail| - 1] + Riding.Below<Entity>(dn, live, trail)))
      ensures AllCurrent(done + Riding.Below<Entity>(dn, live, trail))
      decreases |live| - |trail|, 2
    {
      hide *;
      ghost var below := Riding.Below<Entity>(dn, live, trail);
      PointersOnTrail(e, dies, trail, up, dn, live);
      Riding.BelowUnfolds<Entity>(up, dn, live, trail, e);
      VisitOnTrail(e, dies, trail, done, up, dn, live);
      TickPassenger(e, dies, trail, done, up, dn, live);
      assert below == [e] + below[1..];
    }

    // If something rides e, tick it.
    method TickPassenger(e: Entity, dies: set<Entity>, ghost trail: seq<Entity>, ghost done: seq<Entity>,
                         ghost up: map<Entity, Entity>, ghost dn: map<Entity, Entity>, ghost live: set<Entity>)
      requires Valid() && AllCurrent(done + [e]) && Linked() && e in entities
      requires Riding.Mutual<Entity>(up, dn) && dn.Values <= live && Riding.OnTrail<Entity>(up, dn, live, trail, e)
      requires Rides(up, dn, live - RideDeaths.Dying<Entity>(dies, trail))
      requires e in dn <==> e.passenger != null && !e.passenger.isDead && e.passenger.vehicle == e
      requires e in dn ==> e.passenger == dn[e]
      modifies this`containers, this`ticked
      modifies entities`position, entities`collider, entities`bucketPos, entities`passenger, entities`isDead
      ensures Valid() && Linked() && Riding.Below<Entity>(dn, live, trail) != []
      ensures ticked == old(ticked) + Riding.Below<Entity>(dn, live, trail)[1..]
      ensures Rides(up, dn, live - RideDeaths.Dying<Entity>(dies,
              trail[..|trail| - 1] + Riding.Below<Entity>(dn, live, trail)))
      ensures AllCurrent(done + Riding.Below<Entity>(dn, live, trail))
      decreases |live| - |trail|, 1
    {
      hide *;
      if e.passenger != null {
        if !e.passenger.isDead && e.passenger.vehicle == e {
          TickRider(e, dies, trail, done, up, dn, live);
        } else {
          DropNobody(e, up, dn, live - RideDeaths.Dying<Entity>(dies, trail));
          WalkEnds(up, dn, live, trail, e, done);
        }
      } else {
        WalkEnds(up, dn, live, trail, e, done);
      }
    }

    // The walk ends at e.
    lemma WalkEnds(up: map<Entity, Entity>, dn: map<Entity, Entity>,
        live: set<Entity>, trail: seq<Entity>, e: Entity, done: seq<Entity>)
      requires Riding.Mutual<Entity>(up, dn) && dn.Values <= live
               && Riding.OnTrail<Entity>(up, dn, live, trail, e) && e !in dn
      ensures var below := Riding.Below<Entity>(dn, live, trail);
              below == [e] && trail[..|trail| - 1] + below == trail
                && ticked + below[1..] == ticked && done + below == done + [e]
    {
      Riding.BelowUnfolds<Entity>(up, dn, live, trail, e);
    }

    // Something does ride e.
    method TickRider(e: Entity, dies: set<Entity>, ghost trail: seq<Entity>, ghost done: seq<Entity>,
                     ghost up: map<Entity, Entity>, ghost dn: map<Entity, Entity>, ghost live: set<Entity>)
      requires Valid() && AllCurrent(done + [e]) && Linked() && e in entities && e in dn && e.passenger == dn[e]
      requires Riding.Mutual<Entity>(up, dn) && dn.Values <= live && Riding.OnTrail<Entity>(up, dn, live, trail, e)
      requires Rides(up, dn, live - RideDeaths.Dying<Entity>(dies, trail))
      modifies this`containers, this`ticked
      modifies entities`position, entities`collider, entities`bucketPos, entities`passenger, entities`isDead
      ensures Valid() && Linked() && Riding.Below<Entity>(dn, live, trail) != []
      ensures ticked == old(ticked) + Riding.Below<Entity>(dn, live, trail)[1..]
      ensures Rides(up, dn, live - RideDeaths.Dying<Entity>(dies,
              trail[..|trail| - 1] + Riding.Below<Entity>(dn, live, trail)))
      ensures AllCurrent(done + Riding.Below<Entity>(dn, live, trail))
      decreases |live| - |trail|, 0
    {
      hide *;
      ghost var p := dn[e];
      WalkGoesOn(up, dn, live, trail, e, done);
      TickEntityAndPassenger(e.passenger, dies, trail + [p], done + [e], up, dn, live);
    }

    lemma WalkGoesOn(up: map<Entity, Entity>, dn: map<Entity, Entity>,
        live: set<Entity>, trail: seq<Entity>, e: Entity, done: seq<Entity>)
      requires Riding.Mutual<Entity>(up, dn) && dn.Values <= live
               && Riding.OnTrail<Entity>(up, dn, live, trail, e) && e in dn
      ensures var p := dn[e];
              var below, rest := Riding.Below<Entity>(dn, live, trail), Riding.Below<Entity>(dn, live, trail + [p]);
              && Riding.OnTrail<Entity>(up, dn, live, trail + [p], p) && |trail + [p]| <= |live|
              && below != [] && below[1..] == rest && done + below == (done + [e]) + rest
              && (trail + [p])[..|trail + [p]| - 1] == trail && trail[..|trail| - 1] + below == trail + rest
    {
      Riding.BelowUnfolds<Entity>(up, dn, live, trail, e);
      Riding.BelowUnfolds<Entity>(up, dn, live, trail + [dn[e]], dn[e]);
      Regroup(trail, e, dn[e], Riding.Below<Entity>(dn, live, trail),
        Riding.Below<Entity>(dn, live, trail + [dn[e]]), done);
    }

    lemma Regroup(trail: seq<Entity>, e: Entity, p: Entity, below: seq<Entity>, rest: seq<Entity>, done: seq<Entity>)
      requires trail != [] && trail[|trail| - 1] == e && below == [e] + rest
      ensures done + below == (done + [e]) + rest && trail[..|trail| - 1] + below == trail + rest
      ensures (trail + [p])[..|trail + [p]| - 1] == trail
    {
      assert trail == trail[..|trail| - 1] + [e];
    }

    // The visit itself. Afterwards the pointers still say who rides below.
    method VisitOnTrail(e: Entity, dies: set<Entity>, ghost trail: seq<Entity>, ghost done: seq<Entity>,
                        ghost up: map<Entity, Entity>, ghost dn: map<Entity, Entity>, ghost live: set<Entity>)
      requires Valid() && AllCurrent(done) && Linked()
      requires Riding.Mutual<Entity>(up, dn) && dn.Values <= live && Riding.OnTrail<Entity>(up, dn, live, trail, e)
      requires Rides(up, dn, live - RideDeaths.Dying<Entity>(dies, trail[..|trail| - 1]))
      modifies this`containers, this`ticked, e`position, e`collider, e`bucketPos, e`isDead
      ensures Valid() && Linked() && ticked == old(ticked) + [e] && AllCurrent(done + [e])
      ensures Rides(up, dn, live - RideDeaths.Dying<Entity>(dies, trail)) && e in entities
      ensures e in dn <==> e.passenger != null && !e.passenger.isDead && e.passenger.vehicle == e
      ensures e in dn ==> e.passenger == dn[e]
    {
      hide *;
      ghost var alive := Live();
      PointersOnTrail(e, dies, trail, up, dn, live);
      VisitEntity(e, dies, done);
      RidesFurther(up, dn, alive, live - RideDeaths.Dying<Entity>(dies, trail));
    }

    lemma PointersOnTrail(e: Entity, dies: set<Entity>, trail: seq<Entity>,
                          up: map<Entity, Entity>, dn: map<Entity, Entity>, live: set<Entity>)
      requires Linked()
      requires Riding.Mutual<Entity>(up, dn) && dn.Values <= live && Riding.OnTrail<Entity>(up, dn, live, trail, e)
      requires Rides(up, dn, live - RideDeaths.Dying<Entity>(dies, trail[..|trail| - 1]))
      ensures e in Live() && e in entities && !e.isDead
      ensures e in dn <==> e.passenger != null && !e.passenger.isDead && e.passenger.vehicle == e
      ensures e in dn ==> e.passenger == dn[e] && e.passenger != e
      ensures live - RideDeaths.Dying<Entity>(dies, trail) == Live() - if e in dies then {e} else {}
      ensures Up() == RideDeaths.Among<Entity>(up, Live()) && Dn() == RideDeaths.Among<Entity>(dn, Live())
    {
      assert trail != [];
      hide *;
      RidesMean(up, dn, live - RideDeaths.Dying<Entity>(dies, trail[..|trail| - 1]));
      RideDeaths.OnTheWayDown<Entity>(up, dn, live, dies, trail, e);
      LiveMeansAlive();
      PointersAreRides(e);
    }

    method DropNobody(e: Entity, ghost up: map<Entity, Entity>, ghost dn: map<Entity, Entity>, ghost alive: set<Entity>)
      requires Valid() && Linked() && e in entities && Rides(up, dn, alive)
      requires !(e.passenger != null && !e.passenger.isDead && e.passenger.vehicle == e)
      modifies e`passenger
      ensures Valid() && Linked() && Rides(up, dn, alive)
    {
      hide *;
      RidesMean(up, dn, alive);
      PointersAreRides(e);
      DropPassenger(e);
      RidesMean(up, dn, alive);
    }

    // Rides among fewer of those that are left.
    lemma RidesFurther(up: map<Entity, Entity>, dn: map<Entity, Entity>, alive: set<Entity>, fewer: set<Entity>)
      requires fewer <= alive
      requires Rides(RideDeaths.Among<Entity>(up, alive), RideDeaths.Among<Entity>(dn, alive), fewer)
      ensures Rides(up, dn, fewer)
    {
      hide EntityManager.Up, EntityManager.Dn, EntityManager.Live;
      RideDeaths.AmongTwice<Entity>(up, alive, fewer);
      RideDeaths.AmongTwice<Entity>(dn, alive, fewer);
    }

    // The rides are among the living as it is.
    lemma RidesNow()
      ensures Rides(Up(), Dn(), Live())
    {
      LinksAreMutual();
      ghost var up, dn, live := Up(), Dn(), Live();
      hide EntityManager.Up, EntityManager.Dn, EntityManager.Live;
      RideDeaths.AllAmong<Entity>(up, dn, live);
    }

    lemma RidesMean(up: map<Entity, Entity>, dn: map<Entity, Entity>, alive: set<Entity>)
      ensures Rides(up, dn, alive) <==>
                Live() == alive && Up() == RideDeaths.Among<Entity>(up, alive)
                  && Dn() == RideDeaths.Among<Entity>(dn, alive)
    {
    }

    // What the code asks of the pointers is what the ride maps say.
    lemma PointersAreRides(e: Entity)
      requires Linked() && e in entities
      ensures e in Dn() <==> !e.isDead && e.passenger != null && !e.passenger.isDead && e.passenger.vehicle == e
      ensures e in Dn() ==> e.passenger == Dn()[e]
      ensures e in Up() <==> !e.isDead && e.vehicle != null && !e.vehicle.isDead && e.vehicle.passenger == e
    {
    }

    // Forget a rider that is dead or rides something else.
    method DropPassenger(e: Entity)
      requires Valid() && Linked() && e in entities && e !in Dn()
      modifies e`passenger
      ensures Valid() && Linked()
      ensures Up() == old(Up()) && Dn() == old(Dn()) && Live() == old(Live())
      ensures e.passenger == null
    {
      LinksAreMutual();
      hide Valid, Agree, NoDup, Pos, Solid;
      e.passenger := null;
    }

    // Forget a vehicle that is dead or carries somebody else.
    method DropVehicle(e: Entity)
      requires Valid() && Linked() && e in entities && e !in Up()
      modifies e`vehicle
      ensures Valid() && Linked()
      ensures Up() == old(Up()) && Dn() == old(Dn()) && Live() == old(Live())
      ensures e.vehicle == null
    {
      LinksAreMutual();
      hide Valid, Agree, NoDup, Pos, Solid;
      e.vehicle := null;
    }

    function Times(q: seq<Entity>, e: Entity): nat { multiset(q)[e] }

    // What Tick does for one entry of its snapshot.
    method TickEntry(e: Entity, dies: set<Entity>, ghost done: seq<Entity>) returns (ghost run: seq<Entity>)
      requires Valid() && Linked() && e in entities && AllCurrent(done)
      modifies this`containers, this`ticked
      modifies entities`position, entities`collider, entities`bucketPos,
               entities`passenger, entities`vehicle, entities`isDead
      ensures Valid() && Linked()
      ensures run == old(Riding.Run(Up(), Dn(), Live(), e))
      ensures ticked == old(ticked) + run && AllCurrent(done + run)
      ensures Rides(old(Up()), old(Dn()), old(Live()) - RideDeaths.Dying<Entity>(dies, run))
    {
      hide *;
      ghost var up, dn, live := Up(), Dn(), Live();
      run := [];
      assert done + [] == done;
      RidesNow();
      RideDeaths.NobodyDies<Entity>(dies, live);
      RunMeans(up, dn, live, e);
      LiveMeansAlive();
      if e.isDead {
        return;
      }
      PointersAreRides(e);
      if e.vehicle != null {
        if !e.vehicle.isDead && e.vehicle.passenger == e {
          return;
        }
        DropVehicle(e);
      }
      Riding.TrailBegins<Entity>(up, dn, live, e);
      LinksAreMutual();
      run := Riding.Below<Entity>(dn, live, [e]);
      RidesNow();
      assert [e][..0] == [] && [] + run == run;
      TickEntityAndPassenger(e, dies, [e], done, up, dn, live);
    }

    lemma RunMeans(up: map<Entity, Entity>, dn: map<Entity, Entity>, live: set<Entity>, e: Entity)
      ensures Riding.Run<Entity>(up, dn, live, e) ==
              if e in up || e !in live then [] else Riding.Chain<Entity>(dn, live, e)
    {
    }

    lemma CurrentOnes(xs: seq<Entity>)
      ensures AllCurrent(xs) <==> forall x :: x in xs && x in entities ==> x.Current()
    {
    }

    lemma LiveMeansAlive()
      ensures forall e :: e in Live() ==> e in entities && !e.isDead
      ensures forall e :: e in entities && !e.isDead ==> e in Live()
    {
    }

    // The snapshot's items when the entities of `dead` have died.
    function Marked(q: seq<Entity>, dead: set<Entity>): (r: seq<Item>)
      reads q`id, q`isDead
      ensures |r| == |q| && forall i :: 0 <= i < |q| ==> r[i] == Item(q[i].id, q[i].isDead || q[i] in dead)
    {
      if q == [] then [] else [Item(q[0].id, q[0].isDead || q[0] in dead)] + Marked(q[1..], dead)
    }

    // What the snapshot of this moment leads to when `dies` die in their own ticks.
    ghost function Plan(dies: set<Entity>): RideDeaths.State<Entity>
      reads this`entities, entities`isDead, entities`vehicle, entities`passenger
    {
      RideDeaths.TickAll<Entity>(Up(), Dn(), Live(), dies, entities)
    }

    // A rider that survives its vehicle and comes after the root of its chain in the list.
    ghost predicate SomeLateSurvivor(dies: set<Entity>)
      reads this`entities, entities`isDead, entities`vehicle, entities`passenger
    {
      exists n :: 0 <= n < |entities| && RideDeaths.LateSurvivor<Entity>(Up(), dies, entities, n)
    }

    // Whoever dies in its own tick: nothing on a ride cycle ticks, everything else that was alive ticks
    // exactly once if and only if there is no late survivor, what ticked is in its right bucket, and the
    // dead are swept.
    method Tick(dies: set<Entity>)
      requires Valid() && Linked()
      modifies this`entities, this`containers, this`ticked
      modifies entities`position, entities`collider, entities`bucketPos,
               entities`passenger, entities`vehicle, entities`isDead
      ensures Valid() && Linked()
      ensures ticked == old(ticked) + old(Plan(dies)).log
      ensures forall e :: e in old(Live()) && Riding.OnCycle(old(Up()), e) ==> Times(ticked[|old(ticked)|..], e) == 0
      ensures (forall e :: e in old(Live()) && !Riding.OnCycle(old(Up()), e) ==> Times(ticked[|old(ticked)|..], e) == 1)
        <==> !old(SomeLateSurvivor(dies))
      ensures AllCurrent(ticked[|old(ticked)|..])
      ensures Items(entities) == Sweep(old(Marked(entities, Plan(dies).dead)), 0)
      ensures old(DistinctIds(entities)) ==>
        forall e :: e in entities <==> e in old(Live()) && !(e in dies && e in ticked[|old(ticked)|..])
    {
      hide *;
      LiveMeansAlive();
      ghost var plan := Plan(dies);
      PlanIsSound(dies);
      VisitAll(dies);
      LiveMeansAlive();
      assert ticked[|old(ticked)|..] == plan.log;
      SameMarks((entities, plan.dead));
      RideDeaths.DyingMeans<Entity>(dies, plan.log);
      CurrentOnes(ticked[|old(ticked)|..]);
      ghost var left := Live();
      assert forall e :: e in left <==> e in old(Live()) && !(e in dies && e in ticked[|old(ticked)|..]);
      SweepDead();
      CurrentOnes(ticked[|old(ticked)|..]);
    }

    lemma PlanIsSound(dies: set<Entity>)
      requires Valid()
      ensures var plan := Plan(dies);
              && plan.dead == RideDeaths.Dying<Entity>(dies, plan.log)
              && (forall e :: e in Live() && Riding.OnCycle(Up(), e) ==> Times(plan.log, e) == 0)
              && ((forall e :: e in Live() && !Riding.OnCycle(Up(), e) ==> Times(plan.log, e) == 1)
                 <==> !SomeLateSurvivor(dies))
    {
      NoneTwice();
      LinksAreMutual();
      LiveMeansAlive();
      ghost var up, dn, live := Up(), Dn(), Live();
      hide Valid, EntityManager.Up, EntityManager.Dn, EntityManager.Live, RideDeaths.TickAll, RideDeaths.LateSurvivor;
      RideDeaths.DeadAreDying<Entity>(up, dn, live, dies, entities);
      RideDeaths.SettingHolds<Entity>(up, dn, live, entities);
      RideDeaths.OnceExactlyWithoutLateSurvivors<Entity>(up, dn, live, dies, entities);
      forall e | e in live && Riding.OnCycle(up, e) ensures Times(Plan(dies).log, e) == 0 {
        RideDeaths.CyclesNeverTick<Entity>(up, dn, live, dies, entities, e);
      }
    }

    // The state of the loop after n entries of the snapshot.
    ghost predicate Progress(up: map<Entity, Entity>, dn: map<Entity, Entity>, live: set<Entity>, dies: set<Entity>,
                             start: seq<Entity>, toTick: seq<Entity>, n: nat)
      requires n <= |toTick|
      reads this, entities
      reads (set e | e in entities && e.vehicle != null :: e.vehicle)`isDead
      reads (set e | e in entities && e.passenger != null :: e.passenger)`isDead
    {
      var t := RideDeaths.TickAll<Entity>(up, dn, live, dies, toTick[..n]);
      entities == toTick && Valid() && Linked() && Rides(up, dn, live - t.dead)
        && ticked == start + t.log && AllCurrent(t.log)
    }

    method TickNth(ghost up: map<Entity, Entity>, ghost dn: map<Entity, Entity>,
        ghost live: set<Entity>, dies: set<Entity>,
                   ghost start: seq<Entity>, toTick: seq<Entity>, n: nat)
      requires n < |toTick| && Progress(up, dn, live, dies, start, toTick, n)
      modifies this`containers, this`ticked
      modifies entities`position, entities`collider, entities`bucketPos,
               entities`passenger, entities`vehicle, entities`isDead
      ensures Progress(up, dn, live, dies, start, toTick, n + 1)
    {
      hide Valid, Linked, Rides, AllCurrent, RideDeaths.TickAll, RideDeaths.Among, Riding.Run;
      ghost var t := RideDeaths.TickAll<Entity>(up, dn, live, dies, toTick[..n]);
      ghost var alive := live - t.dead;
      RideDeaths.TickAllUnfolds<Entity>(up, dn, live, dies, toTick, n);
      RidesMean(up, dn, alive);
      ghost var run := TickEntry(toTick[n], dies, t.log);
      assert start + t.log + run == start + (t.log + run);
      RidesFurther(up, dn, alive, alive - RideDeaths.Dying<Entity>(dies, run));
      assert alive - RideDeaths.Dying<Entity>(dies, run) == live - (t.dead + RideDeaths.Dying<Entity>(dies, run));
    }

    method VisitAll(dies: set<Entity>)
      requires Valid() && Linked()
      modifies this`containers, this`ticked
      modifies entities`position, entities`collider, entities`bucketPos,
               entities`passenger, entities`vehicle, entities`isDead
      ensures Valid() && Linked()
      ensures var plan := old(Plan(dies));
              && Live() == old(Live()) - plan.dead && ticked == old(ticked) + plan.log
      ensures AllCurrent(ticked[|old(ticked)|..])
    {
      hide *;
      var toTick := entities;
      ghost var up, dn, live, start := Up(), Dn(), Live(), ticked;
      ProgressBegins(dies);
      var n := 0;
      while n < |toTick|
        invariant n <= |toTick| && Progress(up, dn, live, dies, start, toTick, n)
      {
        TickNth(up, dn, live, dies, start, toTick, n);
        n := n + 1;
      }
      ProgressEnds(up, dn, live, dies, start, toTick);
    }

    lemma ProgressBegins(dies: set<Entity>)
      requires Valid() && Linked()
      ensures Progress(Up(), Dn(), Live(), dies, ticked, entities, 0)
      ensures Plan(dies) == RideDeaths.TickAll<Entity>(Up(), Dn(), Live(), dies, entities)
    {
      RidesNow();
      hide Valid, Linked, Rides, Up, Dn, Live;
      assert Live() - {} == Live() && ticked + [] == ticked;
    }

    lemma ProgressEnds(up: map<Entity, Entity>, dn: map<Entity, Entity>, live: set<Entity>, dies: set<Entity>,
                       start: seq<Entity>, toTick: seq<Entity>)
      requires Progress(up, dn, live, dies, start, toTick, |toTick|)
      ensures var t := RideDeaths.TickAll<Entity>(up, dn, live, dies, toTick);
              && Live() == live - t.dead && ticked == start + t.log && ticked[|start|..] == t.log && AllCurrent(t.log)
      ensures Valid() && Linked()
    {
      assert toTick[..|toTick|] == toTick;
      hide Valid, Linked, AllCurrent, RideDeaths.TickAll, EntityManager.Live, EntityManager.Up, EntityManager.Dn;
    }

    // Tick's last loop.
    method SweepDead()
      requires Valid()
      modifies this`entities, this`containers, (set e | e in entities)`isDead
      ensures Valid()
      ensures Items(entities) == old(Sweep(Items(entities), 0))
      ensures forall e :: e in entities ==> e in old(entities)
      ensures forall e :: e in old(entities) ==> (e in entities || e.isDead) && (old(e.isDead) ==> e.isDead)
      ensures old(DistinctIds(entities)) ==> forall e :: e in entities <==> e in old(Live())
      ensures old(Linked()) ==> Linked()
    {
      hide *;
      LiveMeansAlive();
      var i := 0;
      while i < |entities|
        invariant 0 <= i <= |entities| && Valid() && forall e :: e in entities ==> e in old(entities)
        invariant Sweep(Items(entities), i) == old(Sweep(Items(entities), 0))
        invariant old(Linked()) ==> Linked()
        invariant forall e :: e in old(entities) ==> (e in entities || e.isDead) && (old(e.isDead) ==> e.isDead)
        invariant old(DistinctIds(entities)) ==>
          DistinctIds(entities) && (forall j :: 0 <= j < i ==> !entities[j].isDead)
          && forall e :: e in old(entities) ==> e.isDead == old(e.isDead) && (e.isDead || e in entities)
        decreases |entities| - i
      {
        SweepUnfolds(Items(entities), i);
        if entities[i].isDead {
          SweepOne(i);
        } else {
          i := i + 1;
        }
      }
      SweepUnfolds(Items(entities), i);
    }

    method SweepOne(i: nat)
      requires Valid() && i < |entities| && entities[i].isDead
      modifies this`entities, this`containers, (set e | e in entities)`isDead
      ensures Valid() && |entities| == old(|entities|) - 1 && forall e :: e in entities ==> e in old(entities)
      ensures Items(entities) == old(RemoveFirst(Items(entities), entities[i].id))
      ensures old(Linked()) ==> Linked()
      ensures forall e :: e in old(entities) ==> (e in entities || e.isDead) && (old(e.isDead) ==> e.isDead)
      ensures old(DistinctIds(entities)) ==>
        DistinctIds(entities) && entities == old(entities)[..i] + old(entities)[i + 1..]
        && forall e :: e in old(entities) ==> e.isDead == old(e.isDead) && (e == old(entities)[i] || e in entities)
    {
      hide *;
      NoneTwice();
      ghost var r := SweepPlan(entities, i);
      RemoveEntity(entities[i].id);
      assert entities == r;
      SameItems(r);
    }

    // Marking the dead in advance.
    twostate lemma SameMarks(deaths: (seq<Entity>, set<Entity>))
      requires forall e :: e in deaths.0 ==>
        allocated(e) && e.isDead == (old(e.isDead) || e in deaths.1) && e.id == old(e.id)
      ensures Items(deaths.0) == old(Marked(deaths.0, deaths.1)) && DistinctIds(deaths.0) == old(DistinctIds(deaths.0))
    {
    }

    twostate lemma SameItems(q: seq<Entity>)
      requires forall e :: e in q ==> allocated(e) && e.isDead == old(e.isDead) && e.id == old(e.id)
      ensures Items(q) == old(Items(q)) && DistinctIds(q) == old(DistinctIds(q))
    {
    }
  }

  // What removing the entity at i by its id leaves.
  lemma SweepPlan(q: seq<Entity>, i: nat) returns (r: seq<Entity>)
    requires NoDup(q) && i < |q|
    ensures var k := FirstWith(q, q[i].id);
            k < |q| && r == q[..k] + q[k + 1..] && q[k] !in r
    ensures |r| == |q| - 1 && (forall e :: e in r ==> e in q)
    ensures forall e :: e in q && e != q[FirstWith(q, q[i].id)] ==> e in r
    ensures Items(r) == RemoveFirst(Items(q), q[i].id)
    ensures DistinctIds(q) ==>
              DistinctIds(r) && r == q[..i] + q[i + 1..] && q[FirstWith(q, q[i].id)] == q[i]
              && forall e :: e in q ==> e == q[i] || e in r
  {
    var k := FirstWith(q, q[i].id);
    FirstIsOnly(q, i);
    hide *;
    RemoveFirstItem(q, k);
    r := WithoutNth(q, k);
  }

  lemma FirstIsOnly(q: seq<Entity>, i: nat)
    requires i < |q|
    ensures FirstWith(q, q[i].id) <= i && (DistinctIds(q) ==> FirstWith(q, q[i].id) == i)
  {
  }

  lemma WithoutNth(q: seq<Entity>, k: nat) returns (r: seq<Entity>)
    requires NoDup(q) && k < |q|
    ensures r == q[..k] + q[k + 1..] && q[k] !in r && |r| == |q| - 1
    ensures (forall e :: e in r ==> e in q) && forall e :: e in q && e != q[k] ==> e in r
    ensures DistinctIds(q) ==> DistinctIds(r)
  {
    r := q[..k] + q[k + 1..];
  }

  lemma SweepUnfolds(q: seq<Item>, i: nat)
    requires i <= |q|
    ensures Sweep(q, i) == if i == |q| then q
            else if q[i].dead then Sweep(RemoveFirst(q, q[i].id), i) else Sweep(q, i + 1)
  {
  }
}
