// The spatial index of EntityManager as values: columns of ten buckets, the operations on them, and
// the geometry that makes a box query over buckets exact. `E` names entities.
module EntityIndex {
  import opened Sequences

  const BUCKETS := 10

  // Column coordinates and bucket number.
  datatype BucketPos = BucketPos(x: int, z: int, y: int)

  datatype Column = Column(x: int, z: int)

  datatype Bucket<E> = Bucket(entities: seq<E>, colliders: seq<E>)

  type Index<E> = map<Column, seq<Bucket<E>>>

  datatype Vec3 = Vec3(x: real, y: real, z: real)

  datatype Aabb = Aabb(minX: real, minY: real, minZ: real, maxX: real, maxY: real, maxZ: real)

  predicate Intersects(a: Aabb, b: Aabb)
  {
    b.maxX > a.minX && b.minX < a.maxX && b.maxY > a.minY && b.minY < a.maxY && b.maxZ > a.minZ && b.minZ < a.maxZ
  }

  // ----- geometry -----

  function Sixteenth(v: real): int { (v / 16.0).Floor }

  function Clamp(b: int): (r: int)
    ensures 0 <= r < BUCKETS
  {
    if b < 0 then 0 else if b > 9 then 9 else b
  }

  function ComputeBucketPos(p: Vec3): BucketPos
  {
    BucketPos(Sixteenth(p.x), Sixteenth(p.z), Clamp(Sixteenth(p.y)))
  }

  // The bucket of a position is the cube of 16 blocks that contains it; below and above the ten buckets of
  // a column, the lowest and the highest.
  lemma BucketExactly(p: Vec3)
    ensures var b := ComputeBucketPos(p);
            && (16 * b.x) as real <= p.x < (16 * b.x + 16) as real
            && (16 * b.z) as real <= p.z < (16 * b.z + 16) as real
            && if p.y < 0.0 then b.y == 0 else if p.y >= 160.0 then b.y == 9
               else (16 * b.y) as real <= p.y < (16 * b.y + 16) as real
  {
    SixteenthExactly(p.x);
    SixteenthExactly(p.y);
    SixteenthExactly(p.z);
  }

  lemma SixteenthExactly(v: real)
    ensures (16 * Sixteenth(v)) as real <= v < (16 * Sixteenth(v) + 16) as real
  {
    assert (v / 16.0).Floor as real <= v / 16.0 < ((v / 16.0).Floor + 1) as real;
  }

  // Two boxes intersect if and only if a point lies strictly inside both.
  lemma IntersectsExactly(a: Aabb, b: Aabb)
    requires a.minX < a.maxX && a.minY < a.maxY && a.minZ < a.maxZ
    requires b.minX < b.maxX && b.minY < b.maxY && b.minZ < b.maxZ
    ensures Intersects(a, b) <==> exists p :: StrictlyInside(a, p) && StrictlyInside(b, p)
  {
    if Intersects(a, b) {
      var x := Common(a.minX, a.maxX, b.minX, b.maxX);
      var y := Common(a.minY, a.maxY, b.minY, b.maxY);
      var z := Common(a.minZ, a.maxZ, b.minZ, b.maxZ);
      assert StrictlyInside(a, Vec3(x, y, z)) && StrictlyInside(b, Vec3(x, y, z));
    }
  }

  predicate StrictlyInside(a: Aabb, p: Vec3)
  {
    a.minX < p.x < a.maxX && a.minY < p.y < a.maxY && a.minZ < p.z < a.maxZ
  }

  lemma Common(a0: real, a1: real, b0: real, b1: real) returns (v: real)
    requires a0 < a1 && b0 < b1 && a0 < b1 && b0 < a1
    ensures a0 < v < a1 && b0 < v < b1
  {
    var lo, hi := if a0 < b0 then b0 else a0, if a1 < b1 then a1 else b1;
    v := (lo + hi) / 2.0;
  }

  // The collider stays within `reach` blocks of the position on every side.
  predicate ColliderWithin(p: Vec3, c: Aabb, reach: real)
  {
    p.x - reach <= c.minX && c.maxX <= p.x + reach && p.y - reach <= c.minY && c.maxY <= p.y + reach
    && p.z - reach <= c.minZ && c.maxZ <= p.z + reach
  }

  // The buckets that a query looks at.
  datatype Span = Span(minX: int, maxX: int, minZ: int, maxZ: int, minY: int, maxY: int) {
    predicate Contains(b: BucketPos)
    {
      minX <= b.x <= maxX && minZ <= b.z <= maxZ && minY <= b.y <= maxY
    }
  }

  function SpanOf(box: Aabb): (s: Span)
    ensures 0 <= s.minY && s.maxY < BUCKETS
  {
    Span(Sixteenth(box.minX - 2.0), Sixteenth(box.maxX + 2.0), Sixteenth(box.minZ - 2.0), Sixteenth(box.maxZ + 2.0),
         Clamp(Sixteenth(box.minY - 2.0)), Clamp(Sixteenth(box.maxY + 2.0)))
  }

  // An entity whose collider meets the box sits in a bucket that the query visits, in spite of
  // rounding down and of the clamp.
  lemma QueryVisitsBucket(p: Vec3, c: Aabb, box: Aabb)
    requires ColliderWithin(p, c, 2.0) && Intersects(c, box)
    ensures SpanOf(box).Contains(ComputeBucketPos(p))
  {
  }

  ghost predicate QueryReaches(reach: real)
  {
    forall p, c, box :: ColliderWithin(p, c, reach) && Intersects(c, box) ==> SpanOf(box).Contains(ComputeBucketPos(p))
  }

  // The margin is exactly two: queries find every intersecting entity if and only if no collider
  // reaches further than two blocks from its entity's position.
  lemma QueryReachesExactlyTwoBlocks(reach: real)
    requires reach >= 0.0
    ensures QueryReaches(reach) <==> reach <= 2.0
  {
    if reach <= 2.0 {
      forall p, c, box | ColliderWithin(p, c, reach) && Intersects(c, box)
        ensures SpanOf(box).Contains(ComputeBucketPos(p))
      {
        QueryVisitsBucket(p, c, box);
      }
    } else {
      // Just west of a column border, reaching east past the margin of a box that starts beyond it.
      var p := Vec3(16.0 - (reach - 2.0) / 4.0, 8.0, 8.0);
      var c := Aabb(p.x, 7.0, 7.0, p.x + reach, 9.0, 9.0);
      var box := Aabb(18.0, 7.5, 7.5, 20.0, 8.5, 8.5);
      assert ColliderWithin(p, c, reach) && Intersects(c, box);
      assert p.x / 16.0 < 1.0;
      assert !SpanOf(box).Contains(ComputeBucketPos(p));
    }
  }

  // ----- the index -----

  function Fresh<E>(): seq<Bucket<E>> { seq(BUCKETS, i => Bucket([], [])) }

  function ColumnOf(b: BucketPos): Column { Column(b.x, b.z) }

  predicate IsContainerEmpty<E(==)>(c: seq<Bucket<E>>) { forall i :: 0 <= i < |c| ==> c[i].entities == [] }

  // Append to one bucket, creating the column if there is none (operator[]).
  function Insert<E>(m: Index<E>, b: BucketPos, e: E, collider: bool): Index<E>
  {
    var c := if ColumnOf(b) in m then m[ColumnOf(b)] else Fresh();
    if 0 <= b.y < |c| then
      m[ColumnOf(b) := c[b.y := Bucket(c[b.y].entities + [e],
                                       if collider then c[b.y].colliders + [e] else c[b.y].colliders)]]
    else m
  }

  // Erase from one bucket and drop the column when that empties it.
  function Erase<E(==)>(m: Index<E>, b: BucketPos, e: E): Index<E>
  {
    if ColumnOf(b) !in m || !(0 <= b.y < |m[ColumnOf(b)]|) then m
    else
      var c := m[ColumnOf(b)];
      var r := c[b.y := Bucket(Drop(c[b.y].entities, e), Drop(c[b.y].colliders, e))];
      if IsContainerEmpty(r) then m - {ColumnOf(b)} else m[ColumnOf(b) := r]
  }

  predicate InBucket<E(==)>(m: Index<E>, b: BucketPos, e: E)
  {
    ColumnOf(b) in m && 0 <= b.y < |m[ColumnOf(b)]| && e in m[ColumnOf(b)][b.y].entities
  }

  predicate InColliders<E(==)>(m: Index<E>, b: BucketPos, e: E)
  {
    ColumnOf(b) in m && 0 <= b.y < |m[ColumnOf(b)]| && e in m[ColumnOf(b)][b.y].colliders
  }

  predicate GoodBucket<E(==)>(b: Bucket<E>)
  {
    NoDup(b.entities) && NoDup(b.colliders) && forall j :: 0 <= j < |b.colliders| ==> b.colliders[j] in b.entities
  }

  // Ten buckets a column, no duplicates, colliders among the entities, no empty columns.
  predicate WellFormed<E(==)>(m: Index<E>)
  {
    forall k :: k in m ==>
      |m[k]| == BUCKETS && !IsContainerEmpty(m[k]) &&
      forall i :: 0 <= i < BUCKETS ==> GoodBucket(m[k][i])
  }

  lemma InsertKeepsBuckets<E>(c: seq<Bucket<E>>, y: nat, e: E, collider: bool, d: seq<Bucket<E>>)
    requires |c| == BUCKETS && y < BUCKETS && forall i :: 0 <= i < BUCKETS ==> GoodBucket(c[i])
    requires e !in c[y].entities
    requires d == c[y := Bucket(c[y].entities + [e], if collider then c[y].colliders + [e] else c[y].colliders)]
    ensures !IsContainerEmpty(d) && forall i :: 0 <= i < BUCKETS ==> GoodBucket(d[i])
    ensures forall x :: x in d[y].entities <==> x in c[y].entities || x == e
    ensures forall x :: x in d[y].colliders <==> x in c[y].colliders || (x == e && collider)
  {
    assert d[y].entities[|c[y].entities|] == e;
    assert d[y].entities != [];
    assert e !in c[y].colliders;
  }

  lemma InsertSpec<E>(m: Index<E>, b: BucketPos, e: E, collider: bool)
    requires WellFormed(m) && 0 <= b.y < BUCKETS && !InBucket(m, b, e)
    ensures var r := Insert(m, b, e, collider);
            && WellFormed(r)
            && (forall b', e' :: InBucket(r, b', e') <==> InBucket(m, b', e') || (b' == b && e' == e))
            && (forall b', e' :: InColliders(r, b', e') <==> InColliders(m, b', e') || (b' == b && e' == e && collider))
  {
    var k := ColumnOf(b);
    var c := if k in m then m[k] else Fresh();
    var r := Insert(m, b, e, collider);
    assert forall i :: 0 <= i < BUCKETS ==> GoodBucket(c[i]);
    InsertKeepsBuckets(c, b.y, e, collider, r[k]);
    hide NoDup, GoodBucket;
    forall b', e'
      ensures InBucket(r, b', e') <==> InBucket(m, b', e') || (b' == b && e' == e)
      ensures InColliders(r, b', e') <==> InColliders(m, b', e') || (b' == b && e' == e && collider)
    {
      if ColumnOf(b') == k && 0 <= b'.y < BUCKETS {
        if b'.y != b.y { assert r[k][b'.y] == c[b'.y]; }
        if k !in m { assert c[b'.y] == Bucket([], []); }
      }
    }
  }

  lemma EraseSpec<E>(m: Index<E>, b: BucketPos, e: E)
    requires WellFormed(m) && 0 <= b.y < BUCKETS
    ensures var r := Erase(m, b, e);
            && WellFormed(r)
            && (forall b', e' :: InBucket(r, b', e') <==> InBucket(m, b', e') && !(b' == b && e' == e))
            && (forall b', e' :: InColliders(r, b', e') <==> InColliders(m, b', e') && !(b' == b && e' == e))
  {
    var r := Erase(m, b, e);
    if ColumnOf(b) in m {
      var c := m[ColumnOf(b)];
      var d := c[b.y := Bucket(Drop(c[b.y].entities, e), Drop(c[b.y].colliders, e))];
      forall b', e'
        ensures InBucket(r, b', e') <==> InBucket(m, b', e') && !(b' == b && e' == e)
        ensures InColliders(r, b', e') <==> InColliders(m, b', e') && !(b' == b && e' == e)
      {
        if ColumnOf(b') == ColumnOf(b) && 0 <= b'.y < BUCKETS {
          if b'.y != b.y { assert d[b'.y] == c[b'.y]; }
          assert e' in d[b'.y].entities <==> e' in c[b'.y].entities && !(b'.y == b.y && e' == e);
          assert e' in d[b'.y].colliders <==> e' in c[b'.y].colliders && !(b'.y == b.y && e' == e);
          if IsContainerEmpty(d) { assert d[b'.y].entities == []; }
        }
      }
    }
  }

  // ----- the sweep of dead entities -----

  datatype Item = Item(id: int, dead: bool)

  function RemoveFirst(q: seq<Item>, id: int): (r: seq<Item>)
    ensures (exists k :: 0 <= k < |q| && q[k].id == id) ==> |r| == |q| - 1
  {
    if q == [] then [] else if q[0].id == id then q[1..] else [q[0]] + RemoveFirst(q[1..], id)
  }

  // Tick's loop: at a dead entity, remove the first entity with its id and look at the same place again.
  function Sweep(q: seq<Item>, i: nat): seq<Item>
    requires i <= |q|
    decreases |q| - i
  {
    if i == |q| then q
    else if !q[i].dead then Sweep(q, i + 1)
    else
      assert q[i].id == q[i].id && |RemoveFirst(q, q[i].id)| == |q| - 1;
      Sweep(RemoveFirst(q, q[i].id), i)
  }

  predicate SomeDead(q: seq<Item>) { exists k :: 0 <= k < |q| && q[k].dead }

  // Some live entity comes before a dead one with the same id.
  predicate LiveTwinFirst(q: seq<Item>)
  {
    exists j, k :: 0 <= j < k < |q| && !q[j].dead && q[k].dead && q[j].id == q[k].id
  }

  lemma {:induction false} RemoveFirstAt(q: seq<Item>, k: nat) returns (f: nat)
    requires k < |q|
    ensures f <= k && q[f].id == q[k].id && (forall j :: 0 <= j < f ==> q[j].id != q[k].id)
    ensures RemoveFirst(q, q[k].id) == q[..f] + q[f + 1..]
  {
    if q[0].id == q[k].id {
      f := 0;
    } else {
      var rest := q[1..];
      var g := RemoveFirstAt(rest, k - 1);
      f := g + 1;
      assert RemoveFirst(q, q[k].id) == [q[0]] + RemoveFirst(rest, q[k].id);
      hide RemoveFirst;
      assert q[..f] == [q[0]] + rest[..g] && q[f + 1..] == rest[g + 1..];
    }
  }

  // A dead entity that the sweep has passed is never removed for good.
  lemma {:induction false} PassedDeadRemains(q: seq<Item>, i: nat)
    requires i <= |q| && SomeDead(q[..i])
    ensures SomeDead(Sweep(q, i))
    decreases |q| - i
  {
    var d :| 0 <= d < i && q[..i][d].dead;
    if i < |q| {
      if !q[i].dead {
        assert q[..i + 1][d].dead;
        PassedDeadRemains(q, i + 1);
      } else {
        var f := RemoveFirstAt(q, i);
        var r := RemoveFirst(q, q[i].id);
        if d < f {
          assert r[..i][d].dead;
        } else if d > f {
          assert r[..i][d - 1].dead;
        } else {
          assert r[..i][i - 1] == q[i];
        }
        PassedDeadRemains(r, i);
      }
    } else {
      assert q[d].dead;
    }
  }

  lemma {:induction false} SweepFrom(q: seq<Item>, i: nat)
    requires i <= |q| && !SomeDead(q[..i])
    ensures SomeDead(Sweep(q, i)) <==> LiveTwinFirst(q)
    decreases |q| - i
  {
    if i == |q| {
      assert q[..i] == q;
    } else if !q[i].dead {
      assert forall k :: 0 <= k < i ==> !q[..i][k].dead;
      SweepFrom(q, i + 1);
    } else {
      assert forall k :: 0 <= k < i ==> !q[..i][k].dead;
      var f := RemoveFirstAt(q, i);
      var r := RemoveFirst(q, q[i].id);
      if f < i {
        assert !q[f].dead && LiveTwinFirst(q);
        assert r[..i][i - 1] == q[i];
        PassedDeadRemains(r, i);
      } else {
        assert forall k :: 0 <= k < i ==> r[..i][k] == q[k];
        SweepFrom(r, i);
        SameTwins(q, i, r);
      }
    }
  }

  // Taking out a dead entity that no live entity of the same id precedes.
  lemma SameTwins(q: seq<Item>, i: nat, r: seq<Item>)
    requires i < |q| && q[i].dead && r == q[..i] + q[i + 1..] && forall j :: 0 <= j < i ==> q[j].id != q[i].id
    ensures LiveTwinFirst(q) <==> LiveTwinFirst(r)
  {
    if LiveTwinFirst(q) {
      var j, k :| 0 <= j < k < |q| && !q[j].dead && q[k].dead && q[j].id == q[k].id;
      var j', k' := if j < i then j else j - 1, if k < i then k else k - 1;
      assert r[j'] == q[j] && r[k'] == q[k];
    }
    if LiveTwinFirst(r) {
      var j, k :| 0 <= j < k < |r| && !r[j].dead && r[k].dead && r[j].id == r[k].id;
      var j', k' := if j < i then j else j + 1, if k < i then k else k + 1;
      assert r[j] == q[j'] && r[k] == q[k'];
    }
  }

  // The sweep leaves a dead entity behind if and only if some live entity precedes a dead one with the
  // same id; so never when ids are distinct.
  lemma SweepFailsExactlyOnLiveTwins(q: seq<Item>)
    ensures SomeDead(Sweep(q, 0)) <==> LiveTwinFirst(q)
  {
    assert q[..0] == [];
    SweepFrom(q, 0);
  }
}
