// The raw buffer that ChunkSerializer::Serialize fills before compression: one byte per block, then
// three planes of four-bit values, in x, z, y order with y innermost.
module ChunkLayout {
  import opened Sequences
  import opened BlockChanges

  const SUB_CHUNK_SIZE := 16
  const SUB_CHUNK_COUNT := 8
  const SUB_CHUNK_VOLUME := 4096

  // A layer that is absent reads as its fill value.
  datatype Layer = Layer(data: Option<seq<int>>, fill: int) {
    predicate Valid(limit: int)
    {
      && 0 <= fill < limit
      && (data.Some? ==> |data.value| == SUB_CHUNK_VOLUME
                         && forall k :: 0 <= k < SUB_CHUNK_VOLUME ==> 0 <= data.value[k] < limit)
    }

    function Get(idx: int): int
      requires 0 <= idx < SUB_CHUNK_VOLUME && (data.Some? ==> |data.value| == SUB_CHUNK_VOLUME)
    {
      if data.Some? then data.value[idx] else fill
    }
  }

  datatype SubChunk = SubChunk(blocks: Layer, meta: Layer, blockLight: Layer, skyLight: Layer) {
    predicate Valid()
    {
      blocks.Valid(256) && meta.Valid(16) && blockLight.Valid(16) && skyLight.Valid(16)
    }
  }

  datatype Chunk = Chunk(subChunks: seq<SubChunk>) {
    predicate Valid()
    {
      |subChunks| == SUB_CHUNK_COUNT && forall k :: 0 <= k < SUB_CHUNK_COUNT ==> subChunks[k].Valid()
    }
  }

  datatype Cell = Cell(x: int, z: int, y: int)

  predicate CellInChunk(c: Cell)
  {
    0 <= c.x < CHUNK_WIDTH && 0 <= c.z < CHUNK_WIDTH && 0 <= c.y < CHUNK_HEIGHT
  }

  function LocalIndex(c: Cell): int { c.y % SUB_CHUNK_SIZE * 256 + c.z * 16 + c.x }

  // Within one sub-chunk the index tells the blocks apart.
  lemma LocalIndexIsInjective(a: Cell, b: Cell)
    requires CellInChunk(a) && CellInChunk(b) && a.y / SUB_CHUNK_SIZE == b.y / SUB_CHUNK_SIZE
    ensures 0 <= LocalIndex(a) < SUB_CHUNK_VOLUME
    ensures LocalIndex(a) == LocalIndex(b) <==> a == b
  {
  }

  // The four planes of the buffer.
  datatype Plane = Blocks | Meta | BlockLight | SkyLight

  function LayerOf(s: SubChunk, p: Plane): Layer
  {
    match p case Blocks => s.blocks case Meta => s.meta case BlockLight => s.blockLight case SkyLight => s.skyLight
  }

  // What the world holds at a position.
  function ValueAt(chunk: Chunk, p: Plane, c: Cell): (v: int)
    requires chunk.Valid() && CellInChunk(c)
    ensures 0 <= v < (if p.Blocks? then 256 else 16)
  {
    var s := chunk.subChunks[c.y / SUB_CHUNK_SIZE];
    assert s.Valid();
    LayerOf(s, p).Get(LocalIndex(c))
  }

  // A box with exclusive upper bounds, as Serialize takes it.
  datatype Bounds = Bounds(xmin: int, xmax: int, ymin: int, ymax: int, zmin: int, zmax: int) {
    predicate InChunk()
    {
      0 <= xmin <= xmax <= CHUNK_WIDTH && 0 <= zmin <= zmax <= CHUNK_WIDTH && 0 <= ymin <= ymax <= CHUNK_HEIGHT
    }

    predicate Contains(c: Cell)
    {
      xmin <= c.x < xmax && zmin <= c.z < zmax && ymin <= c.y < ymax
    }

    function SizeX(): int { xmax - xmin }
    function SizeY(): int { ymax - ymin }
    function SizeZ(): int { zmax - zmin }
    function Volume(): int { SizeX() * SizeZ() * SizeY() }

    // Where a decoder that walks x, then z, then y expects a column, and a position.
    function ColumnNumber(x: int, z: int): int { (x - xmin) * SizeZ() + (z - zmin) }
    function Index(c: Cell): int { ColumnNumber(c.x, c.z) * SizeY() + (c.y - ymin) }
  }

  type Region = r: Bounds | r.InChunk() witness Bounds(0, 0, 0, 0, 0, 0)

  // The cells that come before (x, z, y) on that walk.
  function Column(r: Region, x: int, z: int, y: int): seq<Cell>
    requires r.ymin <= y
  {
    seq(y - r.ymin, k => Cell(x, z, r.ymin + k))
  }

  function Slice(r: Region, x: int, z: int): seq<Cell>
    requires r.zmin <= z
    decreases z - r.zmin
  {
    if z == r.zmin then [] else Slice(r, x, z - 1) + Column(r, x, z - 1, r.ymax)
  }

  function Slab(r: Region, x: int): seq<Cell>
    requires r.xmin <= x
    decreases x - r.xmin
  {
    if x == r.xmin then [] else Slab(r, x - 1) + Slice(r, x - 1, r.zmax)
  }

  lemma Distribute(a: int, b: int, c: int)
    ensures (a + b) * c == a * c + b * c
  {
  }

  lemma MulMonotone(a: int, b: int, c: int)
    requires a <= b && 0 <= c
    ensures a * c <= b * c
  {
  }

  lemma {:induction false} SliceLength(r: Region, x: int, z: int)
    requires r.zmin <= z <= r.zmax
    ensures |Slice(r, x, z)| == (z - r.zmin) * r.SizeY()
    decreases z - r.zmin
  {
    if z > r.zmin {
      assert |Slice(r, x, z)| == |Slice(r, x, z - 1)| + r.SizeY();
      hide *;
      SliceLength(r, x, z - 1);
      Distribute(z - 1 - r.zmin, 1, r.SizeY());
    }
  }

  lemma {:induction false} SliceAt(r: Region, x: int, z: int, c: Cell)
    requires r.zmin <= z <= r.zmax && c.x == x && r.zmin <= c.z < z && r.ymin <= c.y < r.ymax
    ensures var k := (c.z - r.zmin) * r.SizeY() + (c.y - r.ymin);
            0 <= k < |Slice(r, x, z)| && Slice(r, x, z)[k] == c
    decreases z - r.zmin
  {
    assert Slice(r, x, z) == Slice(r, x, z - 1) + Column(r, x, z - 1, r.ymax);
    if c.z == z - 1 {
      SliceLength(r, x, z - 1);
      hide Slice, Bounds.Index;
      assert Column(r, x, z - 1, r.ymax)[c.y - r.ymin] == c;
    } else {
      hide Slice, Column;
      SliceAt(r, x, z - 1, c);
    }
  }

  lemma IndexSplits(r: Bounds, c: Cell)
    ensures r.Index(c) == (c.x - r.xmin) * r.SizeZ() * r.SizeY() + ((c.z - r.zmin) * r.SizeY() + (c.y - r.ymin))
  {
    Distribute((c.x - r.xmin) * r.SizeZ(), c.z - r.zmin, r.SizeY());
  }

  lemma SlabSize(n: int, w: int, h: int)
    ensures n * w * h + w * h == (n + 1) * w * h
  {
    Distribute(n, 1, w);
    Distribute(n * w, w, h);
  }

  lemma {:induction false} SlabLength(r: Region, x: int)
    requires r.xmin <= x <= r.xmax
    ensures |Slab(r, x)| == (x - r.xmin) * r.SizeZ() * r.SizeY()
    decreases x - r.xmin
  {
    if x > r.xmin {
      assert |Slab(r, x)| == |Slab(r, x - 1)| + |Slice(r, x - 1, r.zmax)|;
      hide *;
      SlabLength(r, x - 1);
      SliceLength(r, x - 1, r.zmax);
      SlabSize(x - 1 - r.xmin, r.SizeZ(), r.SizeY());
    }
  }

  lemma {:induction false} SlabAt(r: Region, x: int, c: Cell)
    requires r.xmin <= x <= r.xmax && r.Contains(c) && c.x < x
    ensures 0 <= r.Index(c) < |Slab(r, x)| && Slab(r, x)[r.Index(c)] == c
    decreases x - r.xmin
  {
    assert Slab(r, x) == Slab(r, x - 1) + Slice(r, x - 1, r.zmax);
    if c.x == x - 1 {
      SlabLength(r, x - 1);
      SliceAt(r, x - 1, r.zmax, c);
      IndexSplits(r, c);
      hide Slab, Slice, Bounds.Index;
    } else {
      SlabAt(r, x - 1, c);
    }
  }

  lemma SlabIndex(r: Region, x: int)
    requires r.xmin <= x <= r.xmax
    ensures |Slab(r, x)| == (x - r.xmin) * r.SizeZ() * r.SizeY()
    ensures forall c: Cell :: r.Contains(c) && c.x < x ==>
              0 <= r.Index(c) < |Slab(r, x)| && Slab(r, x)[r.Index(c)] == c
  {
    SlabLength(r, x);
    hide Slab, Bounds.Index;
    forall c: Cell | r.Contains(c) && c.x < x
      ensures 0 <= r.Index(c) < |Slab(r, x)| && Slab(r, x)[r.Index(c)] == c
    {
      SlabAt(r, x, c);
    }
  }

  // ----- nibbles -----

  function Nibble(raw: seq<int>, base: nat, k: nat): int
    requires base + k / 2 < |raw|
  {
    if k % 2 == 1 then raw[base + k / 2] / 16 else raw[base + k / 2] % 16
  }

  function PackNibble(byte: int, val: int, high: bool): int
  {
    if high then byte % 16 + val % 16 * 16 else byte / 16 * 16 + val % 16
  }

  predicate Bytes(raw: seq<int>) { forall k :: 0 <= k < |raw| ==> 0 <= raw[k] < 256 }

  // Packing one nibble changes that nibble and no other.
  lemma PackChangesOneNibble(raw: seq<int>, base: nat, i: nat, val: int)
    requires Bytes(raw) && base + i / 2 < |raw| && 0 <= val < 16
    ensures var raw' := raw[base + i / 2 := PackNibble(raw[base + i / 2], val, i % 2 == 1)];
            && Bytes(raw') && Nibble(raw', base, i) == val
            && (forall k: nat :: k != i && base + k / 2 < |raw| ==> Nibble(raw', base, k) == Nibble(raw, base, k))
  {
  }

  // ----- the buffer -----

  function PlaneBase(p: Plane, blocks: nat): nat
  {
    var nibbles := (blocks + 1) / 2;
    match p
    case Blocks => 0
    case Meta => blocks
    case BlockLight => blocks + nibbles
    case SkyLight => blocks + 2 * nibbles
  }

  function Total(blocks: nat): nat { blocks + (blocks + 1) / 2 * 3 }

  // What a decoder reads from plane `p` for the k-th position of the walk.
  function Read(raw: seq<int>, blocks: nat, p: Plane, k: nat): int
    requires |raw| == Total(blocks) && k < blocks
  {
    if p.Blocks? then raw[k] else Nibble(raw, PlaneBase(p, blocks), k)
  }

  // The first positions of the walk are stored, and the metadata after them is still zero.
  ghost predicate Stored(chunk: Chunk, raw: seq<int>, blocks: nat, cells: seq<Cell>)
    requires chunk.Valid()
  {
    && |raw| == Total(blocks) && |cells| <= blocks && Bytes(raw)
    && (forall k :: 0 <= k < |cells| ==> CellInChunk(cells[k]))
    && (forall p: Plane, k :: 0 <= k < |cells| ==> Read(raw, blocks, p, k) == ValueAt(chunk, p, cells[k]))
    && (forall k :: |cells| <= k < blocks ==> Read(raw, blocks, Meta, k) == 0)
  }

  lemma PlanesDoNotOverlap(raw: seq<int>, blocks: nat, p: Plane, i: nat, b: int)
    requires |raw| == Total(blocks) && i < blocks
    ensures var at := if p.Blocks? then i else PlaneBase(p, blocks) + i / 2;
            && at < |raw|
            && (forall q: Plane, k: nat :: q != p && k < blocks ==>
               Read(raw[at := b], blocks, q, k) == Read(raw, blocks, q, k))
  {
  }

  // Write one plane's value for the i-th position.
  method WriteNibble(raw: array<int>, blocks: nat, p: Plane, i: nat, val: int)
    requires raw.Length == Total(blocks) && i < blocks && !p.Blocks? && 0 <= val < 16 && Bytes(raw[..])
    modifies raw
    ensures Bytes(raw[..])
    ensures Read(raw[..], blocks, p, i) == val
    ensures forall k: nat :: k != i && k < blocks ==> Read(raw[..], blocks, p, k) == old(Read(raw[..], blocks, p, k))
    ensures forall q: Plane, k: nat :: q != p && k < blocks ==>
              Read(raw[..], blocks, q, k) == old(Read(raw[..], blocks, q, k))
  {
    hide Read;
    ghost var was := raw[..];
    WriteChangesOneValue(was, blocks, p, i, val);
    var at := PlaneBase(p, blocks) + i / 2;
    raw[at] := PackNibble(raw[at], val, i % 2 == 1);
    assert raw[..] == was[at := PackNibble(was[at], val, i % 2 == 1)];
  }

  lemma WriteChangesOneValue(raw: seq<int>, blocks: nat, p: Plane, i: nat, val: int)
    requires |raw| == Total(blocks) && i < blocks && !p.Blocks? && 0 <= val < 16 && Bytes(raw)
    ensures var at := PlaneBase(p, blocks) + i / 2;
            && at < |raw|
            && var now := raw[at := PackNibble(raw[at], val, i % 2 == 1)];
               && Bytes(now) && Read(now, blocks, p, i) == val
               && (forall k: nat :: k != i && k < blocks ==> Read(now, blocks, p, k) == Read(raw, blocks, p, k))
               && (forall q: Plane, k: nat :: q != p && k < blocks ==>
                  Read(now, blocks, q, k) == Read(raw, blocks, q, k))
  {
    var base := PlaneBase(p, blocks);
    assert base + i / 2 < |raw|;
    PackChangesOneNibble(raw, base, i, val);
    PlanesDoNotOverlap(raw, blocks, p, i, PackNibble(raw[base + i / 2], val, i % 2 == 1));
  }

  // The body of the innermost loop.
  method WriteCell(raw: array<int>, blocks: nat, chunk: Chunk, sub: SubChunk, c: Cell, i: nat, ghost cells: seq<Cell>)
    requires chunk.Valid() && CellInChunk(c) && sub == chunk.subChunks[c.y / SUB_CHUNK_SIZE]
    requires raw.Length == Total(blocks) && i == |cells| < blocks && Stored(chunk, raw[..], blocks, cells)
    modifies raw
    ensures Stored(chunk, raw[..], blocks, cells + [c])
  {
    assert sub.Valid();
    var idx := LocalIndex(c);
    ghost var was := raw[..];
    PlanesDoNotOverlap(raw[..], blocks, Blocks, i, sub.blocks.Get(idx));
    raw[i] := sub.blocks.Get(idx);
    ghost var one := raw[..];
    assert one == was[i := sub.blocks.Get(idx)];
    assert forall k: nat :: k < blocks && k != i ==> Read(one, blocks, Blocks, k) == Read(was, blocks, Blocks, k);
    assert Read(one, blocks, Meta, i) == Read(was, blocks, Meta, i) == 0;
    // The buffer starts zeroed, so a zero metadata fill needs no write.
    if sub.meta.data.Some? {
      WriteNibble(raw, blocks, Meta, i, sub.meta.Get(idx));
    } else if sub.meta.fill != 0 {
      WriteNibble(raw, blocks, Meta, i, sub.meta.fill);
    }
    ghost var two := raw[..];
    assert Read(two, blocks, Meta, i) == sub.meta.Get(idx);
    WriteNibble(raw, blocks, BlockLight, i, sub.blockLight.Get(idx));
    ghost var three := raw[..];
    WriteNibble(raw, blocks, SkyLight, i, sub.skyLight.Get(idx));
    ghost var four := raw[..];
    forall p: Plane
      ensures Read(four, blocks, p, i) == ValueAt(chunk, p, c)
      ensures forall k: nat :: k < blocks && k != i ==> Read(four, blocks, p, k) == Read(was, blocks, p, k)
    {
      match p
      case Blocks =>
        assert Read(four, blocks, p, i) == Read(three, blocks, p, i)
               == Read(two, blocks, p, i) == Read(one, blocks, p, i);
      case Meta =>
        assert Read(four, blocks, p, i) == Read(three, blocks, p, i) == Read(two, blocks, p, i);
      case BlockLight =>
        assert Read(four, blocks, p, i) == Read(three, blocks, p, i);
      case SkyLight =>
    }
    StoredExtends(chunk, was, four, blocks, cells, c);
  }

  lemma StoredExtends(chunk: Chunk, was: seq<int>, now: seq<int>, blocks: nat, cells: seq<Cell>, c: Cell)
    requires chunk.Valid() && CellInChunk(c) && |cells| < blocks
    requires Stored(chunk, was, blocks, cells) && |now| == |was| && Bytes(now)
    requires forall p: Plane :: Read(now, blocks, p, |cells|) == ValueAt(chunk, p, c)
    requires forall p: Plane, k: nat :: k < blocks && k != |cells| ==>
             Read(now, blocks, p, k) == Read(was, blocks, p, k)
    ensures Stored(chunk, now, blocks, cells + [c])
  {
  }

  // A decoder that walks the region in x, z, y order reads back what the world holds.
  ghost predicate Decodes(chunk: Chunk, r: Region, raw: seq<int>)
    requires chunk.Valid()
  {
    r.Volume() >= 0 && |raw| == Total(r.Volume()) &&
    forall p: Plane, c: Cell :: r.Contains(c) ==>
      0 <= r.Index(c) < r.Volume() && Read(raw, r.Volume(), p, r.Index(c)) == ValueAt(chunk, p, c)
  }

  // Serialize up to the compression call.
  method Serialize(chunk: Chunk, r: Region) returns (raw: array<int>)
    requires chunk.Valid()
    ensures fresh(raw) && Decodes(chunk, r, raw[..])
  {
    hide Stored, Slab, Read, Decodes;
    VolumeIsNat(r);
    var blocks: nat := r.Volume();
    raw := new int[Total(blocks)](i => 0);
    ZeroesStoreNothing(chunk, r, raw[..], blocks);
    var i: nat := 0;
    var x := r.xmin;
    while x < r.xmax
      invariant r.xmin <= x <= r.xmax && i == |Slab(r, x)|
      invariant Stored(chunk, raw[..], blocks, Slab(r, x))
    {
      i := SerializeSlice(raw, blocks, chunk, r, x, i);
      x := x + 1;
    }
    StoredIsReadable(chunk, r, raw[..]);
  }

  // The half of a byte that holds an even or an odd position.
  function HalfByte(byte: int, k: int): int { if k % 2 == 0 then byte % 16 else byte / 16 }

  // What a layer of a sub-chunk has at an index, filled or not.
  function LayerValue(l: Layer, idx: int): int
  {
    if l.data.None? then l.fill else if 0 <= idx < |l.data.value| then l.data.value[idx] else -1
  }

  lemma ReadExactly(raw: seq<int>, n: nat, p: Plane, k: nat)
    requires |raw| == Total(n) && k < n
    ensures var half := (n + 1) / 2;
            && |raw| == n + half * 3
            && Read(raw, n, p, k) ==
                 match p
                 case Blocks => raw[k]
                 case Meta => HalfByte(raw[n + k / 2], k)
                 case BlockLight => HalfByte(raw[n + half + k / 2], k)
                 case SkyLight => HalfByte(raw[n + half + half + k / 2], k)
  {
  }

  lemma ValueExactly(chunk: Chunk, p: Plane, c: Cell)
    requires chunk.Valid() && CellInChunk(c)
    ensures 0 <= c.y / 16 < |chunk.subChunks|
    ensures var sub, idx := chunk.subChunks[c.y / 16], c.y % 16 * 256 + c.z * 16 + c.x;
            ValueAt(chunk, p, c) ==
              LayerValue(match p
                         case Blocks => sub.blocks
                         case Meta => sub.meta
                         case BlockLight => sub.blockLight
                         case SkyLight => sub.skyLight, idx)
  {
    var sub := chunk.subChunks[c.y / 16];
    assert sub.Valid();
    LocalIndexIsInjective(c, c);
  }

  lemma IndexExactly(r: Bounds, c: Cell)
    ensures r.Index(c) == ((c.x - r.xmin) * (r.zmax - r.zmin) + (c.z - r.zmin)) * (r.ymax - r.ymin) + (c.y - r.ymin)
    ensures r.Volume() == (r.xmax - r.xmin) * (r.zmax - r.zmin) * (r.ymax - r.ymin)
  {
  }

  // The same byte by byte: n block ids, then half as many bytes, rounded up, for each of metadata, block
  // light and sky light, with the lower half of a byte first; positions run along y, then z, then x, and the
  // chunk's own layers run along x, then z, then y.
  lemma BufferExactly(chunk: Chunk, r: Region, raw: seq<int>, x: int, z: int, y: int, n: int, k: int)
    requires chunk.Valid() && Decodes(chunk, r, raw)
    requires r.xmin <= x < r.xmax && r.zmin <= z < r.zmax && r.ymin <= y < r.ymax
    requires n == (r.xmax - r.xmin) * (r.zmax - r.zmin) * (r.ymax - r.ymin)
    requires k == ((x - r.xmin) * (r.zmax - r.zmin) + (z - r.zmin)) * (r.ymax - r.ymin) + (y - r.ymin)
    ensures 0 <= k < n && |raw| == n + (n + 1) / 2 * 3 && 0 <= y / 16 < |chunk.subChunks|
    ensures var sub, half, idx := chunk.subChunks[y / 16], (n + 1) / 2, y % 16 * 256 + z * 16 + x;
            && raw[k] == LayerValue(sub.blocks, idx)
            && HalfByte(raw[n + k / 2], k) == LayerValue(sub.meta, idx)
            && HalfByte(raw[n + half + k / 2], k) == LayerValue(sub.blockLight, idx)
            && HalfByte(raw[n + half + half + k / 2], k) == LayerValue(sub.skyLight, idx)
  {
    var c := Cell(x, z, y);
    assert CellInChunk(c);
    hide *;
    IndexExactly(r, c);
    DecodesAt(chunk, r, raw, c);
    assert r.Index(c) == k && r.Volume() == n;
    ReadExactly(raw, n, Blocks, k);
    ReadExactly(raw, n, Meta, k);
    ReadExactly(raw, n, BlockLight, k);
    ReadExactly(raw, n, SkyLight, k);
    ValueExactly(chunk, Blocks, c);
    ValueExactly(chunk, Meta, c);
    ValueExactly(chunk, BlockLight, c);
    ValueExactly(chunk, SkyLight, c);
  }

  lemma DecodesAt(chunk: Chunk, r: Region, raw: seq<int>, c: Cell)
    requires chunk.Valid() && Decodes(chunk, r, raw)
    requires r.xmin <= c.x < r.xmax && r.zmin <= c.z < r.zmax && r.ymin <= c.y < r.ymax
    ensures var n, k := r.Volume(), r.Index(c);
            && 0 <= k < n && |raw| == Total(n) && CellInChunk(c)
            && forall p: Plane :: Read(raw, n, p, k) == ValueAt(chunk, p, c)
  {
    hide Bounds.Index, Bounds.Volume, Read, ValueAt;
    assert r.Contains(c) && CellInChunk(c);
    var v := ValueAt(chunk, Blocks, c);
  }

  lemma VolumeIsNat(r: Region)
    ensures r.Volume() >= 0
  {
    MulMonotone(0, r.SizeX(), r.SizeZ());
    MulMonotone(0, r.SizeX() * r.SizeZ(), r.SizeY());
  }

  lemma ZeroesStoreNothing(chunk: Chunk, r: Region, raw: seq<int>, blocks: nat)
    requires chunk.Valid() && |raw| == Total(blocks) && forall k :: 0 <= k < |raw| ==> raw[k] == 0
    ensures Slab(r, r.xmin) == [] && Stored(chunk, raw, blocks, Slab(r, r.xmin))
  {
  }

  lemma StoredIsReadable(chunk: Chunk, r: Region, raw: seq<int>)
    requires chunk.Valid() && r.Volume() >= 0 && |raw| == Total(r.Volume())
    requires Stored(chunk, raw, r.Volume(), Slab(r, r.xmax))
    ensures Decodes(chunk, r, raw)
  {
    hide Read;
    SlabIndex(r, r.xmax);
    forall p: Plane, c: Cell | r.Contains(c)
      ensures 0 <= r.Index(c) < r.Volume() && Read(raw, r.Volume(), p, r.Index(c)) == ValueAt(chunk, p, c)
    {
      assert Slab(r, r.xmax)[r.Index(c)] == c;
    }
  }

  // The loop over z.
  method SerializeSlice(raw: array<int>, blocks: nat, chunk: Chunk, r: Region, x: int, start: nat) returns (i: nat)
    requires chunk.Valid() && r.xmin <= x < r.xmax && raw.Length == Total(blocks)
    requires blocks == r.Volume() && start == |Slab(r, x)| && Stored(chunk, raw[..], blocks, Slab(r, x))
    modifies raw
    ensures i == |Slab(r, x + 1)| && Stored(chunk, raw[..], blocks, Slab(r, x + 1))
  {
    hide *;
    SlabBegins(r, x);
    i := start;
    var z := r.zmin;
    while z < r.zmax
      invariant r.zmin <= z <= r.zmax && i == |Slab(r, x)| + |Slice(r, x, z)|
      invariant Stored(chunk, raw[..], blocks, Slab(r, x) + Slice(r, x, z))
    {
      SliceFits(r, x, z);
      ghost var before := Slab(r, x) + Slice(r, x, z);
      i := SerializeColumn(raw, blocks, chunk, r, x, z, i, before);
      SliceNext(r, x, z, Slab(r, x));
      z := z + 1;
    }
  }

  lemma SlabBegins(r: Region, x: int)
    requires r.xmin <= x < r.xmax
    ensures r.zmin <= r.zmax && Slab(r, x) + Slice(r, x, r.zmin) == Slab(r, x) && Slice(r, x, r.zmin) == []
    ensures Slab(r, x) + Slice(r, x, r.zmax) == Slab(r, x + 1)
  {
  }

  // The loop over y, one sub-chunk at a time.
  lemma ColumnNext(r: Region, x: int, z: int, y: int, before: seq<Cell>)
    requires r.ymin <= y
    ensures before + Column(r, x, z, y) + [Cell(x, z, y)] == before + Column(r, x, z, y + 1)
    ensures |Column(r, x, z, y)| == y - r.ymin
  {
  }

  lemma SliceNext(r: Region, x: int, z: int, before: seq<Cell>)
    requires r.zmin <= z
    ensures before + Slice(r, x, z) + Column(r, x, z, r.ymax) == before + Slice(r, x, z + 1)
    ensures |Slice(r, x, z + 1)| == |Slice(r, x, z)| + r.SizeY()
  {
    assert |Column(r, x, z, r.ymax)| == r.SizeY();
    hide Column;
    assert Slice(r, x, z + 1) == Slice(r, x, z) + Column(r, x, z, r.ymax);
  }

  // Where the sub-chunk of height y ends, or the region if that is lower.
  function SlabEnd(r: Region, y: int): int
  {
    Min(r.ymax, y / SUB_CHUNK_SIZE * SUB_CHUNK_SIZE + SUB_CHUNK_SIZE)
  }

  lemma SlabEndSpec(r: Region, y: int)
    requires y < r.ymax
    ensures y < SlabEnd(r, y) <= r.ymax
    ensures forall v :: y <= v < SlabEnd(r, y) ==> v / SUB_CHUNK_SIZE == y / SUB_CHUNK_SIZE
  {
  }

  method SerializeColumn(raw: array<int>, blocks: nat, chunk: Chunk, r: Region, x: int, z: int, start: nat,
                         ghost before: seq<Cell>) returns (i: nat)
    requires chunk.Valid() && r.xmin <= x < r.xmax && r.zmin <= z < r.zmax
    requires raw.Length == Total(blocks) && start == |before| && start + r.SizeY() <= blocks
    requires Stored(chunk, raw[..], blocks, before)
    modifies raw
    ensures i == start + r.SizeY() && Stored(chunk, raw[..], blocks, before + Column(r, x, z, r.ymax))
  {
    i := start;
    var y := r.ymin;
    assert before + Column(r, x, z, y) == before;
    hide Stored, Column, SlabEnd;
    while y < r.ymax
      invariant r.ymin <= y <= r.ymax && i == start + (y - r.ymin)
      invariant Stored(chunk, raw[..], blocks, before + Column(r, x, z, y))
    {
      var slabEnd := SlabEnd(r, y);
      SlabEndSpec(r, y);
      var sub := chunk.subChunks[y / SUB_CHUNK_SIZE];
      while y < slabEnd
        invariant r.ymin <= y <= slabEnd <= r.ymax && i == start + (y - r.ymin)
        invariant y < slabEnd ==> sub == chunk.subChunks[y / SUB_CHUNK_SIZE]
        invariant Stored(chunk, raw[..], blocks, before + Column(r, x, z, y))
      {
        WriteCell(raw, blocks, chunk, sub, Cell(x, z, y), i, before + Column(r, x, z, y));
        ColumnNext(r, x, z, y, before);
        y, i := y + 1, i + 1;
      }
    }
  }

  lemma SlabFits(r: Region, x: int)
    requires r.xmin <= x < r.xmax
    ensures |Slab(r, x)| + |Slice(r, x, r.zmax)| <= r.Volume()
  {
    SlabLength(r, x);
    SliceLength(r, x, r.zmax);
    hide Slab, Slice, Bounds.Index;
    OneMoreFits(x - r.xmin, r.SizeX(), r.SizeZ(), r.SizeY());
  }

  lemma OneMoreFits(n: nat, m: nat, w: nat, h: nat)
    requires n < m
    ensures n * w * h + w * h <= m * w * h
  {
    SlabSize(n, w, h);
    MulMonotone(n + 1, m, w);
    MulMonotone((n + 1) * w, m * w, h);
  }

  lemma SliceFits(r: Region, x: int, z: int)
    requires r.xmin <= x < r.xmax && r.zmin <= z < r.zmax
    ensures |Slab(r, x)| + |Slice(r, x, z)| + r.SizeY() <= r.Volume()
  {
    SlabFits(r, x);
    SliceLength(r, x, z);
    SliceLength(r, x, r.zmax);
    Distribute(z - r.zmin, 1, r.SizeY());
    MulMonotone(z - r.zmin + 1, r.SizeZ(), r.SizeY());
  }

  lemma ColumnsDiffer(r: Region, a: Cell, b: Cell)
    requires r.Contains(a) && r.Contains(b) && (a.x, a.z) != (b.x, b.z)
    ensures r.ColumnNumber(a.x, a.z) != r.ColumnNumber(b.x, b.z)
  {
    var w, p, q := r.SizeZ(), a.x - r.xmin, b.x - r.xmin;
    if p < q {
      Distribute(p, 1, w);
      MulMonotone(p + 1, q, w);
    } else if q < p {
      Distribute(q, 1, w);
      MulMonotone(q + 1, p, w);
    }
  }

  lemma EvenColumnStart(r: Bounds, x: int, z: int)
    requires r.SizeY() % 2 == 0
    ensures r.ColumnNumber(x, z) * r.SizeY() == 2 * (r.ColumnNumber(x, z) * (r.SizeY() / 2))
  {
    var n, g := r.ColumnNumber(x, z), r.SizeY() / 2;
    assert r.SizeY() == 2 * g;
    Doubled(n, g);
  }

  lemma Doubled(n: int, g: int)
    ensures n * (2 * g) == 2 * (n * g)
  {
  }

  // When the height is even no byte of a nibble plane holds values of two columns.
  lemma EvenColumnsShareNoByte(r: Region, a: Cell, b: Cell)
    requires r.Contains(a) && r.Contains(b) && (a.x, a.z) != (b.x, b.z)
    requires r.SizeY() % 2 == 0
    ensures r.Index(a) / 2 != r.Index(b) / 2
  {
    ColumnsDiffer(r, a, b);
    EvenColumnStart(r, a.x, a.z);
    EvenColumnStart(r, b.x, b.z);
    var g := r.SizeY() / 2;
    PairsApart(r.ColumnNumber(a.x, a.z), r.ColumnNumber(b.x, b.z), g, a.y - r.ymin, b.y - r.ymin);
  }

  // Columns of 2g values each occupy g whole bytes.
  lemma PairsApart(ca: int, cb: int, g: int, ya: int, yb: int)
    requires ca != cb && 0 <= ya < 2 * g && 0 <= yb < 2 * g
    ensures (2 * (ca * g) + ya) / 2 != (2 * (cb * g) + yb) / 2
  {
    if ca < cb {
      Distribute(ca, 1, g);
      MulMonotone(ca + 1, cb, g);
    } else {
      Distribute(cb, 1, g);
      MulMonotone(cb + 1, ca, g);
    }
    HalfOf(ca * g, ya);
    HalfOf(cb * g, yb);
  }

  lemma HalfOf(p: int, y: int)
    ensures (2 * p + y) / 2 == p + y / 2
  {
  }

  // With an odd height, a column that starts on a byte boundary ends inside a byte that the next
  // column of the same x also uses.
  lemma OddColumnsShareAByte(r: Region, x: int, z: int)
    requires r.SizeY() % 2 == 1
    requires r.xmin <= x < r.xmax && r.zmin <= z < z + 1 < r.zmax
    requires r.Index(Cell(x, z, r.ymin)) % 2 == 0
    ensures r.Index(Cell(x, z, r.ymax - 1)) / 2 == r.Index(Cell(x, z + 1, r.ymin)) / 2
  {
    NextColumnStart(r, x, z);
    OddTop(r.Index(Cell(x, z, r.ymin)), r.SizeY());
  }

  lemma NextColumnStart(r: Bounds, x: int, z: int)
    ensures r.Index(Cell(x, z + 1, r.ymin)) == r.Index(Cell(x, z, r.ymin)) + r.SizeY()
    ensures r.Index(Cell(x, z, r.ymax - 1)) == r.Index(Cell(x, z, r.ymin)) + r.SizeY() - 1
  {
    Distribute(r.ColumnNumber(x, z), 1, r.SizeY());
    assert r.ColumnNumber(x, z + 1) == r.ColumnNumber(x, z) + 1;
  }

  lemma OddTop(start: int, height: int)
    requires start % 2 == 0 && height % 2 == 1
    ensures (start + height - 1) / 2 == (start + height) / 2
  {
  }

  function RegionOf(cs: seq<Change>): Bounds
    requires cs != []
  {
    var b := BoxOf(cs);
    Bounds(b.xmin, b.xmax + 1, b.ymin, b.ymax + 1, b.zmin, b.zmax + 1)
  }

  // The region that carries a list of changes back to a client holds each of them, its columns start
  // on a byte boundary of every nibble plane, and its sizes fit the three bytes of the header.
  lemma SubRegionIsFaithful(cs: seq<Change>)
    requires cs != [] && AllLocal(cs)
    ensures var r := RegionOf(cs);
            && r.InChunk() && r.SizeY() % 2 == 0
            && (forall c :: c in cs ==> r.Contains(Cell(c.x, c.z, c.y)))
            && (forall x, z {:trigger Cell(x, z, r.ymin)} :: r.Index(Cell(x, z, r.ymin)) % 2 == 0)
            && 0 <= r.SizeX() - 1 < 256 && 0 <= r.SizeY() - 1 < 256 && 0 <= r.SizeZ() - 1 < 256
  {
    BoxIsFaithful(cs);
    var r := RegionOf(cs);
    hide BoxOf, Bounds.Index, Bounds.ColumnNumber;
    forall x, z ensures r.Index(Cell(x, z, r.ymin)) % 2 == 0 {
      EvenColumnIndex(r, x, z);
    }
  }

  lemma EvenColumnIndex(r: Bounds, x: int, z: int)
    requires r.SizeY() % 2 == 0
    ensures r.Index(Cell(x, z, r.ymin)) % 2 == 0
  {
    EvenColumnStart(r, x, z);
  }
}
